/** Long-term admission over whole runs: NEW's head waits only while memory has no place for it, as
    long as no process ends by a segmentation fault, whose branch does not look at NEW. */
module AdmissionRuns {
  import opened Lists
  import opened Words
  import opened Cpu
  import opened KernelInvariant
  import opened KernelRuns
  import opened KernelQueues
  import opened DynamicMemory
  import opened BareMemory
  import opened Admission
  import opened WholeSystem
  import opened MutexScript
  import opened MutexFrame
  import opened MutexWorkload
  import opened MutexTurns
  import opened MutexProgress
  import K = KernelState
  import M = Memory
  import P = Partitions

  /** NEW is empty, or memory refuses its head. */
  predicate NobodyFits(k: K.State, m: M.State) {
    k.pending == [] || M.TryCreate(m, k.pending[0].pid, k.pending[0].size).None?
  }

  /** The next instruction of the running thread is a segmentation fault. */
  predicate Faults(program: Scripts, s: System, a: Action) {
    a.Execute? && s.k.running.Some? && Cycle(program(s.k.running.value.id), s.cpu, s.bytes).SegFault?
  }

  predicate FaultFree(program: Scripts, s: System, actions: seq<Action>)
    decreases |actions|
  {
    actions == [] ||
    (!Faults(program, s, actions[0])
     && match Act(program, s, actions[0])
        case None => true
        case Some(t) => FaultFree(program, t, actions[1..]))
  }

  // The loop goes on until nobody fits

  lemma {:induction false} LoopExhausts(v: Threads)
    requires |v.k.pending| == |v.k.firstThreads|
    ensures NobodyFits(AdmitThreads(v).k, AdmitThreads(v).m)
    decreases |v.k.pending|
  {
    hide M.TryCreate;
    var (again, t) := AttemptThreads(v);
    if again {
      LoopExhausts(t);
    }
  }

  lemma ServedTight(v: Threads, call: K.Step)
    requires Inv(v.k) && v.k.running.Some? && IsSyscall(call) && NobodyFits(v.k, v.m)
    requires ServeThreads(v, call).Some?
    ensures NobodyFits(ServeThreads(v, call).value.k, ServeThreads(v, call).value.m)
  {
    hide Inv, M.TryCreate, M.Delete, K.Enabled, K.Apply, AdmitThreads;
    var k := K.Apply(v.k, call);
    StepKeeps(v.k, call);
    AlignedInv(k);
    if call.CreateProcess? {
      LoopExhausts(v.(k := k));
    } else if call.ExitProcess? {
      LoopExhausts(v.(k := k, m := M.Delete(v.m, v.k.running.value.id.pid)));
    } else {
      NewStays(v.k, call);
    }
  }

  lemma OtherTight(program: Scripts, v: Threads, a: Action)
    requires Inv(v.k) && !a.Execute? && NobodyFits(v.k, v.m) && ActThreads(program, v, a).Some?
    ensures NobodyFits(ActThreads(program, v, a).value.k, ActThreads(program, v, a).value.m)
  {
    hide Inv, M.TryCreate, K.Pick, K.Find;
    match a
    case Interrupt =>
    case Schedule(policy) => NewStays(v.k, K.Dispatch(policy));
    case IoDone => NewStays(v.k, K.CompleteIo);
    case DumpDone(i) => NewStays(v.k, K.CompleteDump(i));
  }

  lemma {:induction false} ActionTight(program: Scripts, s: System, v: Threads, sizes: seq<nat>, a: Action)
    requires Agree(s, v, sizes) && NobodyFits(v.k, v.m) && !Faults(program, s, a) && ActThreads(program, v, a).Some?
    ensures NobodyFits(ActThreads(program, v, a).value.k, ActThreads(program, v, a).value.m)
  {
    hide Inv, Agree, NobodyFits, Cycle, ServeThreads, M.Lookup, IsSyscall;
    AgreeOnKernel(s, v, sizes);
    if a.Execute? {
      var x := v.k.running.value.id;
      ExecutedAgrees(s, v, sizes, s.cpu, s.bytes);
      var o := Cycle(program(x), s.cpu, s.bytes);
      assert !o.SegFault?;
      if o.Trap? {
        var w := v.(regs := v.regs[x := o.context.regs], bytes := o.mem);
        assert NobodyFits(w.k, w.m);
        ServedTight(w, o.call);
      }
    } else {
      OtherTight(program, v, a);
    }
  }

  lemma TightBare(s: System, v: Threads, sizes: seq<nat>)
    requires Agree(s, v, sizes)
    ensures NobodyFits(s.k, s.m) <==> NobodyFits(v.k, v.m)
  {
    hide M.TryCreate, Strip, Agree;
    AgreeOnKernel(s, v, sizes);
    if s.k.pending != [] {
      CreateBare(s.m, s.k.pending[0].pid, s.k.pending[0].size);
    }
  }

  lemma {:induction false} RunTight(program: Scripts, s: System, v: Threads, sizes: seq<nat>, actions: seq<Action>)
    requires Agree(s, v, sizes) && NobodyFits(v.k, v.m) && FaultFree(program, s, actions)
    requires ActAll(program, s, actions).Some?
    ensures NobodyFits(ActAll(program, s, actions).value.k, ActAll(program, s, actions).value.m)
    decreases |actions|
  {
    hide Agree, Faults, Act, ActThreads;
    if actions == [] {
      TightBare(s, v, sizes);
    } else {
      ActAgrees(program, s, v, sizes, actions[0]);
      ActionTight(program, s, v, sizes, actions[0]);
      RunTight(program, Act(program, s, actions[0]).value, ActThreads(program, v, actions[0]).value, sizes,
          actions[1..]);
    }
  }

  /** In every run from start-up without a segmentation fault, a process waits in NEW only behind one
      that memory has no place for. */
  lemma {:induction false} NewWaitsForRoom(program: Scripts, start: Start, sizes: seq<nat>, actions: seq<Action>)
    requires Sensible(start, sizes) && ActAll(program, Power(start), actions).Some?
    requires FaultFree(program, Power(start), actions)
    ensures var s := ActAll(program, Power(start), actions).value;
      s.k.pending == [] || M.TryCreate(s.m, s.k.pending[0].pid, s.k.pending[0].size).None?
  {
    hide Power, ActAll, FaultFree, Agree, Sensible, AdmitThreads, Strip, M.TryCreate;
    PowerAgrees(start, sizes);
    LoopExhausts(Threads(K.DoCreateProcess(K.Boot, start.size, start.priority), Strip(start.m), map[], start.bytes));
    RunTight(program, Power(start), PowerThreads(start), sizes, actions);
  }

  // A segmentation fault leaves NEW alone

  /** Asks for a second process, then reads past its own end. */
  function Faulty(size: u32, other: nat): seq<Instr> {
    [Syscall(K.CreateProcess(other, 0)), Set(AX, size), ReadMem(BX, AX)]
  }

  /** Nobody runs and nobody can: one process waits in NEW. */
  function Stuck(other: nat): K.State {
    K.Boot.(exited := [Tcb(0, 0)], nextPid := 2, pending := [K.PendingPcb(1, other)],
            firstThreads := [K.FirstThread(other, 0)])
  }

  lemma {:induction false} FaultEnds(k: K.State, other: nat)
    requires k == WaitingState(other, 0)
    ensures K.Enabled(k, K.SegmentationFault) && K.Apply(k, K.SegmentationFault) == Stuck(other)
  {
    assert map[0 := 1] - {0} == map[];
  }

  lemma {:induction false} RoomAgain(m: M.State, tam: nat, size: nat, other: nat)
    requires size < tam <= P.INT_MAX && other <= tam && Some(m) == M.TryCreate(Empty("FIRST", tam), 0, size)
    ensures M.TryCreate(M.Delete(m, 0), 1, other).Some?
  {
    FirstCreated(Empty("FIRST", tam), 0, size);
    hide P.Select;
    assert m == M.After(Empty("FIRST", tam), M.Create(0, size));
    assert RemoveAt(m.procs, 0) == [];
    assert M.Delete(m, 0).parts == [P.Free(0, tam)];
    P.FirstFit([P.Free(0, tam)], other, 0);
  }

  lemma {:induction false} FaultyRuns(script: seq<Instr>, size: u32, other: nat, bytes: seq<byte>)
    requires script == Faulty(size, other) && size <= P.INT_MAX
    ensures var c := Context(Fresh, 0, size);
      && Cycle(script, c, bytes) == Trap(c.(regs := Fresh.(pc := 1)), bytes, K.CreateProcess(other, 0))
      && Cycle(script, c.(regs := Fresh.(pc := 1)), bytes) == Next(c.(regs := Fresh.(pc := 2, ax := size)), bytes)
      && Cycle(script, c.(regs := Fresh.(pc := 2, ax := size)), bytes)
         == SegFault(c.(regs := Fresh.(pc := 3, ax := size)), bytes)
  {
    hide ReadWord;
  }

  lemma Waits(other: nat)
    ensures WaitingState(other, 0).running == Some(Tcb(0, 0))
  {
  }

  lemma FaultServed(v: Threads, other: nat)
    requires v.k == WaitingState(other, 0)
    ensures ServeThreads(v, K.SegmentationFault) == Some(v.(k := Stuck(other), m := M.Delete(v.m, 0)))
  {
    hide M.Delete, K.Enabled, K.Apply;
    FaultEnds(v.k, other);
    Waits(other);
  }

  /** The four actions that lead there. */
  lemma {:induction false} FaultyEnds(program: Scripts, policy: K.Policy, v: Threads, tam: nat, size: u32, other: nat)
    returns (u: Threads)
    requires size < tam <= P.INT_MAX && other <= tam && size + other > tam
    requires program(K.ThreadId(0, 0)) == Faulty(size, other)
    requires v.k == FirstState(0) && v.regs == map[K.ThreadId(0, 0) := Fresh]
    requires Some(v.m) == M.TryCreate(Empty("FIRST", tam), 0, size) && HomeOf(v.m, 0) == Some(Bounds(0, size))
    ensures Leads(program, v, [Schedule(policy), Execute, Execute, Execute], u)
    ensures u.k == Stuck(other) && u.m == M.Delete(v.m, 0)
  {
    hide M.TryCreate, M.Delete, M.Lookup, HomeOf, Leads, Cycle, ServeThreads, WaitingState, Stuck, Faulty;
    var x := K.ThreadId(0, 0);
    var b := Bounds(0, size);
    FaultyRuns(program(x), size, other, v.bytes);
    assert v.k.ready == [Tcb(0, 0)] + [];
    Dispatches(program, policy, v, Tcb(0, 0), []);
    var v1 := v.(k := v.k.(running := Some(Tcb(0, 0)), ready := [], semThreads := 0));
    OwnAt(v1, x, b);
    NoSecondPlace(v.m, tam, size, other);
    var w := v1.(regs := v1.regs[x := Fresh.(pc := 1)]);
    SecondWaits(w, other, 0);
    var v2 := w.(k := WaitingState(other, 0));
    LeadsOne(program, v1, Execute, v2);
    Waits(other);
    OwnAt(v2, x, b);
    var v3 := v2.(regs := v2.regs[x := Fresh.(pc := 2, ax := size)]);
    LeadsOne(program, v2, Execute, v3);
    OwnAt(v3, x, b);
    u := v3.(k := Stuck(other), m := M.Delete(v.m, 0), regs := v3.regs[x := Fresh.(pc := 3, ax := size)]);
    FaultServed(v3.(regs := u.regs), other);
    LeadsOne(program, v3, Execute, u);
    LeadsOn(program, v2, [Execute], v3, [Execute], u);
    LeadsOn(program, v1, [Execute], v2, [Execute] + [Execute], u);
    LeadsOn(program, v, [Schedule(policy)], v1, [Execute] + ([Execute] + [Execute]), u);
    assert [Schedule(policy), Execute, Execute, Execute] == [Schedule(policy)] + ([Execute] + ([Execute] + [Execute]));
  }

  lemma {:induction false} NothingHappens(program: Scripts, v: Threads, other: nat)
    requires v.k == Stuck(other)
    ensures forall a :: ActThreads(program, v, a).None?
  {
    hide Cycle, M.Lookup;
  }

  /** A process whose only thread asks for a second process, which does not fit beside it, and then
      reads past its own end: the fault frees the memory, the second process would fit now, and it
      stays in NEW for good, since nothing can happen any more. */
  lemma {:induction false} FaultStrandsNew(program: Scripts, policy: K.Policy, tam: nat, size: u32, other: nat,
                                           cpu: Context, bytes: seq<byte>)
    returns (actions: seq<Action>)
    requires 0 < size < tam <= P.INT_MAX && other <= tam && size + other > tam && |bytes| <= P.INT_MAX
    requires program(K.ThreadId(0, 0)) == Faulty(size, other)
    ensures var s := Power(OneHole(tam, size, 0, cpu, bytes));
      && ActAll(program, s, actions).Some?
      && var t := ActAll(program, s, actions).value;
         && t.k.pending == [K.PendingPcb(1, other)] && M.TryCreate(t.m, 1, other).Some?
         && forall a :: Act(program, t, a).None?
  {
    hide Power, PowerThreads, ActAll, ActAllThreads, Agree, HomeOf, M.TryCreate, M.Delete, Sensible, Act, ActThreads,
      Faulty, Strip;
    var start := OneHole(tam, size, 0, cpu, bytes);
    OneHoleSensible(tam, size, 0, cpu, bytes);
    PowerAgrees(start, []);
    FirstAdmitted(tam, size, 0, cpu, bytes);
    var v := PowerThreads(start);
    var u := FaultyEnds(program, policy, v, tam, size, other);
    actions := [Schedule(policy), Execute, Execute, Execute];
    SystemRefinesThreads(program, Power(start), v, [], actions);
    var t := ActAll(program, Power(start), actions).value;
    AgreeOnKernel(t, u, []);
    RoomAgain(v.m, tam, size, other);
    CreateBare(t.m, 1, other);
    NothingHappens(program, u, other);
    forall a ensures Act(program, t, a).None? {
      ActAgrees(program, t, u, [], a);
    }
  }
}
