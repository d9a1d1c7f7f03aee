/** The shipped parent of the mutex script: it creates the mutex and the threads, waits for each of
    them, and reads the word they share. Here, what is true of it at every line. */
module MutexFamily {
  import opened Lists
  import opened Words
  import opened Cpu
  import opened Contexts
  import opened KernelInvariant
  import opened KernelRuns
  import opened WholeSystem
  import opened MutexScript
  import opened MutexFrame
  import opened MutexTeam
  import K = KernelState
  import M = Memory
  import P = Partitions

  /** The process, the threads' loop count, how many of them it creates and with what priority, and
      the other process it creates first. */
  datatype Family = Family(pid: nat, c: u32, k: nat, priority: nat, otherSize: nat, otherPriority: nat)

  /** RECURSOS_MUTEX_PROC, which has four threads of priority 6 and a process of 16 bytes and
      priority 4. */
  function ParentScript(f: Family): seq<Instr> {
    [Set(DX, 0), Set(AX, OFFSET), WriteMem(AX, DX),
     Syscall(K.CreateProcess(f.otherSize, f.otherPriority)), Syscall(K.CreateMutex(MUTEX))]
    + seq(f.k, _ => Syscall(K.CreateThread(f.priority)))
    + seq(f.k, (i: nat) => Syscall(K.JoinThread(i + 1)))
    + [ReadMem(DX, AX), Log(DX), Syscall(K.ExitProcess)]
  }

  function Parent(f: Family): K.ThreadId {
    K.ThreadId(f.pid, 0)
  }

  function Tids(k: nat): (r: seq<nat>)
    ensures |r| == k && forall i :: 0 <= i < k ==> r[i] == i + 1
    ensures forall t :: t in r <==> 1 <= t <= k
  {
    if k == 0 then [] else Tids(k - 1) + [k]
  }

  function SettingOf(f: Family, b: Bounds): Setting {
    Setting(f.pid, f.c, b, 0, Tids(f.k))
  }

  /** A 32-bit PC reaches the end of the parent's script. */
  predicate Fetchable(f: Family) {
    8 + 2 * f.k < 0x1_0000_0000
  }

  ghost predicate RunFamily(program: Scripts, f: Family) {
    f.c >= 1 && Fetchable(f) && program(Parent(f)) == ParentScript(f)
    && forall t :: 1 <= t <= f.k ==> program(K.ThreadId(f.pid, t)) == Script(f.c)
  }

  /** The same script, line by line. */
  function ParentLine(f: Family, pc: nat): Instr {
    if pc == 0 then Set(DX, 0)
    else if pc == 1 then Set(AX, OFFSET)
    else if pc == 2 then WriteMem(AX, DX)
    else if pc == 3 then Syscall(K.CreateProcess(f.otherSize, f.otherPriority))
    else if pc == 4 then Syscall(K.CreateMutex(MUTEX))
    else if pc < 5 + f.k then Syscall(K.CreateThread(f.priority))
    else if pc < 5 + 2 * f.k then Syscall(K.JoinThread(pc - 4 - f.k))
    else if pc == 5 + 2 * f.k then ReadMem(DX, AX)
    else if pc == 6 + 2 * f.k then Log(DX)
    else Syscall(K.ExitProcess)
  }

  lemma ParentLines(f: Family, pc: nat)
    ensures |ParentScript(f)| == 8 + 2 * f.k
    ensures pc < 8 + 2 * f.k ==> ParentScript(f)[pc] == ParentLine(f, pc)
  {
  }

  // Before the mutex

  /** The process has not been admitted and nobody has created the mutex. */
  ghost predicate Unborn(f: Family, v: Threads) {
    && Inv(v.k) && |v.bytes| <= P.INT_MAX
    && f.pid !in v.k.active && LockOf(v.k).None?
    && forall x :: x in Population(v.k) ==> x.pid != f.pid
  }

  /** Where the parent stands while it is alone. */
  predicate AtFirstLines(r: Registers) {
    && r.pc <= 4
    && (r.pc >= 1 ==> r.dx == 0)
    && (r.pc >= 2 ==> r.ax == OFFSET)
  }

  /** The word is inside the memory and still zero. */
  predicate Zeroed(home: Option<Bounds>, bytes: seq<byte>) {
    home.Some? && Fits(home.value, bytes) && ReadWord(bytes, home.value.base + OFFSET) == 0
  }

  /** The parent is its process's only thread, and has not created the mutex. */
  ghost predicate Young(f: Family, v: Threads) {
    && Inv(v.k) && |v.bytes| <= P.INT_MAX && Away(f.pid, v.k)
    && LockOf(v.k).None?
    && f.pid in v.k.active && v.k.active[f.pid] == 1
    && Parent(f) in Live(v.k) && (forall x :: x in Live(v.k) && x.pid == f.pid ==> x == Parent(f))
    && (forall i :: 0 <= i < |v.k.exited| ==> v.k.exited[i].id.pid != f.pid)
    && Parent(f) in v.regs && AtFirstLines(v.regs[Parent(f)])
    && (v.regs[Parent(f)].pc >= 3 ==> Zeroed(HomeOf(v.m, f.pid), v.bytes))
  }

  // With the mutex

  /** Where the parent stands from the creation of the mutex on. */
  predicate AtLaterLines(f: Family, r: Registers) {
    && Fetchable(f) && 5 <= r.pc <= 7 + 2 * f.k && r.ax == OFFSET
    && (r.pc > 5 + 2 * f.k ==> r.dx == f.k * f.c % 0x1_0000_0000)
  }

  /** How many threads the parent has created by that line. */
  function Children(f: Family, pc: nat): nat {
    if pc < 5 then 0 else if pc < 5 + f.k then pc - 5 else f.k
  }

  /** Thread t is still alive after the parent's join of it only while that join blocks the parent. */
  ghost predicate JoinHolds(f: Family, k: K.State, pc: nat, t: nat) {
    5 + f.k + t <= pc && K.ThreadId(f.pid, t) in Live(k) ==>
      pc == 5 + f.k + t && K.Join(Parent(f), K.ThreadId(f.pid, t)) in k.joins
  }

  ghost predicate ParentOk(f: Family, b: Bounds, v: Threads) {
    var st := SettingOf(f, b);
    && Parent(f) in Live(v.k) && Parent(f) in v.regs && f.pid in v.k.active
    && AtLaterLines(f, v.regs[Parent(f)])
    && (forall x :: x in Live(v.k) && x.pid == f.pid ==> x == Parent(f) || 1 <= x.tid <= f.k)
    && v.k.active[f.pid] == 1 + Tally(Heads, st, v.k, v.regs)
    && Finished(st, v.k.exited) + Tally(Heads, st, v.k, v.regs) == Children(f, v.regs[Parent(f)].pc)
    && forall t :: 1 <= t <= f.k ==> JoinHolds(f, v.k, v.regs[Parent(f)].pc, t)
  }

  /** A blocked parent waits for the child its last join names. */
  predicate ParentWaits(f: Family, v: Threads) {
    Parent(f) in Ids(v.k.blocked) && Parent(f) in v.regs ==>
      var pc := v.regs[Parent(f)].pc;
      5 + f.k < pc <= 5 + 2 * f.k && K.Join(Parent(f), K.ThreadId(f.pid, pc - 5 - f.k)) in v.k.joins
  }

  ghost predicate Grown(f: Family, b: Bounds, v: Threads, writes: nat, steps: nat) {
    Fine(SettingOf(f, b), v, writes, steps) && ParentOk(f, b, v) && ParentWaits(f, v)
  }

  ghost predicate SomewhereGrown(f: Family, v: Threads) {
    exists b, writes, steps :: Grown(f, b, v, writes, steps)
  }

  /** The process has ended. */
  ghost predicate Over(f: Family, v: Threads) {
    Inv(v.k) && Away(f.pid, v.k) && f.pid !in v.k.active
  }

  /** The parent's whole life. */
  ghost predicate Stage(f: Family, v: Threads) {
    Unborn(f, v) || Young(f, v) || SomewhereGrown(f, v) || Over(f, v)
  }

  // Frames

  /** What leaves the whole process alone leaves the parent alone. */
  lemma {:induction false} YoungFrame(f: Family, v: Threads, t: Threads)
    requires Young(f, v) && Frame(Process(f.pid), v, t) && Counts(f.pid, v.k, t.k)
    ensures Young(f, t)
  {
    hide Inv, Live, Ids, LockOf, HomeOf, ReadWord, Settled, Away;
    assert In(Process(f.pid), Parent(f));
    forall x | x in Live(t.k) && x.pid == f.pid ensures x == Parent(f) {
      assert In(Process(f.pid), x);
    }
    forall i | 0 <= i < |t.k.exited| ensures t.k.exited[i].id.pid != f.pid {
      if i < |v.k.exited| {
        assert t.k.exited[..|v.k.exited|][i] == v.k.exited[i];
      } else {
        assert !In(Process(f.pid), t.k.exited[i].id);
      }
    }
  }

  lemma {:induction false} NarrowFrame(st: Setting, v: Threads, t: Threads)
    requires Frame(Process(st.pid), v, t)
    ensures Frame(Members(st), v, t)
  {
    hide Inv, Live, Ids, LockOf, HomeOf, ReadWord, Settled, Away;
    assert forall x :: In(Members(st), x) ==> In(Process(st.pid), x);
  }

  lemma {:induction false} ProcessFacts(pid: nat, v: Threads, t: Threads)
    requires Frame(Process(pid), v, t)
    ensures Inv(t.k)
    ensures forall x: K.ThreadId :: x.pid == pid ==> (x in Live(t.k) <==> x in Live(v.k))
    ensures forall x: K.ThreadId :: x.pid == pid && x in v.regs ==> x in t.regs && t.regs[x] == v.regs[x]
  {
    hide Inv, Live, LockOf, HomeOf, ReadWord, Settled, Away, Ids, WordKept;
    forall x: K.ThreadId | x.pid == pid
      ensures x in Live(t.k) <==> x in Live(v.k)
      ensures x in v.regs ==> x in t.regs && t.regs[x] == v.regs[x]
    {
      assert In(Process(pid), x);
    }
  }

  lemma {:induction false} MembersHaveRegs(st: Setting, v: Threads, writes: nat, steps: nat)
    requires Fine(st, v, writes, steps)
    ensures forall x :: In(Members(st), x) && x in Live(v.k) ==> x in v.regs
  {
    hide Live, Inv, AtLine, Placed, ReadWord, LockOf, HomeOf, Tally, In, Settled, Away;
  }

  lemma {:induction false} ParentFrame(f: Family, b: Bounds, v: Threads, t: Threads, writes: nat, steps: nat)
    requires Grown(f, b, v, writes, steps) && Frame(Process(f.pid), v, t) && Counts(f.pid, v.k, t.k)
    ensures ParentOk(f, b, t)
  {
    hide Inv, Live, Fine, Tally, Finished, Members, Frame, AtLaterLines;
    var st := SettingOf(f, b);
    ProcessFacts(f.pid, v, t);
    MembersHaveRegs(st, v, writes, steps);
    NarrowFrame(st, v, t);
    FrameTally(Heads, st, v, t);
    LiveIsActive(t.k, Parent(f));
    forall i | 1 <= i <= f.k ensures JoinHolds(f, t.k, t.regs[Parent(f)].pc, i) {
      assert JoinHolds(f, v.k, v.regs[Parent(f)].pc, i);
      assert K.ThreadId(f.pid, i).pid == f.pid;
    }
  }

  lemma {:induction false} WaitsFrame(f: Family, v: Threads, t: Threads)
    requires ParentWaits(f, v) && Parent(f) in v.regs && Frame(Process(f.pid), v, t) && Counts(f.pid, v.k, t.k)
    ensures ParentWaits(f, t)
  {
    hide Inv, Live, Ids, LockOf, HomeOf, ReadWord, Settled, Away;
    assert In(Process(f.pid), Parent(f));
  }

  /** Nobody is blocked while running. */
  lemma {:induction false} RunningNotBlocked(k: K.State)
    requires Inv(k) && k.running.Some?
    ensures k.running.value.id !in Ids(k.blocked)
  {
    hide Counted, PendingOk, JoinsOk, MutexesOk, KernelInvariant.Waiting;
    var x := k.running.value.id;
    assert Live(k)[x] <= 1;
    assert multiset(RunningIds(k))[x] == 1;
    assert multiset(Ids(k.blocked))[x] == 0;
  }

  lemma {:induction false} GrownFrame(f: Family, b: Bounds, v: Threads, t: Threads, writes: nat, steps: nat)
    requires Grown(f, b, v, writes, steps) && Frame(Process(f.pid), v, t) && Counts(f.pid, v.k, t.k)
    ensures Grown(f, b, t, writes, steps)
  {
    ParentFrame(f, b, v, t, writes, steps);
    assert Parent(f) in v.regs by { hide Live, Tally, Finished; }
    WaitsFrame(f, v, t);
    hide Fine, ParentOk, Frame, ParentWaits;
    NarrowFrame(SettingOf(f, b), v, t);
    FineFrame(SettingOf(f, b), v, t, writes, steps);
  }

  lemma {:induction false} OverFrame(f: Family, v: Threads, t: Threads)
    requires Over(f, v) && Frame(Process(f.pid), v, t)
    ensures Over(f, t)
  {
    hide Inv, Live, Ids, LockOf, HomeOf, ReadWord, Settled, Away;
  }

  // Admission of the process

  lemma {:induction false} UnbornStep(f: Family, k: K.State, step: K.Step)
    requires Inv(k) && K.Enabled(k, step) && f.pid !in k.active && LockOf(k).None?
    requires forall x :: x in Population(k) ==> x.pid != f.pid
    requires k.running.Some? ==> Quiet(k, k.running.value.id.tid, step)
    requires forall x :: x in Created(k, step) ==> x.pid != f.pid
    ensures var t := K.Apply(k, step);
      && Inv(t) && f.pid !in t.active && LockOf(t).None?
      && forall x :: x in Population(t) ==> x.pid != f.pid
  {
    hide Inv, K.Enabled, K.Apply, LockOf, Population, Quiet, Created;
    StepKeeps(k, step);
    LockFrame(k, step);
    ActiveAfter(k, step);
    AdmissionCreates(k, step);
  }

  lemma AdmissionCreates(k: K.State, step: K.Step)
    requires K.Enabled(k, step)
    ensures step.AdmitHead? ==> K.ThreadId(k.pending[0].pid, 0) in Created(k, step)
  {
  }

  /** The admission loop leaves the process waiting or admits it, with a fresh parent. */
  lemma {:induction false} AdmitUnborn(f: Family, v: Threads)
    requires Unborn(f, v) && Settled(v.m)
    ensures Unborn(f, AdmitThreads(v)) || Young(f, AdmitThreads(v))
    decreases |v.k.pending|
  {
    hide Unborn, Young, Settled, K.DoAdmitHead, M.TryCreate;
    assert Inv(v.k) by { UnbornInv(f, v); }
    hide Inv;
    var t := AttemptThreads(v).1;
    if AttemptThreads(v).0 {
      AdmittedUnborn(f, v);
      hide AttemptThreads;
      if Unborn(f, t) {
        AdmitUnborn(f, t);
      } else {
        assert Inv(t.k) && Away(f.pid, t.k) by { YoungInv(f, t); }
        hide Frame, Counts;
        AdmitFrame(Process(f.pid), t);
        YoungFrame(f, t, AdmitThreads(t));
      }
    } else {
      NotAdmitted(v);
    }
  }

  lemma UnbornInv(f: Family, v: Threads)
    requires Unborn(f, v)
    ensures Inv(v.k)
  {
  }

  lemma YoungInv(f: Family, v: Threads)
    requires Young(f, v)
    ensures Inv(v.k) && Away(f.pid, v.k)
  {
  }

  lemma {:induction false} AdmittedUnborn(f: Family, v: Threads)
    requires Unborn(f, v) && Settled(v.m) && AttemptThreads(v).0
    ensures var t := AttemptThreads(v).1;
      |t.k.pending| < |v.k.pending| && Settled(t.m) && (Unborn(f, t) || Young(f, t))
  {
    hide Inv, K.DoAdmitHead, M.TryCreate, M.Lookup, Settled, LockOf, Population, Live;
    var head := v.k.pending[0];
    var t := AttemptThreads(v).1;
    assert K.Enabled(v.k, K.AdmitHead) && K.Apply(v.k, K.AdmitHead) == K.DoAdmitHead(v.k);
    assert |t.k.pending| < |v.k.pending| by { AdmitShortens(v.k); }
    assert M.After(v.m, M.Create(head.pid, head.size)) == t.m;
    EventOnOther(v.m, M.Create(head.pid, head.size), head.pid + 1);
    if head.pid == f.pid {
      Arrives(f, v.k);
    } else {
      assert Created(v.k, K.AdmitHead) == multiset{K.ThreadId(head.pid, 0)};
      hide K.Apply, K.Enabled, Created;
      UnbornStep(f, v.k, K.AdmitHead);
    }
  }

  lemma AdmitShortens(k: K.State)
    requires k.pending != [] && k.firstThreads != []
    ensures |K.DoAdmitHead(k).pending| < |k.pending|
  {
  }

  /** The parent arrives alone. */
  lemma {:induction false} Arrives(f: Family, k: K.State)
    requires Inv(k) && f.pid !in k.active && LockOf(k).None? && k.pending != [] && k.firstThreads != []
    requires forall x :: x in Population(k) ==> x.pid != f.pid
    requires k.pending[0].pid == f.pid
    ensures var t := K.DoAdmitHead(k);
      && Inv(t) && Away(f.pid, t) && LockOf(t).None?
      && f.pid in t.active && t.active[f.pid] == 1
      && Parent(f) in Live(t) && (forall x :: x in Live(t) && x.pid == f.pid ==> x == Parent(f))
      && (forall i :: 0 <= i < |t.exited| ==> t.exited[i].id.pid != f.pid)
  {
    AdmitHeadKeeps(k);
    assert Away(f.pid, K.DoAdmitHead(k)) by { ArrivesAway(k); }
    hide Inv, Live, Ids, Away;
    forall i | 0 <= i < |k.exited| ensures k.exited[i].id.pid != f.pid {
      assert Ids(k.exited)[i] in multiset(Ids(k.exited));
      assert k.exited[i].id in Population(k);
    }
    forall x | x in Live(k) ensures x.pid != f.pid {
      assert x in Population(k);
    }
  }

  lemma ArrivesAway(k: K.State)
    requires Inv(k) && k.pending != []
    ensures Away(k.pending[0].pid, K.DoAdmitHead(k))
  {
    hide Core, Counted;
    var t := K.DoAdmitHead(k);
    forall i | 0 <= i < |t.pending| ensures t.pending[i].pid != k.pending[0].pid {
      assert t.pending[i] == k.pending[i + 1];
    }
  }

  /** Somebody else's call while the process waits. */
  lemma {:induction false} UnbornServe(f: Family, v: Threads, call: K.Step)
    requires Unborn(f, v) && Settled(v.m) && v.k.running.Some? && K.Enabled(v.k, call)
    requires Quiet(v.k, v.k.running.value.id.tid, call) && (IsSyscall(call) || call.SegmentationFault?)
    ensures var t := ServeThreads(v, call).value; Unborn(f, t) || Young(f, t)
  {
    hide Inv, Live, K.Enabled, K.Apply, LockOf, Settled, AdmitThreads, M.Delete, Quiet;
    var x := v.k.running.value.id;
    RunningIsLive(v.k);
    assert x in Population(v.k);
    hide Population;
    BornInOwnProcess(v.k, call);
    UnbornStep(f, v.k, call);
    var t := v.(k := K.Apply(v.k, call));
    if call.CreateProcess? {
      AdmitUnborn(f, t);
    } else if call.ExitProcess? {
      EventOnOther(v.m, M.Destroy(x.pid), x.pid + 1);
      AdmitUnborn(f, t.(m := M.Delete(v.m, x.pid)));
    }
  }

  lemma BornInOwnProcess(k: K.State, call: K.Step)
    requires k.running.Some? && K.Enabled(k, call) && (IsSyscall(call) || call.SegmentationFault?)
    ensures forall x :: x in Created(k, call) ==> x.pid == k.running.value.id.pid
  {
  }

  /** Any action while the process waits for admission. */
  lemma {:induction false} UnbornKeeps(program: Scripts, f: Family, v: Threads, a: Action, c: Context)
    requires Unborn(f, v) && Settled(v.m) && ActThreads(program, v, a).Some?
    requires PoliteAt(program, Process(f.pid), v.k, HomeOf(v.m, f.pid), c, a)
    requires a.Execute? ==> c == Own(v, v.k.running.value.id)
    ensures var t := ActThreads(program, v, a).value; Unborn(f, t) || Young(f, t)
  {
    if a.Execute? {
      UnbornExecutes(program, f, v, c);
    } else {
      UnbornMoves(program, f, v, a);
    }
  }

  lemma {:induction false} UnbornMoves(program: Scripts, f: Family, v: Threads, a: Action)
    requires Unborn(f, v) && ActThreads(program, v, a).Some? && !a.Execute?
    ensures Unborn(f, ActThreads(program, v, a).value)
  {
    hide Inv, LockOf, Population, K.DoPreempt, K.DoDispatch, K.DoCompleteIo, K.DoCompleteDump;
    var step := match a
      case Interrupt => K.Preempt
      case Schedule(policy) => K.Dispatch(policy)
      case IoDone => K.CompleteIo
      case DumpDone(i) => K.CompleteDump(i);
    assert K.Enabled(v.k, step) && Created(v.k, step) == multiset{};
    assert ActThreads(program, v, a).value == v.(k := K.Apply(v.k, step));
    assert v.k.running.Some? ==> Quiet(v.k, v.k.running.value.id.tid, step);
    hide K.Apply, K.Enabled, Quiet, Created, ActThreads;
    UnbornStep(f, v.k, step);
  }

  lemma {:induction false} UnbornExecutes(program: Scripts, f: Family, v: Threads, c: Context)
    requires Unborn(f, v) && Settled(v.m) && ActThreads(program, v, Execute).Some?
    requires PoliteAt(program, Process(f.pid), v.k, HomeOf(v.m, f.pid), c, Execute)
    requires v.k.running.Some? && v.k.running.value.id in v.regs && M.Lookup(v.m.procs, v.k.running.value.id.pid).Some?
    requires c == Own(v, v.k.running.value.id)
    ensures var t := ActThreads(program, v, Execute).value; Unborn(f, t) || Young(f, t)
  {
    hide Inv, Live, K.Enabled, LockOf, Settled, HomeOf, Cycle, M.Lookup, IsSyscall, ServeThreads, Quiet, Spares,
      Young, Translate, Get,
      WriteWord;
    var x := v.k.running.value.id;
    assert x.pid != f.pid by {
      RunningIsLive(v.k);
      assert x in Population(v.k);
    }
    hide Population;
    var o := Cycle(program(x), c, v.bytes);
    CycleWrites(program(x), c, v.bytes);
    CycleKeepsSize(program(x), c, v.bytes);
    if !o.Next? {
      var r := v.(regs := v.regs[x := o.context.regs], bytes := o.mem);
      var call := if o.Trap? then o.call else K.SegmentationFault;
      SparedIsQuiet(v.k, HomeOf(v.m, f.pid), x.tid, c, program(x)[c.regs.pc], o);
      assert ActThreads(program, v, Execute) == ServeThreads(r, call);
      assert K.Enabled(r.k, call) by {
        if !K.Enabled(r.k, call) {
          NotServed(r, call);
          assert false;
        }
      }
      UnbornServe(f, r, call);
    }
  }

  lemma CycleKeepsSize(script: seq<Instr>, c: Context, bytes: seq<byte>)
    ensures var o := Cycle(script, c, bytes); !o.Undefined? ==> |o.mem| == |bytes|
  {
  }
}
