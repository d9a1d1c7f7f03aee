/** The shipped mutex workload from start-up: the parent, once its joins are over, reads exactly
    threads times loop count, whatever other well-behaved processes do and however they are
    interleaved. */
module MutexParent {
  import opened Lists
  import opened Words
  import opened Cpu
  import opened Contexts
  import opened KernelInvariant
  import opened KernelRuns
  import opened BareMemory
  import opened WholeSystem
  import opened MutexScript
  import opened MutexFrame
  import opened MutexTeam
  import opened MutexProgram
  import opened MutexFamily
  import K = KernelState
  import M = Memory
  import P = Partitions

  /** What agreement with the system says about the process's place. */
  ghost predicate Located(f: Family, v: Threads) {
    && Settled(v.m)
    && (HomeOf(v.m, f.pid).Some? <==> f.pid in v.k.active)
    && (HomeOf(v.m, f.pid).Some? ==> HomeOf(v.m, f.pid).value.base <= P.INT_MAX)
  }

  lemma {:induction false} HomeLow(m: M.State, sizes: seq<nat>, pid: nat)
    requires Sound(m, sizes) && HomeOf(m, pid).Some?
    ensures HomeOf(m, pid).value.base <= P.INT_MAX
  {
    hide Sound, M.FindProc;
    BoundsLow(m, sizes, pid);
  }

  lemma AgreeSound(s: System, v: Threads, sizes: seq<nat>)
    requires Agree(s, v, sizes)
    ensures Sound(s.m, sizes)
  {
  }

  lemma {:induction false} AgreeingPlaced(f: Family, s: System, v: Threads, sizes: seq<nat>)
    requires Agree(s, v, sizes)
    ensures Located(f, v)
  {
    hide Agree, Sound, HomeOf, Settled;
    HomeIsActive(s, v, sizes, f.pid);
    SameHome(s, v, sizes, f.pid);
    AgreeSound(s, v, sizes);
    if HomeOf(s.m, f.pid).Some? {
      HomeLow(s.m, sizes, f.pid);
    }
  }

  // Threads of other processes

  /** A polite instruction of another process leaves the whole process alone. */
  lemma {:induction false} OthersFrame(program: Scripts, pid: nat, v: Threads, c: Context)
    requires Inv(v.k) && Away(pid, v.k) && Settled(v.m)
    requires v.k.running.Some? && v.k.running.value.id.pid != pid && ActThreads(program, v, Execute).Some?
    requires v.k.running.value.id in v.regs && M.Lookup(v.m.procs, v.k.running.value.id.pid).Some?
    requires c == Own(v, v.k.running.value.id) && PoliteAt(program, Process(pid), v.k, HomeOf(v.m, pid), c, Execute)
    ensures var t := ActThreads(program, v, Execute).value;
      Frame(Process(pid), v, t) && Counts(pid, v.k, t.k)
  {
    hide Inv, Settled, Frame, Counts, Cycle, K.Enabled, Own, ActThreads, PoliteAt, M.Lookup;
    var o := Cycle(program(v.k.running.value.id), c, v.bytes);
    if o.Trap? && o.call.CreateThread? && K.Enabled(v.k, o.call) {
      CreationIsSyscall(o.call);
      BornInOwnProcess(v.k, o.call);
    }
    ExecuteFrame(program, Process(pid), v);
  }

  lemma {:induction false} MovesFrame(program: Scripts, pid: nat, v: Threads, a: Action)
    requires Inv(v.k) && Away(pid, v.k) && Settled(v.m) && !a.Execute? && ActThreads(program, v, a).Some?
    ensures var t := ActThreads(program, v, a).value;
      Frame(Process(pid), v, t) && Counts(pid, v.k, t.k)
  {
    KernelOwnFrame(program, Process(pid), v, a);
  }

  // The parent alone

  lemma ParentCycle(f: Family, c: Context, bytes: seq<byte>)
    requires c.regs.pc < 8 + 2 * f.k
    ensures Cycle(ParentScript(f), c, bytes) == Exec(ParentLine(f, c.regs.pc), Fetched(c), bytes)
  {
    hide ParentScript, ParentLine, Exec;
    ParentLines(f, c.regs.pc);
  }

  lemma {:induction false} YoungRegs(f: Family, v: Threads, r: Registers, bytes: seq<byte>)
    requires Young(f, v) && AtFirstLines(r) && |bytes| == |v.bytes|
    requires r.pc >= 3 ==> Zeroed(HomeOf(v.m, f.pid), bytes)
    ensures Young(f, v.(regs := v.regs[Parent(f) := r], bytes := bytes))
  {
    hide Inv, Live, LockOf, HomeOf, ReadWord, Away;
  }

  lemma {:induction false} AloneIsLast(f: Family, k: K.State)
    requires k.running.Some? && k.running.value.id == Parent(f) && f.pid in k.active && k.active[f.pid] == 1
    ensures K.LastThread(k)
  {
  }

  /** A segmentation fault, or the end, of a process with one thread. */
  lemma {:induction false} EndsProcess(f: Family, v: Threads, call: K.Step)
    requires Inv(v.k) && Away(f.pid, v.k) && Settled(v.m)
    requires v.k.running.Some? && v.k.running.value.id == Parent(f) && K.Enabled(v.k, call)
    requires call.ExitProcess? || call.SegmentationFault?
    ensures ServeThreads(v, call).Some? && Over(f, ServeThreads(v, call).value)
  {
    hide Inv, K.Enabled, K.Apply, Settled, AdmitThreads, M.Delete, Away;
    LiveAfter(v.k, call);
    ActiveAfter(v.k, call);
    StaysAway(f.pid, v.k, call);
    if call.ExitProcess? {
      var t := v.(k := K.Apply(v.k, call), m := M.Delete(v.m, f.pid));
      EventOnOther(v.m, M.Destroy(f.pid), f.pid + 1);
      AdmitFrame(Process(f.pid), t);
      OverFrame(f, t, AdmitThreads(t));
    }
  }

  /** WRITE_MEM of the parent's third line: the word is zero, or the process ends. */
  lemma {:induction false} WritesZero(f: Family, v: Threads, c: Context)
    requires Young(f, v) && Located(f, v) && v.regs[Parent(f)].pc == 2
    requires M.Lookup(v.m.procs, f.pid).Some? && c == Own(v, Parent(f))
    ensures var o := Exec(WriteMem(AX, DX), Fetched(c), v.bytes);
      && !o.Trap?
      && (o.Next? ==> o.context.regs == v.regs[Parent(f)].(pc := 3)
                      && |o.mem| == |v.bytes| && Zeroed(HomeOf(v.m, f.pid), o.mem))
      && (o.SegFault? ==> o.mem == v.bytes)
      && (Fits(HomeOf(v.m, f.pid).value, v.bytes) ==> o.Next?)
  {
    hide Inv, Live, LockOf, Away, WriteWord, ReadWord, M.Lookup, Settled;
    var b := HomeOf(v.m, f.pid).value;
    if OFFSET < b.limite && b.base + OFFSET + 4 <= |v.bytes| {
      ReadAfterWrite(v.bytes, b.base + OFFSET, 0);
    }
  }

  /** PROCESS_CREATE by the parent: somebody else may be admitted, nothing of its own changes. */
  lemma {:induction false} CreatesProcess(f: Family, v: Threads, size: nat, priority: nat)
    requires Young(f, v) && Settled(v.m) && v.k.running.Some?
    ensures var t := ServeThreads(v, K.CreateProcess(size, priority));
      && t.Some? && Young(f, t.value)
      && HomeOf(t.value.m, f.pid) == HomeOf(v.m, f.pid) && |t.value.bytes| == |v.bytes|
  {
    hide Inv, Live, LockOf, HomeOf, ReadWord, Settled, Away, AdmitThreads, Young, Frame, Counts;
    var call := K.CreateProcess(size, priority);
    YoungInv(f, v);
    assert K.Enabled(v.k, call) && Created(v.k, call) == multiset{};
    var t := v.(k := K.Apply(v.k, call));
    hide K.Enabled, K.Apply, Created;
    StepAlone(Process(f.pid), v, call);
    StepCounts(f.pid, v.k, call);
    FrameParts(Process(f.pid), v, t);
    AdmitFrame(Process(f.pid), t);
    YoungFrame(f, v, t);
    YoungFrame(f, t, AdmitThreads(t));
    SameHomeSize(f, v, t);
    SameHomeSize(f, t, AdmitThreads(t));
  }

  lemma SameHomeSize(f: Family, v: Threads, t: Threads)
    requires Frame(Process(f.pid), v, t) && Young(f, t)
    ensures HomeOf(t.m, f.pid) == HomeOf(v.m, f.pid) && |t.bytes| == |v.bytes|
  {
    hide Inv, Live, LockOf, HomeOf, ReadWord, Settled, Away, KernelFrame;
  }

  lemma {:induction false} NamedAppend(mutexes: seq<K.Mutex>, m: K.Mutex)
    requires Named(mutexes).None? && m.name == MUTEX
    ensures Named(mutexes + [m]) == Some(m)
  {
    var i := K.FindMutex(mutexes + [m], MUTEX);
    assert (mutexes + [m])[|mutexes|] == m;
    assert forall j :: 0 <= j < |mutexes| ==> (mutexes + [m])[j] == mutexes[j];
  }

  lemma {:induction false} MutexCreated(k: K.State)
    requires Inv(k) && k.running.Some? && LockOf(k).None?
    ensures var m := K.Mutex(MUTEX, k.running.value.id.pid, false, -1, [], 0);
      var t := K.DoCreateMutex(k, MUTEX);
      t == k.(mutexes := k.mutexes + [m]) && Inv(t) && LockOf(t) == Some(m) && Live(t) == Live(k)
  {
    hide Inv, Live, K.FindMutex;
    NamedAppend(k.mutexes, K.Mutex(MUTEX, k.running.value.id.pid, false, -1, [], 0));
    CreateMutexKeeps(k, MUTEX);
  }

  lemma {:induction false} NotExited(k: K.State, x: K.ThreadId)
    requires forall i :: 0 <= i < |k.exited| ==> k.exited[i].id.pid != x.pid
    ensures x !in multiset(Ids(k.exited))
  {
    assert x !in Ids(k.exited);
  }

  lemma {:induction false} NoMembersYet(f: Family, b: Bounds, k: K.State)
    requires (forall x :: x in Live(k) && x.pid == f.pid ==> x == Parent(f))
    requires forall i :: 0 <= i < |k.exited| ==> k.exited[i].id.pid != f.pid
    ensures forall x :: In(Members(SettingOf(f, b)), x) ==> x !in Population(k)
  {
    hide Live, Ids;
    forall x | In(Members(SettingOf(f, b)), x) ensures x !in Population(k) {
      NotExited(k, x);
    }
  }

  /** The mutex is new and nobody of the team exists. */
  ghost predicate Opened(f: Family, b: Bounds, v: Threads) {
    && Inv(v.k) && Away(f.pid, v.k) && Settled(v.m) && f.c >= 1
    && LockOf(v.k) == Some(K.Mutex(MUTEX, f.pid, false, -1, [], 0))
    && HomeOf(v.m, f.pid) == Some(b) && Zeroed(Some(b), v.bytes)
    && forall x :: In(Members(SettingOf(f, b)), x) ==> x !in Population(v.k)
  }

  lemma {:induction false} OpenedFine(f: Family, b: Bounds, v: Threads)
    requires Opened(f, b, v)
    ensures Fine(SettingOf(f, b), v, 0, 0)
  {
    hide Inv, Live, LockOf, HomeOf, ReadWord, Settled, Ids, Tally, Finished, Population, Away;
    var st := SettingOf(f, b);
    NobodyTallied(Writes, st, v.k, v.regs);
    NobodyTallied(Instructions, st, v.k, v.regs);
    forall x | In(Members(st), x) ensures x !in Ids(v.k.blocked) {
      if x in Ids(v.k.blocked) {
        BlockedIsLive(v.k, x);
        assert false;
      }
    }
  }

  lemma {:induction false} OpenedParent(f: Family, b: Bounds, v: Threads)
    requires Opened(f, b, v) && Parent(f) in Live(v.k) && Parent(f) in v.regs
    requires v.regs[Parent(f)].pc == 5 && v.regs[Parent(f)].ax == OFFSET && Fetchable(f)
    requires f.pid in v.k.active && v.k.active[f.pid] == 1
    requires forall x :: x in Live(v.k) && x.pid == f.pid ==> x == Parent(f)
    ensures ParentOk(f, b, v)
  {
    hide Inv, Live, LockOf, HomeOf, ReadWord, Settled, Tally, Finished, Population, Away, Members;
    NobodyTallied(Heads, SettingOf(f, b), v.k, v.regs);
  }

  /** MUTEX_CREATE by the parent: from here on the team's invariant holds, with nobody in the team. */
  lemma {:induction false} CreatesMutex(f: Family, v: Threads)
    requires Young(f, v) && Located(f, v) && v.regs[Parent(f)].pc == 4 && f.c >= 1 && Fetchable(f)
    requires v.k.running.Some? && v.k.running.value.id == Parent(f)
    ensures var r := v.regs[Parent(f)].(pc := 5);
      Grown(f, HomeOf(v.m, f.pid).value, v.(k := K.DoCreateMutex(v.k, MUTEX), regs := v.regs[Parent(f) := r]), 0, 0)
  {
    hide Inv, Live, LockOf, HomeOf, ReadWord, Settled, K.DoCreateMutex, Population, Fine, ParentOk;
    var b := HomeOf(v.m, f.pid).value;
    var k := K.DoCreateMutex(v.k, MUTEX);
    MutexCreated(v.k);
    NoMembersYet(f, b, k);
    var t := v.(k := k, regs := v.regs[Parent(f) := v.regs[Parent(f)].(pc := 5)]);
    OpenedFine(f, b, t);
    OpenedParent(f, b, t);
    RunningNotBlocked(t.k);
  }

  /** The parent has moved on by one line and is still running. */
  ghost predicate Proceeds(f: Family, v: Threads, t: Threads) {
    && Parent(f) in v.regs && Parent(f) in t.regs && t.regs[Parent(f)].pc == v.regs[Parent(f)].pc + 1
    && t.k.running == v.k.running
    && HomeOf(t.m, f.pid) == HomeOf(v.m, f.pid) && |t.bytes| == |v.bytes|
    && (if v.regs[Parent(f)].pc == 4 then HomeOf(v.m, f.pid).Some? && Grown(f, HomeOf(v.m, f.pid).value, t, 0, 0)
        else Young(f, t))
  }

  lemma {:induction false} YoungSets(program: Scripts, f: Family, v: Threads, c: Context)
    requires Young(f, v) && program(Parent(f)) == ParentScript(f)
    requires v.k.running.Some? && v.k.running.value.id == Parent(f) && M.Lookup(v.m.procs, f.pid).Some?
    requires c == Own(v, Parent(f)) && v.regs[Parent(f)].pc <= 1
    ensures ActThreads(program, v, Execute).Some? && Proceeds(f, v, ActThreads(program, v, Execute).value)
  {
    hide Inv, Live, LockOf, HomeOf, ReadWord, Away, Grown, M.Lookup, ParentScript, Zeroed;
    var r := v.regs[Parent(f)];
    ParentCycle(f, c, v.bytes);
    YoungRegs(f, v, if r.pc == 0 then r.(pc := 1, dx := 0) else r.(pc := 2, ax := OFFSET), v.bytes);
  }

  lemma {:induction false} YoungWrites(program: Scripts, f: Family, v: Threads, c: Context)
    requires Young(f, v) && Located(f, v) && program(Parent(f)) == ParentScript(f)
    requires v.k.running.Some? && v.k.running.value.id == Parent(f) && M.Lookup(v.m.procs, f.pid).Some?
    requires c == Own(v, Parent(f)) && v.regs[Parent(f)].pc == 2
    ensures var t := ActThreads(program, v, Execute);
      t.Some? ==> Proceeds(f, v, t.value) || Over(f, t.value)
    ensures Fits(HomeOf(v.m, f.pid).value, v.bytes) ==>
      ActThreads(program, v, Execute).Some? && Proceeds(f, v, ActThreads(program, v, Execute).value)
  {
    hide Inv, Live, LockOf, HomeOf, ReadWord, Away, Grown, M.Lookup, ParentScript, Zeroed, Exec, Over, Young,
      ServeThreads, Settled;
    YoungShape(f, v);
    ParentCycle(f, c, v.bytes);
    WritesZero(f, v, c);
    var o := Exec(WriteMem(AX, DX), Fetched(c), v.bytes);
    if o.Next? {
      YoungRegs(f, v, o.context.regs, o.mem);
    } else if o.SegFault? {
      FaultsAlone(program, f, v, c);
    }
  }

  lemma YoungShape(f: Family, v: Threads)
    requires Young(f, v) && Located(f, v)
    ensures Parent(f) in v.regs && |v.bytes| <= P.INT_MAX && HomeOf(v.m, f.pid).Some? && AtFirstLines(v.regs[Parent(f)])
  {
    hide Inv, Live, LockOf, HomeOf, ReadWord, Away;
  }

  lemma {:induction false} YoungCreatesProcess(program: Scripts, f: Family, v: Threads, c: Context)
    requires Young(f, v) && Settled(v.m) && program(Parent(f)) == ParentScript(f)
    requires v.k.running.Some? && v.k.running.value.id == Parent(f) && M.Lookup(v.m.procs, f.pid).Some?
    requires c == Own(v, Parent(f)) && v.regs[Parent(f)].pc == 3
    ensures ActThreads(program, v, Execute).Some? && Proceeds(f, v, ActThreads(program, v, Execute).value)
  {
    hide Inv, Live, LockOf, HomeOf, ReadWord, Grown, M.Lookup, ParentScript, Zeroed, ServeThreads, Settled, ActThreads;
    var r := v.regs[Parent(f)];
    ParentCalls(program, f, v, c, K.CreateProcess(f.otherSize, f.otherPriority));
    var u := v.(regs := v.regs[Parent(f) := r.(pc := 4)]);
    YoungRegs(f, v, r.(pc := 4), v.bytes);
    CreatesProcess(f, u, f.otherSize, f.otherPriority);
    AdmissionKeepsRunning(u, f.otherSize, f.otherPriority);
  }

  lemma {:induction false} YoungCreatesMutex(program: Scripts, f: Family, v: Threads, c: Context)
    requires Young(f, v) && Located(f, v) && program(Parent(f)) == ParentScript(f) && f.c >= 1 && Fetchable(f)
    requires v.k.running.Some? && v.k.running.value.id == Parent(f) && M.Lookup(v.m.procs, f.pid).Some?
    requires c == Own(v, Parent(f)) && v.regs[Parent(f)].pc == 4
    ensures ActThreads(program, v, Execute).Some? && Proceeds(f, v, ActThreads(program, v, Execute).value)
    ensures ActThreads(program, v, Execute).value.k == K.DoCreateMutex(v.k, MUTEX)
  {
    hide Inv, Live, LockOf, HomeOf, ReadWord, Grown, M.Lookup, ParentScript, Zeroed, ServeThreads, Settled,
      ActThreads, K.DoCreateMutex,
      Away;
    var r := v.regs[Parent(f)];
    ParentCalls(program, f, v, c, K.CreateMutex(MUTEX));
    var u := v.(regs := v.regs[Parent(f) := r.(pc := 5)]);
    MutexServed(u);
    CreatesMutex(f, v);
    MutexCreated(v.k);
  }

  /** The parent's own instruction while it is alone. */
  lemma {:induction false} YoungParent(program: Scripts, f: Family, v: Threads, c: Context)
    requires Young(f, v) && Located(f, v) && RunFamily(program, f)
    requires v.k.running.Some? && v.k.running.value.id == Parent(f) && M.Lookup(v.m.procs, f.pid).Some?
    requires c == Own(v, Parent(f))
    ensures var t := ActThreads(program, v, Execute);
      t.Some? ==> Proceeds(f, v, t.value) || Over(f, t.value)
    ensures Fits(HomeOf(v.m, f.pid).value, v.bytes) ==>
      ActThreads(program, v, Execute).Some? && Proceeds(f, v, ActThreads(program, v, Execute).value)
  {
    hide Young, HomeOf, Settled, Over, M.Lookup, ParentScript, RunFamily, ActThreads, Own, Proceeds, Fits;
    FamilyParent(program, f);
    YoungShape(f, v);
    var pc := v.regs[Parent(f)].pc;
    if pc <= 1 {
      YoungSets(program, f, v, c);
    } else if pc == 2 {
      YoungWrites(program, f, v, c);
    } else if pc == 3 {
      YoungCreatesProcess(program, f, v, c);
    } else {
      YoungCreatesMutex(program, f, v, c);
    }
  }

  lemma FamilyParent(program: Scripts, f: Family)
    requires RunFamily(program, f)
    ensures program(Parent(f)) == ParentScript(f) && f.c >= 1 && Fetchable(f)
  {
  }

  lemma MutexServed(v: Threads)
    requires v.k.running.Some?
    ensures ServeThreads(v, K.CreateMutex(MUTEX)) == Some(v.(k := K.DoCreateMutex(v.k, MUTEX)))
  {
    hide K.DoCreateMutex;
  }

  lemma {:induction false} AdmissionKeepsRunning(v: Threads, size: nat, priority: nat)
    requires v.k.running.Some? && ServeThreads(v, K.CreateProcess(size, priority)).Some?
    ensures var t := ServeThreads(v, K.CreateProcess(size, priority)).value;
      t.k.running == v.k.running && forall x :: x in v.regs ==> x in t.regs
    ensures forall x ::
      x in v.regs && (forall i :: 0 <= i < |v.k.pending| ==> v.k.pending[i].pid != x.pid) && x.pid < v.k.nextPid ==>
      ServeThreads(v, K.CreateProcess(size, priority)).value.regs[x] == v.regs[x]
  {
    hide AdmitThreads;
    var t := v.(k := K.DoCreateProcess(v.k, size, priority));
    AdmitKeeps(t);
  }

  lemma {:induction false} AdmitKeeps(v: Threads)
    ensures var t := AdmitThreads(v);
      && t.k.running == v.k.running && (forall x :: x in v.regs ==> x in t.regs)
      && (forall x :: x in v.regs && (forall i :: 0 <= i < |v.k.pending| ==> v.k.pending[i].pid != x.pid) ==>
            t.regs[x] == v.regs[x])
    decreases |v.k.pending|
  {
    hide M.TryCreate;
    if AttemptThreads(v).0 {
      var t := AttemptThreads(v).1;
      assert t.k.pending == v.k.pending[1..];
      AdmitKeeps(t);
    }
  }

  /** A syscall line of the parent. */
  lemma {:induction false} ParentCalls(program: Scripts, f: Family, v: Threads, c: Context, call: K.Step)
    requires v.k.running.Some? && v.k.running.value.id == Parent(f) && Parent(f) in v.regs
    requires M.Lookup(v.m.procs, f.pid).Some?
    requires c == Own(v, Parent(f)) && c.regs.pc < 8 + 2 * f.k && program(Parent(f)) == ParentScript(f)
    requires ParentLine(f, c.regs.pc) == Syscall(call) && IsSyscall(call) && c.regs.pc < 0xFFFF_FFFF
    ensures ActThreads(program, v, Execute) ==
      ServeThreads(v.(regs := v.regs[Parent(f) := v.regs[Parent(f)].(pc := c.regs.pc + 1)]), call)
    ensures c.regs == v.regs[Parent(f)]
  {
    hide ServeThreads, M.Lookup, ParentScript, ParentLine;
    ParentCycle(f, c, v.bytes);
  }

  lemma {:induction false} FaultsAlone(program: Scripts, f: Family, v: Threads, c: Context)
    requires Young(f, v) && Located(f, v) && v.k.running.Some? && v.k.running.value.id == Parent(f)
    requires M.Lookup(v.m.procs, f.pid).Some? && c == Own(v, Parent(f))
    requires Cycle(program(Parent(f)), c, v.bytes).SegFault?
    ensures ActThreads(program, v, Execute).Some? && Over(f, ActThreads(program, v, Execute).value)
  {
    hide Inv, Live, LockOf, HomeOf, ReadWord, Settled, Away, Over, M.Lookup, Cycle, ServeThreads;
    var o := Cycle(program(Parent(f)), c, v.bytes);
    var u := v.(regs := v.regs[Parent(f) := o.context.regs], bytes := o.mem);
    AloneIsLast(f, v.k);
    assert K.Enabled(u.k, K.SegmentationFault);
    hide K.Enabled;
    EndsProcess(f, u, K.SegmentationFault);
  }

  /** Any action while the parent is alone. */
  lemma {:induction false} YoungKeeps(program: Scripts, f: Family, v: Threads, a: Action, c: Context)
    requires Young(f, v) && Located(f, v) && RunFamily(program, f) && ActThreads(program, v, a).Some?
    requires PoliteAt(program, Process(f.pid), v.k, HomeOf(v.m, f.pid), c, a)
    requires a.Execute? ==> c == Own(v, v.k.running.value.id)
    ensures Stage(f, ActThreads(program, v, a).value)
  {
    hide Young, ActThreads, HomeOf, PoliteAt, RunFamily, Inv, Settled, Frame, Counts, Own, Unborn, Over;
    YoungInv(f, v);
    if !a.Execute? {
      MovesFrame(program, f.pid, v, a);
      YoungFrame(f, v, ActThreads(program, v, a).value);
    } else {
      ExecuteNeedsRunning(program, v);
      if v.k.running.value.id.pid != f.pid {
        OthersFrame(program, f.pid, v, c);
        YoungFrame(f, v, ActThreads(program, v, a).value);
      } else {
        YoungRunsParent(f, v);
        YoungParent(program, f, v, c);
      }
    }
  }

  lemma YoungRunsParent(f: Family, v: Threads)
    requires Young(f, v) && v.k.running.Some? && v.k.running.value.id.pid == f.pid
    ensures v.k.running.value.id == Parent(f)
  {
    hide Inv, Live, LockOf, HomeOf, Away;
    RunningIsLive(v.k);
  }
}
