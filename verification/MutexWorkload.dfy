/** The shipped mutex workload in whole runs from start-up: what the parent reads, and that the
    team's theorems apply to it. */
module MutexWorkload {
  import opened Lists
  import opened Words
  import opened Cpu
  import opened Contexts
  import opened KernelInvariant
  import opened KernelRuns
  import opened BareMemory
  import opened DynamicMemory
  import opened WholeSystem
  import opened MutexScript
  import opened MutexFrame
  import opened MutexTeam
  import opened MutexProgram
  import opened MutexFamily
  import opened MutexParent
  import opened MutexChildren
  import K = KernelState
  import M = Memory
  import P = Partitions

  // Stages over runs

  lemma {:induction false} OverKeeps(program: Scripts, f: Family, v: Threads, a: Action, c: Context)
    requires Over(f, v) && Settled(v.m) && ActThreads(program, v, a).Some?
    requires PoliteAt(program, Process(f.pid), v.k, HomeOf(v.m, f.pid), c, a)
    requires a.Execute? ==> c == Own(v, v.k.running.value.id)
    ensures Over(f, ActThreads(program, v, a).value)
  {
    hide ActThreads, HomeOf, PoliteAt, Inv, Settled, Frame, Counts, Own, Away;
    if !a.Execute? {
      MovesFrame(program, f.pid, v, a);
    } else {
      ExecuteNeedsRunning(program, v);
      RunningActive(v.k);
      OthersFrame(program, f.pid, v, c);
    }
    hide Over;
    OverFrame(f, v, ActThreads(program, v, a).value);
  }

  lemma {:induction false} StageKeeps(program: Scripts, f: Family, v: Threads, a: Action, c: Context)
    requires Stage(f, v) && Located(f, v) && RunFamily(program, f) && ActThreads(program, v, a).Some?
    requires PoliteAt(program, Process(f.pid), v.k, HomeOf(v.m, f.pid), c, a)
    requires a.Execute? ==> c == Own(v, v.k.running.value.id)
    ensures Stage(f, ActThreads(program, v, a).value)
    ensures SomewhereGrown(f, v) ==> var t := ActThreads(program, v, a).value; SomewhereGrown(f, t) || Over(f, t)
    ensures Over(f, v) ==> Over(f, ActThreads(program, v, a).value)
  {
    hide ActThreads, HomeOf, PoliteAt, RunFamily, Unborn, Young, SomewhereGrown, Over, Own;
    if Over(f, v) {
      OverKeeps(program, f, v, a, c);
    }
    if SomewhereGrown(f, v) {
      GrownKeeps(program, f, v, a, c);
    }
    if Unborn(f, v) {
      UnbornKeeps(program, f, v, a, c);
    }
    if Young(f, v) {
      YoungKeeps(program, f, v, a, c);
    }
  }

  /** One action seen from the system. */
  lemma {:induction false} ActStage(program: Scripts, f: Family, s: System, v: Threads, sizes: seq<nat>, a: Action)
    requires Agree(s, v, sizes) && Stage(f, v) && RunFamily(program, f)
    requires Polite(program, Process(f.pid), s, a) && Act(program, s, a).Some?
    ensures ActThreads(program, v, a).Some? && Agree(Act(program, s, a).value, ActThreads(program, v, a).value, sizes)
    ensures Stage(f, ActThreads(program, v, a).value)
    ensures SomewhereGrown(f, v) ==> var t := ActThreads(program, v, a).value; SomewhereGrown(f, t) || Over(f, t)
    ensures Over(f, v) ==> Over(f, ActThreads(program, v, a).value)
  {
    hide Agree, Act, ActThreads, Stage, RunFamily, PoliteAt, Own, HomeOf, SomewhereGrown, Over, Located;
    ActAgrees(program, s, v, sizes, a);
    AgreeOnKernel(s, v, sizes);
    SameHome(s, v, sizes, f.pid);
    AgreeingPlaced(f, s, v, sizes);
    if a.Execute? {
      ExecuteNeedsRunning(program, v);
      SameCpu(s, v, sizes);
    }
    StageKeeps(program, f, v, a, s.cpu);
  }

  lemma {:induction false} RunStage(program: Scripts, f: Family, s: System, v: Threads, sizes: seq<nat>,
                                    actions: seq<Action>)
    returns (u: Threads)
    requires Agree(s, v, sizes) && Stage(f, v) && RunFamily(program, f)
    requires AllPolite(program, Process(f.pid), s, actions) && ActAll(program, s, actions).Some?
    ensures Agree(ActAll(program, s, actions).value, u, sizes) && Stage(f, u)
    decreases |actions|
  {
    hide Agree, Act, ActThreads, Stage, RunFamily, Polite;
    if actions == [] {
      u := v;
    } else {
      ActStage(program, f, s, v, sizes, actions[0]);
      var t, x := Act(program, s, actions[0]).value, ActThreads(program, v, actions[0]).value;
      u := RunStage(program, f, t, x, sizes, actions[1..]);
    }
  }

  lemma {:induction false} PowerStage(f: Family, start: Start, sizes: seq<nat>)
    requires Sensible(start, sizes)
    ensures Stage(f, PowerThreads(start))
  {
    hide Healthy, Unborn, Young, AdmitThreads, Strip, SomewhereGrown, Over;
    var v := Threads(K.DoCreateProcess(K.Boot, start.size, start.priority), Strip(start.m), map[], start.bytes);
    FirstUnborn(f, start, v);
    HealthySettled(start.m, sizes);
    StripSettled(start.m);
    AdmitUnborn(f, v);
  }

  lemma {:induction false} FirstUnborn(f: Family, start: Start, v: Threads)
    requires v == Threads(K.DoCreateProcess(K.Boot, start.size, start.priority), Strip(start.m), map[], start.bytes)
    requires |start.bytes| <= P.INT_MAX
    ensures Unborn(f, v)
  {
    hide Inv, Strip;
    BootOk();
    CreateProcessKeeps(K.Boot, start.size, start.priority);
    assert K.FindMutex([], MUTEX) == 0;
    assert Ids(v.k.exited) == [];
    assert Live(K.Boot) == multiset{};
  }

  /** A run from start-up in which every other process is polite. */
  ghost predicate WellBehaved(program: Scripts, f: Family, start: Start, sizes: seq<nat>, actions: seq<Action>) {
    && Sensible(start, sizes) && RunFamily(program, f)
    && ActAll(program, Power(start), actions).Some?
    && AllPolite(program, Process(f.pid), Power(start), actions)
  }

  lemma {:induction false} ReachedStage(program: Scripts, f: Family, start: Start, sizes: seq<nat>,
                                        actions: seq<Action>)
    returns (u: Threads)
    requires WellBehaved(program, f, start, sizes, actions)
    ensures Agree(ActAll(program, Power(start), actions).value, u, sizes) && Stage(f, u)
  {
    hide *;
    assert Sensible(start, sizes) && RunFamily(program, f) && ActAll(program, Power(start), actions).Some?
      && AllPolite(program, Process(f.pid), Power(start), actions) by
    {
      BehavedParts(program, f, start, sizes, actions);
    }
    PowerAgrees(start, sizes);
    PowerStage(f, start, sizes);
    u := RunStage(program, f, Power(start), PowerThreads(start), sizes, actions);
  }

  lemma {:induction false} BehavedParts(program: Scripts, f: Family, start: Start, sizes: seq<nat>,
                                        actions: seq<Action>)
    requires WellBehaved(program, f, start, sizes, actions)
    ensures Sensible(start, sizes) && RunFamily(program, f) && ActAll(program, Power(start), actions).Some?
    ensures AllPolite(program, Process(f.pid), Power(start), actions)
  {
    hide Sensible, RunFamily, ActAll, AllPolite, Power;
  }

  // What the parent reads

  /** How many of its children have exited. */
  function ChildrenDone(f: Family, k: K.State): nat {
    Finished(SettingOf(f, Bounds(0, 0)), k.exited)
  }

  lemma {:induction false} DoneIsFinished(f: Family, b: Bounds, exited: seq<K.Tcb>)
    ensures Finished(SettingOf(f, b), exited) == Finished(SettingOf(f, Bounds(0, 0)), exited)
  {
    if exited != [] {
      DoneIsFinished(f, b, exited[..|exited| - 1]);
    }
  }

  lemma {:induction false} LivingParent(f: Family, v: Threads)
    requires Stage(f, v) && Parent(f) in Live(v.k)
    ensures Young(f, v) || SomewhereGrown(f, v)
  {
    hide Young, SomewhereGrown, Live;
    if Unborn(f, v) {
      UnbornIsNotAlive(f, v);
    } else if Over(f, v) {
      hide Away;
      LiveIsActive(v.k, Parent(f));
    }
  }

  lemma UnbornIsNotAlive(f: Family, v: Threads)
    requires Unborn(f, v)
    ensures Parent(f) !in Live(v.k)
  {
    hide Inv, LockOf, Live;
    if Parent(f) in Live(v.k) {
      LivePopulates(v.k, Parent(f));
    }
  }

  lemma GrownParent(f: Family, b: Bounds, v: Threads, writes: nat, steps: nat)
    requires Grown(f, b, v, writes, steps)
    ensures ParentOk(f, b, v)
  {
    hide Fine, ParentOk;
  }

  lemma NotYoungAnymore(f: Family, v: Threads)
    requires Parent(f) in v.regs && v.regs[Parent(f)].pc >= 5
    ensures !Young(f, v)
  {
    hide Inv, LockOf, Live, Away, HomeOf;
  }

  lemma {:induction false} JoinsOver(f: Family, b: Bounds, v: Threads)
    requires ParentOk(f, b, v) && v.regs[Parent(f)].pc > 5 + 2 * f.k
    ensures v.regs[Parent(f)].dx == f.k * f.c % 0x1_0000_0000
    ensures ChildrenDone(f, v.k) == f.k
    ensures forall x :: x in Live(v.k) && x.pid == f.pid ==> x == Parent(f)
  {
    hide Live, Tally, Finished;
    var st := SettingOf(f, b);
    forall x: K.ThreadId | x.pid == f.pid && 1 <= x.tid <= f.k ensures x !in Live(v.k) {
      assert x == K.ThreadId(f.pid, x.tid);
      assert JoinHolds(f, v.k, v.regs[Parent(f)].pc, x.tid);
    }
    assert forall x :: In(Members(st), x) ==> x !in Live(v.k);
    NoHeads(st, v.k, v.regs);
    DoneIsFinished(f, b, v.k.exited);
  }

  lemma {:induction false} ParentRegisters(s: System, v: Threads, sizes: seq<nat>, x: K.ThreadId)
    requires Agree(s, v, sizes) && x in Live(s.k)
    ensures x in v.regs && ContextOf(s, x).Some? && ContextOf(s, x).value.regs == v.regs[x] && s.k == v.k
  {
    hide Inv, Live, Grounded, LoadOf, Strip;
    assert Seen(s.m, s.k, v.regs, s.cpu, x);
  }

  /** The shipped workload, for any number of threads, any loop count, any other processes that
      behave and any preemption: once the parent's joins are over and it has read the word, it holds
      threads times loop count modulo 2^32, all its children have exited, and it is alone. */
  lemma {:induction false} ParentReads(program: Scripts, f: Family, start: Start, sizes: seq<nat>, actions: seq<Action>)
    requires WellBehaved(program, f, start, sizes, actions)
    ensures var t := ActAll(program, Power(start), actions).value;
      Parent(f) in Live(t.k) ==>
        && ContextOf(t, Parent(f)).Some?
        && var r := ContextOf(t, Parent(f)).value.regs;
           r.pc > 5 + 2 * f.k ==>
             && r.dx == f.k * f.c % 0x1_0000_0000
             && ChildrenDone(f, t.k) == f.k
             && forall x :: x in Live(t.k) && x.pid == f.pid ==> x == Parent(f)
  {
    var t := ActAll(program, Power(start), actions).value;
    hide ActAll, Power, Agree, Live, Stage, ContextOf, ChildrenDone, WellBehaved, Young, Grown;
    var u := ReachedStage(program, f, start, sizes, actions);
    if Parent(f) in Live(t.k) {
      ParentRegisters(t, u, sizes, Parent(f));
      LivingParent(f, u);
      if ContextOf(t, Parent(f)).value.regs.pc > 5 + 2 * f.k {
        NotYoungAnymore(f, u);
        var b, writes, steps :| Grown(f, b, u, writes, steps);
        assert ParentOk(f, b, u) by { GrownParent(f, b, u, writes, steps); }
        hide ParentOk;
        JoinsOver(f, b, u);
      }
    }
  }

  // The team's theorems for the workload

  /** The parent has just created the mutex. */
  ghost predicate MutexReady(f: Family, s: System) {
    Parent(f) in Live(s.k) && ContextOf(s, Parent(f)).Some? && ContextOf(s, Parent(f)).value.regs.pc == 5
  }

  lemma {:induction false} FreeLock(k: K.State)
    requires Inv(k) && LockOf(k).Some? && !LockOf(k).value.taken
    ensures LockOf(k) == Some(K.Mutex(MUTEX, LockOf(k).value.pid, false, -1, [], 0))
  {
    hide Counted, PendingOk, JoinsOk, Live, AtMostOnce, KernelInvariant.Waiting;
    assert MutexOk(LockOf(k).value, Live(k));
  }

  lemma {:induction false} NoneCreated(f: Family, b: Bounds, v: Threads, writes: nat, steps: nat)
    requires Grown(f, b, v, writes, steps) && v.regs[Parent(f)].pc == 5
    ensures forall x :: In(Members(SettingOf(f, b)), x) ==> x !in Population(v.k)
    ensures writes == 0
  {
    var st := SettingOf(f, b);
    MembersHaveRegs(st, v, writes, steps);
    hide Live, Fine, Inv, AtLaterLines, JoinHolds;
    AllHeads(st, v.k, v.regs);
    hide Tally;
    NoneFinished(st, v.k.exited);
    Totals(st, v, writes, steps);
    forall x | In(Members(st), x) ensures x !in Population(v.k) {
    }
  }

  /** No heads means nobody alive. */
  lemma {:induction false} AllHeads(st: Setting, k: K.State, regs: RegisterFile)
    requires forall x :: In(Members(st), x) && x in Live(k) ==> x in regs
    ensures Tally(Heads, st, k, regs) >= 0
    ensures Tally(Heads, st, k, regs) == 0 ==> forall x :: In(Members(st), x) ==> x !in Live(k)
  {
    hide Live;
    HeadsDoNotStay(st, k.exited);
    SomeHead(st, Live(k), regs, st.tids);
    forall t | t in st.tids ensures In(Members(st), K.ThreadId(st.pid, t)) {
    }
  }

  lemma {:induction false} SomeHead(st: Setting, live: multiset<K.ThreadId>, regs: RegisterFile, tids: seq<nat>)
    ensures Total(Heads, live, regs, st, tids) >= 0
    ensures Total(Heads, live, regs, st, tids) == 0 ==>
      forall t :: t in tids && K.ThreadId(st.pid, t) in regs ==> K.ThreadId(st.pid, t) !in live
  {
    if tids != [] {
      SomeHead(st, live, regs, tids[1..]);
    }
  }

  lemma {:induction false} NoneFinished(st: Setting, exited: seq<K.Tcb>)
    ensures Finished(st, exited) == 0 ==> forall x :: In(Members(st), x) ==> x !in multiset(Ids(exited))
  {
    if Finished(st, exited) == 0 {
      forall i | 0 <= i < |exited| ensures !In(Members(st), exited[i].id) {
        OneFinished(st, exited, i);
      }
      forall x | In(Members(st), x) ensures x !in multiset(Ids(exited)) {
        assert x !in Ids(exited);
      }
    }
  }

  lemma {:induction false} OneFinished(st: Setting, exited: seq<K.Tcb>, i: nat)
    requires i < |exited| && Finished(st, exited) == 0
    ensures !In(Members(st), exited[i].id)
  {
    if i < |exited| - 1 {
      OneFinished(st, exited[..|exited| - 1], i);
    }
  }

  lemma {:induction false} ReadyBegins(program: Scripts, f: Family, s: System, v: Threads, sizes: seq<nat>)
    requires Agree(s, v, sizes) && Stage(f, v) && MutexReady(f, s) && RunFamily(program, f)
    ensures HomeOf(s.m, f.pid).Some? && SomewhereGrown(f, v)
    ensures Begins(program, SettingOf(f, HomeOf(s.m, f.pid).value), s)
  {
    hide Agree, Live, Stage, RunFamily, ContextOf, HomeOf, Young, Grown;
    ParentRegisters(s, v, sizes, Parent(f));
    LivingParent(f, v);
    NotYoungAnymore(f, v);
    var b, writes, steps :| Grown(f, b, v, writes, steps);
    SameHome(s, v, sizes, f.pid);
    AgreeOnKernel(s, v, sizes);
    GrownBegins(program, f, b, s, v, writes, steps);
  }

  lemma {:induction false} GrownBegins(program: Scripts, f: Family, b: Bounds, s: System, v: Threads, writes: nat,
                                       steps: nat)
    requires Grown(f, b, v, writes, steps) && v.regs[Parent(f)].pc == 5 && RunFamily(program, f)
    requires s.k == v.k && s.bytes == v.bytes && HomeOf(s.m, f.pid) == HomeOf(v.m, f.pid)
    ensures HomeOf(s.m, f.pid) == Some(b) && Begins(program, SettingOf(f, b), s)
  {
    var st := SettingOf(f, b);
    NoneCreated(f, b, v, writes, steps);
    FamilyRunsScript(program, f, b);
    hide Live, Inv, LockOf, HomeOf, ReadWord, Orderly, Tally, Queued, Settled, Away, RunScript, RunFamily, Population,
      Finished,
      JoinHolds, AtLaterLines;
    NobodyHolds(st, v.k);
    FreeLock(v.k);
  }

  lemma {:induction false} NobodyHolds(st: Setting, k: K.State)
    requires Inv(k) && LockOf(k).Some? && TeamOnly(st, LockOf(k).value)
    requires forall x :: In(Members(st), x) ==> x !in Population(k)
    ensures !LockOf(k).value.taken
  {
    hide Inv, Live, LockOf, Population, In, TeamOnly;
    var m := LockOf(k).value;
    LockFacts(k);
    if m.taken {
      var owner := K.ThreadId(m.pid, m.tid);
      LivePopulates(k, owner);
      TeamHolds(st, m);
    }
  }

  lemma LivePopulates(k: K.State, x: K.ThreadId)
    requires x in Live(k)
    ensures x in Population(k)
  {
    hide Live;
  }

  /** Politeness of the other processes is politeness of everybody outside the team. */
  lemma {:induction false} EverybodyPolite(program: Scripts, f: Family, b: Bounds, s: System, v: Threads,
                                           sizes: seq<nat>, a: Action)
    requires Agree(s, v, sizes) && (SomewhereGrown(f, v) || Over(f, v)) && RunFamily(program, f)
    requires Polite(program, Process(f.pid), s, a)
    ensures Polite(program, Members(SettingOf(f, b)), s, a)
  {
    hide Agree, HomeOf, RunFamily, Spares, SomewhereGrown, Over, ParentScript;
    var st := SettingOf(f, b);
    AgreeOnKernel(s, v, sizes);
    if a.Execute? && s.k.running.Some? && s.k.running.value.id.pid == f.pid && !In(Members(st), s.k.running.value.id) {
      SameCpu(s, v, sizes);
      SameHome(s, v, sizes, f.pid);
      OwnPolite(program, f, b, v);
    }
  }

  lemma {:induction false} OwnPolite(program: Scripts, f: Family, b: Bounds, v: Threads)
    requires (SomewhereGrown(f, v) || Over(f, v)) && RunFamily(program, f)
    requires v.k.running.Some? && v.k.running.value.id.pid == f.pid
    requires !In(Members(SettingOf(f, b)), v.k.running.value.id)
    requires v.k.running.value.id in v.regs && M.Lookup(v.m.procs, f.pid).Some?
    ensures PoliteAt(program, Members(SettingOf(f, b)), v.k, HomeOf(v.m, f.pid), Own(v, v.k.running.value.id), Execute)
  {
    hide HomeOf, RunFamily, PoliteAt, Grown, Own, M.Lookup, Inv, Away;
    if Over(f, v) {
      RunningActive(v.k);
      assert false;
    } else {
      var b', writes, steps :| Grown(f, b', v, writes, steps);
      assert v.k.running.value.id == Parent(f) by { GrownRunsParent(f, b', b, v, writes, steps); }
      FamilyParent(program, f);
      ParentPolite(program, f, b', v, writes, steps);
    }
  }

  lemma GrownRunsParent(f: Family, b: Bounds, b': Bounds, v: Threads, writes: nat, steps: nat)
    requires Grown(f, b, v, writes, steps) && v.k.running.Some? && v.k.running.value.id.pid == f.pid
    requires !In(Members(SettingOf(f, b')), v.k.running.value.id)
    ensures v.k.running.value.id == Parent(f)
  {
    hide Fine, ParentOk;
    GrownRuns(f, b, v);
  }

  lemma {:induction false} AllEverybodyPolite(program: Scripts, f: Family, b: Bounds, s: System, v: Threads,
                                              sizes: seq<nat>,
                                              actions: seq<Action>)
    requires Agree(s, v, sizes) && (SomewhereGrown(f, v) || Over(f, v)) && RunFamily(program, f)
    requires AllPolite(program, Process(f.pid), s, actions) && ActAll(program, s, actions).Some?
    ensures AllPolite(program, Members(SettingOf(f, b)), s, actions)
    decreases |actions|
  {
    hide Agree, Act, ActThreads, RunFamily, Polite, SomewhereGrown, Over, Members;
    if actions != [] {
      assert Stage(f, v);
      hide Stage;
      EverybodyPolite(program, f, b, s, v, sizes, actions[0]);
      ActStage(program, f, s, v, sizes, actions[0]);
      var t, u := Act(program, s, actions[0]).value, ActThreads(program, v, actions[0]).value;
      AllEverybodyPolite(program, f, b, t, u, sizes, actions[1..]);
    }
  }

  /** From the parent's MUTEX_CREATE on, in any run in which the other processes behave, the
      situation is the one the exclusion, counting and progress theorems are about. */
  lemma {:induction false} WorkloadTells(program: Scripts, f: Family, run: Course)
    requires WellBehaved(program, f, run.start, run.sizes, run.before)
    requires var s := ActAll(program, Power(run.start), run.before).value;
      && MutexReady(f, s)
      && ActAll(program, s, run.after).Some? && AllPolite(program, Process(f.pid), s, run.after)
    ensures var s := ActAll(program, Power(run.start), run.before).value;
      HomeOf(s.m, f.pid).Some? && Tells(program, SettingOf(f, HomeOf(s.m, f.pid).value), run)
  {
    var s := ActAll(program, Power(run.start), run.before).value;
    hide ActAll, Power, Agree, Stage, MutexReady, Begins, AllPolite, RunFamily, HomeOf, Sensible, SomewhereGrown, Over;
    var v := ReachedStage(program, f, run.start, run.sizes, run.before);
    ReadyBegins(program, f, s, v, run.sizes);
    AllEverybodyPolite(program, f, HomeOf(s.m, f.pid).value, s, v, run.sizes, run.after);
  }

  // Such runs exist

  /** A memory of one hole, in the dynamic scheme under FIRST. */
  function OneHole(tam: nat, size: nat, priority: nat, cpu: Context, bytes: seq<byte>): Start {
    Start(Empty("FIRST", tam), size, priority, cpu, bytes)
  }

  lemma {:induction false} OneHoleSensible(tam: nat, size: nat, priority: nat, cpu: Context, bytes: seq<byte>)
    requires 0 < tam <= P.INT_MAX && |bytes| <= P.INT_MAX
    ensures Sensible(OneHole(tam, size, priority, cpu, bytes), [])
  {
    EmptyOk("FIRST", tam);
    hide DynOk;
  }

  lemma {:induction false} FirstPlace(tam: nat, size: nat)
    requires size < tam <= P.INT_MAX
    ensures var m := M.TryCreate(Empty("FIRST", tam), 0, size);
      m.Some? && HomeOf(m.value, 0) == Some(Bounds(0, size))
  {
    hide P.Select, M.SortByBase, P.BuildFrom;
    FirstCreated(Empty("FIRST", tam), 0, size);
    var m := M.After(Empty("FIRST", tam), M.Create(0, size));
    assert m.procs != [];
    assert M.FindProc(m.procs, 0) == 0;
  }

  function FirstState(priority: nat): K.State {
    K.Boot.(ready := [K.Tcb(K.ThreadId(0, 0), priority)], semThreads := 1, active := map[0 := 1], nextPid := 1)
  }

  lemma {:induction false} OnlyOneWaits(v: Threads, size: nat, priority: nat)
    requires v.k == K.DoCreateProcess(K.Boot, size, priority) && v.regs == map[]
    requires M.TryCreate(v.m, 0, size).Some?
    ensures var t := AdmitThreads(v);
      && t.k == FirstState(priority)
      && t.regs == map[K.ThreadId(0, 0) := Fresh] && t.bytes == v.bytes
      && t.m == M.TryCreate(v.m, 0, size).value
  {
    hide M.TryCreate;
    var t := AttemptThreads(v).1;
    assert AttemptThreads(v).0 && t.k.pending == [];
    assert map[][0 := 1] == map[0 := 1];
    assert t.k == FirstState(priority);
    assert AdmitThreads(v) == AdmitThreads(t) == t;
  }

  /** The first process is admitted at the bottom of the memory, and its thread is the only one. */
  lemma {:induction false} FirstAdmitted(tam: nat, size: nat, priority: nat, cpu: Context, bytes: seq<byte>)
    requires size < tam <= P.INT_MAX
    ensures var v := PowerThreads(OneHole(tam, size, priority, cpu, bytes));
      && v.k == FirstState(priority)
      && v.regs == map[K.ThreadId(0, 0) := Fresh] && v.bytes == bytes
      && Some(v.m) == M.TryCreate(Empty("FIRST", tam), 0, size) && HomeOf(v.m, 0) == Some(Bounds(0, size))
  {
    hide M.TryCreate, AdmitThreads, HomeOf, K.DoCreateProcess, P.Build;
    var start := OneHole(tam, size, priority, cpu, bytes);
    assert BareProcs([]) == [];
    assert Strip(start.m) == start.m;
    FirstPlace(tam, size);
    OnlyOneWaits(Threads(K.DoCreateProcess(K.Boot, size, priority), start.m, map[], bytes), size, priority);
  }

  function Executes(n: nat): seq<Action> {
    if n == 0 then [] else [Execute] + Executes(n - 1)
  }

  /** The parent reaches its MUTEX_CREATE without being stopped. */
  lemma {:induction false} ParentReaches(program: Scripts, f: Family, s: System, v: Threads, sizes: seq<nat>, b: Bounds)
    requires Agree(s, v, sizes) && Young(f, v) && RunFamily(program, f)
    requires v.k.running.Some? && v.k.running.value.id == Parent(f)
    requires HomeOf(v.m, f.pid) == Some(b) && Fits(b, v.bytes)
    ensures var rest := Executes(5 - v.regs[Parent(f)].pc);
      && ActAll(program, s, rest).Some? && AllPolite(program, Process(f.pid), s, rest)
      && MutexReady(f, ActAll(program, s, rest).value)
    decreases 5 - v.regs[Parent(f)].pc
  {
    hide Agree, RunFamily, HomeOf, ParentScript, Live, Inv, Act, ActThreads, ContextOf, Young, LockOf;
    AgreeOnKernel(s, v, sizes);
    AgreeingPlaced(f, s, v, sizes);
    SameCpu(s, v, sizes);
    YoungShape(f, v);
    YoungParent(program, f, v, s.cpu);
    ActAgrees(program, s, v, sizes, Execute);
    var t, u := Act(program, s, Execute).value, ActThreads(program, v, Execute).value;
    var pc := v.regs[Parent(f)].pc;
    var rest := Executes(5 - pc);
    assert rest[0] == Execute && rest[1..] == Executes(4 - pc);
    assert Polite(program, Process(f.pid), s, Execute) by { OwnIsPolite(program, f, s, v, sizes); }
    hide Polite;
    if pc < 4 {
      ParentReaches(program, f, t, u, sizes, b);
    } else {
      assert ActAll(program, t, []) == Some(t);
      hide ParentOk, Fine;
      AgreeOnKernel(t, u, sizes);
      assert Parent(f) in Live(t.k) by { RunningIsLive(t.k); }
      ParentRegisters(t, u, sizes, Parent(f));
    }
  }

  lemma OwnIsPolite(program: Scripts, f: Family, s: System, v: Threads, sizes: seq<nat>)
    requires Agree(s, v, sizes) && v.k.running.Some? && v.k.running.value.id == Parent(f)
    ensures Polite(program, Process(f.pid), s, Execute)
  {
    hide Agree;
    AgreeOnKernel(s, v, sizes);
  }

  /** Runs that reach the parent's MUTEX_CREATE exist for every workload, whatever the other scripts. */
  lemma {:induction false} WorkloadStarts(program: Scripts, f: Family, tam: nat, size: nat, cpu: Context,
                                          bytes: seq<byte>)
    requires RunFamily(program, f) && f.pid == 0
    requires OFFSET < size < tam <= P.INT_MAX && OFFSET + 4 <= |bytes| <= P.INT_MAX
    ensures var start := OneHole(tam, size, 0, cpu, bytes); var actions := [Schedule(K.Fifo)] + Executes(5);
      WellBehaved(program, f, start, [], actions)
      && MutexReady(f, ActAll(program, Power(start), actions).value)
  {
    hide Sensible, RunFamily, Agree, Power, PowerThreads, Executes, HomeOf, Stage, Young, Act, MutexReady, AllPolite,
      ActAll;
    var start := OneHole(tam, size, 0, cpu, bytes);
    OneHoleSensible(tam, size, 0, cpu, bytes);
    PowerAgrees(start, []);
    FirstAdmitted(tam, size, 0, cpu, bytes);
    PowerStage(f, start, []);
    var s, v := Power(start), PowerThreads(start);
    FirstDispatched(program, f, s, v, [], Bounds(0, size));
    var t := Act(program, s, Schedule(K.Fifo)).value;
    var actions := [Schedule(K.Fifo)] + Executes(5);
    assert actions[0] == Schedule(K.Fifo) && actions[1..] == Executes(5);
    ActAllCons(program, f, s, t, actions);
  }

  lemma {:induction false} ActAllCons(program: Scripts, f: Family, s: System, t: System, actions: seq<Action>)
    requires actions != [] && !actions[0].Execute? && Act(program, s, actions[0]) == Some(t)
    ensures ActAll(program, s, actions) == ActAll(program, t, actions[1..])
    ensures AllPolite(program, Process(f.pid), t, actions[1..]) ==> AllPolite(program, Process(f.pid), s, actions)
  {
    hide Act;
  }

  /** The scheduler's first decision is the parent, and five instructions later the mutex is there. */
  lemma {:induction false} FirstDispatched(program: Scripts, f: Family, s: System, v: Threads, sizes: seq<nat>,
                                           b: Bounds)
    requires Agree(s, v, sizes) && Stage(f, v) && RunFamily(program, f)
    requires v.k.running == None && |v.k.ready| == 1 && v.k.ready[0].id == Parent(f) && v.k.semThreads == 1
    requires v.regs == map[Parent(f) := Fresh] && HomeOf(v.m, f.pid) == Some(b) && Fits(b, v.bytes)
    ensures Act(program, s, Schedule(K.Fifo)).Some?
    ensures var t := Act(program, s, Schedule(K.Fifo)).value;
      && ActAll(program, t, Executes(5)).Some? && AllPolite(program, Process(f.pid), t, Executes(5))
      && MutexReady(f, ActAll(program, t, Executes(5)).value)
  {
    hide Agree, RunFamily, HomeOf, Live, Inv, Act, MutexReady, AllPolite, ActAll, Stage, Executes, Frame, Counts,
      Young, SomewhereGrown;
    assert Parent(f) in Live(v.k) by { ReadyIsLive(v.k); }
    LivingParent(f, v);
    assert Young(f, v) by { FreshIsYoung(f, v); }
    ActAgrees(program, s, v, sizes, Schedule(K.Fifo));
    assert K.Enabled(v.k, K.Dispatch(K.Fifo));
    var u := v.(k := K.Apply(v.k, K.Dispatch(K.Fifo)));
    assert ActThreads(program, v, Schedule(K.Fifo)) == Some(u) && u.k.running == Some(v.k.ready[0]);
    AgreeingPlaced(f, s, v, sizes);
    YoungInv(f, v);
    hide ActThreads;
    MovesFrame(program, f.pid, v, Schedule(K.Fifo));
    YoungFrame(f, v, u);
    ParentReaches(program, f, Act(program, s, Schedule(K.Fifo)).value, u, sizes, b);
  }

  lemma ReadyIsLive(k: K.State)
    requires |k.ready| == 1
    ensures k.ready[0].id in Live(k)
  {
    assert Ids(k.ready)[0] in multiset(Ids(k.ready));
  }

  lemma GrownIsFurther(f: Family, v: Threads)
    requires SomewhereGrown(f, v)
    ensures Parent(f) in v.regs && v.regs[Parent(f)].pc >= 5
  {
    hide Inv, Live, LockOf, HomeOf, Fine, Tally, Finished, Away;
    var b, writes, steps :| Grown(f, b, v, writes, steps);
  }

  lemma FreshIsYoung(f: Family, v: Threads)
    requires Young(f, v) || SomewhereGrown(f, v)
    requires v.regs == map[Parent(f) := Fresh]
    ensures Young(f, v)
  {
    hide Young, SomewhereGrown;
    if SomewhereGrown(f, v) {
      GrownIsFurther(f, v);
    }
  }
}
