/** The shipped mutex workload gets done: it is never stuck, left to itself it finishes, and run from
    start-up it ends with the parent holding threads times loop count. */
module MutexProgress {
  import opened Lists
  import opened Words
  import opened Cpu
  import opened Contexts
  import opened KernelInvariant
  import opened WholeSystem
  import opened DynamicMemory
  import opened MutexScript
  import opened MutexFrame
  import opened MutexTeam
  import opened MutexProgram
  import opened MutexFamily
  import opened MutexParent
  import opened MutexChildren
  import opened MutexWorkload
  import opened MutexTurns
  import K = KernelState
  import M = Memory
  import P = Partitions

  // Never stuck

  lemma {:induction false} JoinTargetLive(k: K.State, j: K.Join)
    requires Inv(k) && j in k.joins
    ensures j.blocking in Live(k)
  {
    hide Counted, PendingOk, MutexesOk, AtMostOnce, Live, KernelInvariant.Waiting;
  }

  /** As long as the parent lives, when nobody runs somebody is ready. */
  lemma {:induction false} SomebodyReady(f: Family, b: Bounds, v: Threads, writes: nat, steps: nat)
    requires Grown(f, b, v, writes, steps) && v.k.running.None?
    ensures v.k.ready != []
  {
    hide Inv, Live, Fine, Tally, Finished, AtLaterLines, Ids;
    var st := SettingOf(f, b);
    FineBasics(st, v, writes, steps);
    if v.k.ready == [] {
      NobodyWaitsForNobody(st, v, writes, steps);
      OnlyBlocked(v.k, Parent(f));
      var child := K.ThreadId(f.pid, v.regs[Parent(f)].pc - 5 - f.k);
      assert In(Members(st), child);
      JoinTargetLive(v.k, K.Join(Parent(f), child));
      assert false;
    }
  }

  /** The parent lives and has created the mutex. */
  ghost predicate ParentBeyond(f: Family, s: System) {
    Parent(f) in Live(s.k) && ContextOf(s, Parent(f)).Some? && ContextOf(s, Parent(f)).value.regs.pc >= 5
  }

  /** Where a run stands once the parent has created the mutex. */
  lemma {:induction false} GrownThen(program: Scripts, f: Family, start: Start, sizes: seq<nat>, actions: seq<Action>)
    returns (u: Threads, b: Bounds, writes: nat, steps: nat)
    requires WellBehaved(program, f, start, sizes, actions)
    requires ParentBeyond(f, ActAll(program, Power(start), actions).value)
    ensures var t := ActAll(program, Power(start), actions).value;
      && Agree(t, u, sizes) && Grown(f, b, u, writes, steps) && t.k == u.k
      && ContextOf(t, Parent(f)).Some? && ContextOf(t, Parent(f)).value.regs == u.regs[Parent(f)]
  {
    var t := ActAll(program, Power(start), actions).value;
    hide ActAll, Power, Agree, Live, Stage, ContextOf, WellBehaved, Young, Grown;
    u := ReachedStage(program, f, start, sizes, actions);
    ParentRegisters(t, u, sizes, Parent(f));
    LivingParent(f, u);
    NotYoungAnymore(f, u);
    b, writes, steps :| Grown(f, b, u, writes, steps);
  }

  /** No deadlock in any run from start-up in which the other processes behave: while the parent
      lives, past its MUTEX_CREATE, somebody runs or is ready. */
  lemma {:induction false} WorkloadNeverStuck(program: Scripts, f: Family, start: Start, sizes: seq<nat>,
                                              actions: seq<Action>)
    requires WellBehaved(program, f, start, sizes, actions)
    ensures var t := ActAll(program, Power(start), actions).value;
      ParentBeyond(f, t) && t.k.running.None? ==> t.k.ready != []
  {
    var t := ActAll(program, Power(start), actions).value;
    hide ActAll, Power, Agree, WellBehaved, ParentBeyond, Grown;
    if ParentBeyond(f, t) && t.k.running.None? {
      var u, b, writes, steps := GrownThen(program, f, start, sizes, actions);
      SomebodyReady(f, b, u, writes, steps);
    }
  }

  // Left to itself

  /** Nobody else is alive. */
  ghost predicate OnlyFamily(f: Family, k: K.State) {
    forall x :: x in Live(k) ==> x.pid == f.pid
  }

  /** The next action when nothing interrupts. */
  function Onward(policy: K.Policy, k: K.State): Action {
    if k.running.Some? then Execute else Schedule(policy)
  }

  /** Instructions the members can still execute, at most. */
  function Budget(f: Family): nat {
    (f.k + f.k) * (7 * f.c + 5)
  }

  /** What is left to do: instructions, and a decision when nobody runs. */
  function Ahead(f: Family, steps: int, pc: int, k: K.State): int {
    2 * (Budget(f) - steps + 6 + 2 * f.k - pc) + if k.running.None? then 1 else 0
  }

  lemma {:induction false} WithinBudget(f: Family, b: Bounds, v: Threads, writes: nat, steps: nat)
    requires Grown(f, b, v, writes, steps)
    ensures steps <= Budget(f)
  {
    hide Fine, Inv, Live, Tally, Finished, AtLaterLines, ParentWaits;
    var st := SettingOf(f, b);
    MembersHaveRegs(st, v, writes, steps);
    AllHeads(st, v.k, v.regs);
    Totals(st, v, writes, steps);
    Scales(Finished(st, v.k.exited) + |st.tids|, f.k + f.k, 7 * f.c + 5);
  }

  lemma Scales(a: nat, b: nat, n: nat)
    requires a <= b
    ensures a * n <= b * n
  {
  }

  lemma {:induction false} DecisionStep(program: Scripts, policy: K.Policy, f: Family, b: Bounds, v: Threads,
                                        writes: nat, steps: nat)
    requires Grown(f, b, v, writes, steps) && OnlyFamily(f, v.k) && v.k.running.None?
    ensures ActThreads(program, v, Schedule(policy)).Some?
    ensures var t := ActThreads(program, v, Schedule(policy)).value;
      Grown(f, b, t, writes, steps) && OnlyFamily(f, t.k) && t.regs == v.regs && t.k.running.Some?
  {
    hide Fine, ParentOk, ParentWaits, Inv, Live, Frame, Counts, Settled, Away;
    FineBasics(SettingOf(f, b), v, writes, steps);
    SomebodyReady(f, b, v, writes, steps);
    SemaphoreIsReady(v.k);
    assert K.Enabled(v.k, K.Dispatch(policy));
    hide K.DoDispatch;
    assert ActThreads(program, v, Schedule(policy)) == Some(v.(k := K.DoDispatch(v.k, policy)));
    RunningAfter(v.k, K.Dispatch(policy));
    KernelOwnFrame(program, Process(f.pid), v, Schedule(policy));
    GrownFrame(f, b, v, ActThreads(program, v, Schedule(policy)).value, writes, steps);
  }

  lemma {:induction false} InstructionStep(program: Scripts, f: Family, b: Bounds, v: Threads, writes: nat, steps: nat)
    returns (w: nat, n: nat)
    requires Grown(f, b, v, writes, steps) && OnlyFamily(f, v.k) && RunFamily(program, f) && v.k.running.Some?
    requires 5 + f.k <= v.regs[Parent(f)].pc <= 5 + 2 * f.k
    ensures ActThreads(program, v, Execute).Some?
    ensures var t := ActThreads(program, v, Execute).value;
      && Grown(f, b, t, w, n) && OnlyFamily(f, t.k) && Parent(f) in t.regs
      && t.regs[Parent(f)].pc - v.regs[Parent(f)].pc + n - steps == 1
      && v.regs[Parent(f)].pc <= t.regs[Parent(f)].pc && steps <= n
  {
    hide Fine, Inv, Live, ActThreads, RunFamily, ParentScript, Tally, Finished, ParentWaits;
    RunningIsLive(v.k);
    GrownRuns(f, b, v);
    FamilyParent(program, f);
    w, n := writes, steps;
    if v.k.running.value.id == Parent(f) {
      if v.regs[Parent(f)].pc < 5 + 2 * f.k {
        ParentJoins(program, f, b, v, writes, steps);
      } else {
        ParentReadsWord(program, f, b, v, writes, steps);
      }
    } else {
      FamilyRunsScript(program, f, b);
      ChildKeeps(program, f, b, v, writes, steps);
      w := writes + (if AtWrite(SettingOf(f, b), v) then 1 else 0);
      n := steps + 1;
    }
  }

  /** Nothing but instructions and decisions of that policy. */
  predicate Unforced(policy: K.Policy, actions: seq<Action>) {
    forall i :: 0 <= i < |actions| ==> actions[i] == Execute || actions[i] == Schedule(policy)
  }

  /** Left to itself from any state past its creations, the workload gets to the parent's read. */
  lemma {:induction false} Drive(program: Scripts, policy: K.Policy, f: Family, b: Bounds, s: System, v: Threads,
                                 sizes: seq<nat>,
                                 writes: nat, steps: nat)
    returns (actions: seq<Action>, u: Threads)
    requires Agree(s, v, sizes) && Grown(f, b, v, writes, steps) && OnlyFamily(f, v.k) && RunFamily(program, f)
    requires 5 + f.k <= v.regs[Parent(f)].pc <= 6 + 2 * f.k
    ensures Unforced(policy, actions) && ActAll(program, s, actions).Some?
    ensures Agree(ActAll(program, s, actions).value, u, sizes)
    ensures Parent(f) in Live(u.k) && Parent(f) in u.regs && u.regs[Parent(f)].pc == 6 + 2 * f.k
    ensures u.regs[Parent(f)].dx == f.k * f.c % 0x1_0000_0000
    ensures ChildrenDone(f, u.k) == f.k
    decreases Ahead(f, steps, v.regs[Parent(f)].pc, v.k)
  {
    hide Agree, Fine, ParentOk, ParentWaits, Live, RunFamily, Act, ActThreads, ActAll, OnlyFamily, Budget, ChildrenDone;
    WithinBudget(f, b, v, writes, steps);
    ParentHasRegs(f, b, v);
    if v.regs[Parent(f)].pc > 5 + 2 * f.k {
      actions, u := [], v;
      assert ActAll(program, s, []) == Some(s) by { NoActions(program, s); }
      JoinsOver(f, b, v);
      assert Parent(f) in Live(v.k) by { ParentAlive(f, b, v); }
    } else {
      var a := Onward(policy, v.k);
      var w, n := writes, steps;
      if v.k.running.None? {
        DecisionStep(program, policy, f, b, v, writes, steps);
      } else {
        w, n := InstructionStep(program, f, b, v, writes, steps);
      }
      ActAgrees(program, s, v, sizes, a);
      var rest;
      rest, u := Drive(program, policy, f, b, Act(program, s, a).value, ActThreads(program, v, a).value, sizes, w, n);
      actions := [a] + rest;
      OneMoreAction(program, s, a, rest);
      assert Unforced(policy, actions);
    }
  }

  lemma ParentAlive(f: Family, b: Bounds, v: Threads)
    requires ParentOk(f, b, v)
    ensures Parent(f) in Live(v.k)
  {
  }

  lemma {:induction false} NoActions(program: Scripts, s: System)
    ensures ActAll(program, s, []) == Some(s)
  {
  }

  lemma {:induction false} OneMoreAction(program: Scripts, s: System, a: Action, rest: seq<Action>)
    requires Act(program, s, a).Some?
    ensures ActAll(program, s, [a] + rest) == ActAll(program, Act(program, s, a).value, rest)
  {
    hide Act;
    assert ([a] + rest)[1..] == rest;
  }

  lemma {:induction false} MoreActions(program: Scripts, s: System, a: seq<Action>, b: seq<Action>)
    requires ActAll(program, s, a).Some?
    ensures ActAll(program, s, a + b) == ActAll(program, ActAll(program, s, a).value, b)
    decreases |a|
  {
    hide Act;
    if a == [] {
      assert a + b == b;
    } else {
      assert (a + b)[1..] == a[1..] + b;
      MoreActions(program, Act(program, s, a[0]).value, a[1..], b);
    }
  }

  /** In any run from start-up in which the other processes behave, once the parent has created its
      threads and no other process is alive, the workload finishes if it is not interrupted any more:
      the parent then holds threads times loop count. */
  lemma {:induction false} WorkloadFinishes(program: Scripts, policy: K.Policy, f: Family, start: Start,
                                            sizes: seq<nat>,
                                            before: seq<Action>)
    returns (after: seq<Action>)
    requires WellBehaved(program, f, start, sizes, before)
    requires var s := ActAll(program, Power(start), before).value;
      && Parent(f) in Live(s.k) && OnlyFamily(f, s.k)
      && ContextOf(s, Parent(f)).Some? && 5 + f.k <= ContextOf(s, Parent(f)).value.regs.pc <= 5 + 2 * f.k
    ensures Unforced(policy, after) && ActAll(program, Power(start), before + after).Some?
    ensures var t := ActAll(program, Power(start), before + after).value;
      && Parent(f) in Live(t.k) && ContextOf(t, Parent(f)).Some?
      && ContextOf(t, Parent(f)).value.regs.pc == 6 + 2 * f.k
      && ContextOf(t, Parent(f)).value.regs.dx == f.k * f.c % 0x1_0000_0000
      && ChildrenDone(f, t.k) == f.k
  {
    var s := ActAll(program, Power(start), before).value;
    assert RunFamily(program, f) by { BehavedParts(program, f, start, sizes, before); }
    assert ActAll(program, Power(start), before).Some? by { BehavedParts(program, f, start, sizes, before); }
    assert ParentBeyond(f, s);
    hide ActAll, Power, Agree, Live, ContextOf, WellBehaved, RunFamily, OnlyFamily, ChildrenDone, ParentBeyond, Grown;
    var v, b, writes, steps := GrownThen(program, f, start, sizes, before);
    var u;
    after, u := Drive(program, policy, f, b, s, v, sizes, writes, steps);
    MoreActions(program, Power(start), before, after);
    AgreeOnKernel(ActAll(program, s, after).value, u, sizes);
    ParentRegisters(ActAll(program, s, after).value, u, sizes, Parent(f));
  }

  // From start-up to the end

  /** TIDs in use are below the process's thread count. */
  ghost predicate Compact(f: Family, k: K.State) {
    f.pid in k.active && forall x :: x in Live(k) ==> x.pid == f.pid && x.tid < k.active[f.pid]
  }

  lemma CompactCreates(f: Family, k: K.State, priority: nat)
    requires Compact(f, k) && k.running.Some? && k.running.value.id.pid == f.pid
    ensures K.Enabled(k, K.CreateThread(priority))
  {
    hide Live, K.Known;
    KnownMeansLive(k, K.ThreadId(f.pid, k.active[f.pid]));
  }

  /** Uninterrupted, the parent creates all its threads. */
  lemma {:induction false} CreatesAll(program: Scripts, f: Family, b: Bounds, s: System, v: Threads, sizes: seq<nat>,
                                      writes: nat, steps: nat)
    returns (u: Threads)
    requires Agree(s, v, sizes) && Grown(f, b, v, writes, steps) && Compact(f, v.k) && RunFamily(program, f)
    requires v.k.running.Some? && v.k.running.value.id == Parent(f) && v.regs[Parent(f)].pc <= 5 + f.k
    ensures ActAll(program, s, Executes(5 + f.k - v.regs[Parent(f)].pc)).Some?
    ensures Agree(ActAll(program, s, Executes(5 + f.k - v.regs[Parent(f)].pc)).value, u, sizes)
    ensures Grown(f, b, u, writes, steps) && OnlyFamily(f, u.k) && u.regs[Parent(f)].pc == 5 + f.k
    decreases 5 + f.k - v.regs[Parent(f)].pc
  {
    hide Agree, Fine, ParentOk, ParentWaits, Live, RunFamily, ParentScript, Act, ActThreads, ActAll, K.Enabled;
    ParentHasRegs(f, b, v);
    if v.regs[Parent(f)].pc == 5 + f.k {
      u := v;
      NoActions(program, s);
    } else {
      CompactCreates(f, v.k, f.priority);
      FamilyParent(program, f);
      ParentCreates(program, f, b, v, writes, steps);
      ActAgrees(program, s, v, sizes, Execute);
      u := CreatesAll(program, f, b, Act(program, s, Execute).value, ActThreads(program, v, Execute).value, sizes,
                      writes, steps);
      OneMoreAction(program, s, Execute, Executes(4 + f.k - v.regs[Parent(f)].pc));
    }
  }

  /** The second process does not fit, and waits in NEW. */
  lemma {:induction false} NoSecondPlace(m: M.State, tam: nat, size: nat, other: nat)
    requires Some(m) == M.TryCreate(Empty("FIRST", tam), 0, size) && size < tam <= P.INT_MAX && size + other > tam
    ensures M.TryCreate(m, 1, other).None?
  {
    FirstCreated(Empty("FIRST", tam), 0, size);
    hide P.Select, M.SortByBase, P.BuildFrom;
    assert m == M.After(Empty("FIRST", tam), M.Create(0, size));
    P.FirstFit(m.parts, other, 2);
  }

  function WaitingState(other: nat, priority: nat): K.State {
    K.Boot.(running := Some(Tcb(0, 0)), active := map[0 := 1], nextPid := 2,
            pending := [K.PendingPcb(1, other)], firstThreads := [K.FirstThread(other, priority)])
  }

  lemma {:induction false} SecondWaits(v: Threads, other: nat, priority: nat)
    requires v.k == FirstState(0).(running := Some(Tcb(0, 0)), ready := [], semThreads := 0)
    requires M.TryCreate(v.m, 1, other).None?
    ensures ServeThreads(v, K.CreateProcess(other, priority)) == Some(v.(k := WaitingState(other, priority)))
  {
    hide M.TryCreate;
    var w := v.(k := K.DoCreateProcess(v.k, other, priority));
    assert w.k == WaitingState(other, priority);
    assert !AttemptThreads(w).0 && AttemptThreads(w).1 == w;
    assert AdmitThreads(w) == w;
  }

  /** The first four lines of the parent, with nobody else in the system. */
  lemma {:induction false} LoneStart(program: Scripts, policy: K.Policy, f: Family, v: Threads, tam: nat, size: nat)
    returns (actions: seq<Action>, u: Threads)
    requires OFFSET < size < tam <= P.INT_MAX && size + f.otherSize > tam
    requires RunFamily(program, f) && f.pid == 0 && v.k == FirstState(0) && v.regs == map[K.ThreadId(0, 0) := Fresh]
    requires Some(v.m) == M.TryCreate(Empty("FIRST", tam), 0, size) && HomeOf(v.m, 0) == Some(Bounds(0, size))
    requires OFFSET + 4 <= |v.bytes| <= P.INT_MAX
    ensures Leads(program, v, actions, u) && Unforced(policy, actions)
    ensures u.k == WaitingState(f.otherSize, f.otherPriority) && u.m == v.m
    ensures K.ThreadId(0, 0) in u.regs && u.regs[K.ThreadId(0, 0)] == Fresh.(pc := 4, ax := OFFSET)
    ensures Zeroed(Some(Bounds(0, size)), u.bytes) && |u.bytes| == |v.bytes|
  {
    hide M.TryCreate, ServeThreads, HomeOf, ParentScript, WriteWord, ReadWord, Leads, Cycles, M.Lookup, RunFamily;
    var b := Bounds(0, size);
    FamilyParent(program, f);
    FirstLines(f);
    OwnAt(v, K.ThreadId(0, 0), b);
    Storing(ParentScript(f), b, v.bytes);
    NoSecondPlace(v.m, tam, size, f.otherSize);
    var r := Fresh.(pc := 3, ax := OFFSET);
    var bytes := WriteWord(v.bytes, OFFSET, 0);
    ReadAfterWrite(v.bytes, OFFSET, 0);
    var w := v.(k := v.k.(running := Some(Tcb(0, 0)), ready := [], semThreads := 0),
                regs := v.regs[K.ThreadId(0, 0) := r.(pc := 4)], bytes := bytes);
    SecondWaits(w, f.otherSize, f.otherPriority);
    u := w.(k := WaitingState(f.otherSize, f.otherPriority));
    assert v.k.ready == [Tcb(0, 0)] + [];
    Calls(program, policy, v, Tcb(0, 0), [], 3, Context(r, 0, size), bytes,
          K.CreateProcess(f.otherSize, f.otherPriority), u);
    actions := [Schedule(policy)] + (Executes(3) + [Execute]);
    assert Executes(3) == [Execute, Execute, Execute];
  }

  lemma FirstLines(f: Family)
    ensures var s := ParentScript(f);
      && |s| > 4 && s[0] == Set(DX, 0) && s[1] == Set(AX, OFFSET) && s[2] == WriteMem(AX, DX)
      && s[3] == Syscall(K.CreateProcess(f.otherSize, f.otherPriority))
  {
    hide ParentScript;
    forall i: nat | i < 4 ensures |ParentScript(f)| > 4 && ParentScript(f)[i] == ParentLine(f, i) {
      ParentLines(f, i);
    }
    ParentLines(f, 0);
  }

  lemma {:induction false} LoneIsYoung(f: Family, v: Threads, size: nat)
    requires f.pid == 0 && Inv(v.k) && v.k == WaitingState(f.otherSize, f.otherPriority) && size <= P.INT_MAX
    requires K.ThreadId(0, 0) in v.regs && v.regs[K.ThreadId(0, 0)] == Fresh.(pc := 4, ax := OFFSET)
    requires |v.bytes| <= P.INT_MAX
    requires HomeOf(v.m, 0) == Some(Bounds(0, size)) && Zeroed(Some(Bounds(0, size)), v.bytes)
    ensures Young(f, v) && Compact(f, v.k) && v.k.running == Some(Tcb(0, 0))
  {
    hide Inv, HomeOf, ReadWord;
    LoneLives(v.k, f.otherSize, f.otherPriority);
    hide Live;
    assert K.FindMutex([], MUTEX) == 0;
  }

  lemma LoneLives(k: K.State, other: nat, priority: nat)
    requires k == WaitingState(other, priority)
    ensures Live(k) == multiset{K.ThreadId(0, 0)}
  {
    assert Ids(k.ready) == [] && Ids(k.blocked) == [] && RunningIds(k) == [K.ThreadId(0, 0)];
  }

  /** The shipped workload on its own, the process its parent creates not fitting in memory beside it,
      for any number of threads and any loop count, under any policy and without preemption: from
      start-up the parent gets to hold threads times loop count. */
  lemma {:induction false} WorkloadComputes(program: Scripts, policy: K.Policy, f: Family, tam: nat, size: nat,
                                            cpu: Context, bytes: seq<byte>)
    returns (actions: seq<Action>)
    requires RunFamily(program, f) && f.pid == 0
    requires OFFSET < size < tam <= P.INT_MAX && size + f.otherSize > tam
    requires OFFSET + 4 <= |bytes| <= P.INT_MAX
    ensures var s := Power(OneHole(tam, size, 0, cpu, bytes));
      && Unforced(policy, actions) && ActAll(program, s, actions).Some?
      && var t := ActAll(program, s, actions).value;
         && Parent(f) in Live(t.k) && ContextOf(t, Parent(f)).Some?
         && ContextOf(t, Parent(f)).value.regs.pc == 6 + 2 * f.k
         && ContextOf(t, Parent(f)).value.regs.dx == f.k * f.c % 0x1_0000_0000
         && ChildrenDone(f, t.k) == f.k
  {
    hide Power, PowerThreads, ActAll, ActAllThreads, Agree, HomeOf, M.TryCreate, Sensible, ContextOf, Live, RunFamily,
      ParentScript,
      Executes, WaitingState, ChildrenDone, Zeroed;
    var start := OneHole(tam, size, 0, cpu, bytes);
    OneHoleSensible(tam, size, 0, cpu, bytes);
    PowerAgrees(start, []);
    FirstAdmitted(tam, size, 0, cpu, bytes);
    var first, u := LoneStart(program, policy, f, PowerThreads(start), tam, size);
    SystemRefinesThreads(program, Power(start), PowerThreads(start), [], first);
    var s := ActAll(program, Power(start), first).value;
    AgreeOnKernel(s, u, []);
    LoneIsYoung(f, u, size);
    var rest, t := LoneRest(program, policy, f, s, u, size);
    actions := first + rest;
    MoreActions(program, Power(start), first, rest);
    AgreeOnKernel(ActAll(program, s, rest).value, t, []);
    ParentRegisters(ActAll(program, s, rest).value, t, [], Parent(f));
  }

  lemma {:induction false} LoneRest(program: Scripts, policy: K.Policy, f: Family, s: System, v: Threads, size: nat)
    returns (actions: seq<Action>, u: Threads)
    requires Agree(s, v, []) && Young(f, v) && Compact(f, v.k) && RunFamily(program, f)
    requires v.k.running.Some? && v.k.running.value.id == Parent(f) && v.regs[Parent(f)].pc == 4
    ensures Unforced(policy, actions) && ActAll(program, s, actions).Some?
    ensures Agree(ActAll(program, s, actions).value, u, [])
    ensures Parent(f) in Live(u.k) && Parent(f) in u.regs && u.regs[Parent(f)].pc == 6 + 2 * f.k
    ensures u.regs[Parent(f)].dx == f.k * f.c % 0x1_0000_0000
    ensures ChildrenDone(f, u.k) == f.k
  {
    hide Agree, Fine, ParentOk, ParentWaits, Live, RunFamily, ParentScript, Act, ActThreads, ActAll, OnlyFamily,
      Young, HomeOf,
      ChildrenDone, K.DoCreateMutex, Executes, Inv, LockOf;
    AgreeOnKernel(s, v, []);
    AgreeingPlaced(f, s, v, []);
    SameCpu(s, v, []);
    FamilyParent(program, f);
    YoungShape(f, v);
    YoungCreatesMutex(program, f, v, s.cpu);
    assert LockOf(v.k).None? by { YoungUnlocked(f, v); }
    MutexCreated(v.k);
    ActAgrees(program, s, v, [], Execute);
    var s1, v1 := Act(program, s, Execute).value, ActThreads(program, v, Execute).value;
    var b := HomeOf(v.m, f.pid).value;
    var v2 := CreatesAll(program, f, b, s1, v1, [], 0, 0);
    var s2 := ActAll(program, s1, Executes(f.k)).value;
    var last;
    last, u := Drive(program, policy, f, b, s2, v2, [], 0, 0);
    MoreActions(program, s1, Executes(f.k), last);
    OneMoreAction(program, s, Execute, Executes(f.k) + last);
    actions := [Execute] + (Executes(f.k) + last);
    OnlyExecutes(f.k);
  }

  lemma YoungUnlocked(f: Family, v: Threads)
    requires Young(f, v)
    ensures LockOf(v.k).None?
  {
  }

  lemma {:induction false} OnlyExecutes(n: nat)
    ensures forall i :: 0 <= i < |Executes(n)| ==> Executes(n)[i] == Execute
  {
    if n > 0 {
      OnlyExecutes(n - 1);
    }
  }
}
