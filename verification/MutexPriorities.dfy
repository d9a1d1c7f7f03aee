/** The two shipped workloads together under the kernel's own schedulers: the scripts' priorities make the
    members of the mutex workload the last to run, and FIFO interrupts nobody. Either way no thread of the
    other workload runs while the mutex is held, so everything proved of the workload among polite processes
    holds of any run of both. */
module MutexPriorities {
  import opened Lists
  import opened Words
  import opened Cpu
  import opened BareMemory
  import opened Contexts
  import opened KernelInvariant
  import opened KernelRuns
  import opened WholeSystem
  import opened MutexScript
  import opened MutexFrame
  import opened MutexTeam
  import opened MutexProgram
  import opened MutexFamily
  import opened MutexParent
  import opened MutexChildren
  import opened MutexWorkload
  import opened MutexProgress
  import opened MutexRanks
  import opened MutexSites
  import K = KernelState
  import M = Memory

  // What each thread may ask for

  /** The scripts' own order of priorities: 4 and 5 before 6. */
  predicate MembersLast(f: Family, g: Racers) {
    f.otherPriority < f.priority && g.priority < f.priority
  }

  predicate Untaken(k: K.State) {
    LockOf(k).Some? ==> !LockOf(k).value.taken
  }

  lemma UntakenNotHeld(k: K.State, tid: nat)
    requires Untaken(k)
    ensures !HeldUnder(k, tid)
  {
  }

  lemma ClearUntaken(k: K.State)
    requires Clear(k)
    ensures Untaken(k)
  {
  }

  lemma FaultIsQuiet(k: K.State)
    requires k.running.Some? && Untaken(k)
    ensures Quiet(k, k.running.value.id.tid, K.SegmentationFault)
  {
    UntakenNotHeld(k, k.running.value.id.tid);
  }

  lemma MemberUnclear(k: K.State)
    requires k.running.Some? && k.running.value.id.pid == 0 && k.running.value.id.tid != 0
    ensures !Clear(k)
  {
  }

  /** A call that does nothing to the mutex but create it. */
  predicate Harmless(k: K.State, call: K.Step)
    requires k.running.Some?
  {
    Quiet(k, k.running.value.id.tid, call) || (call == K.CreateMutex(MUTEX) && LockOf(k).None?)
  }

  lemma {:induction false} RacerAsks(program: Scripts, f: Family, g: Racers, k: K.State, pc: nat, call: K.Step)
    requires Both(program, f, g) && k.running.Some? && k.running.value.id.pid != 0 && Untaken(k)
    requires pc < |program(k.running.value.id)| && program(k.running.value.id)[pc] == Syscall(call)
    ensures Harmless(k, call) && !call.CreateProcess? && (MembersLast(f, g) ==> Makes(f, k, call))
  {
    hide LockOf, HeldUnder, Untaken, RunFamily;
    UntakenNotHeld(k, k.running.value.id.tid);
    OtherLine(program, f, g, k.running.value.id, pc);
  }

  lemma MemberLines(c: u32, pc: nat)
    requires pc < |Script(c)| && Script(c)[pc].Syscall?
    ensures var call := Script(c)[pc].call; call.LockMutex? || call.UnlockMutex? || call.ExitThread?
  {
  }

  lemma ParentLineAsks(f: Family, pc: nat, call: K.Step)
    requires pc < 8 + 2 * f.k && ParentLine(f, pc) == Syscall(call)
    ensures (call == K.CreateProcess(f.otherSize, f.otherPriority) && pc == 3) || call == K.CreateMutex(MUTEX)
      || call == K.CreateThread(f.priority) || call.JoinThread? || (call.ExitProcess? && pc == 7 + 2 * f.k)
  {
  }

  lemma {:induction false} ParentAsks(f: Family, g: Racers, k: K.State, pc: nat, call: K.Step)
    requires f.pid == 0 && f.otherSize > OFFSET && k.running.Some? && k.running.value.id == Parent(f)
    requires pc < 8 + 2 * f.k && ParentLine(f, pc) == Syscall(call)
    ensures call.CreateProcess? ==> call.size > OFFSET && pc == 3
    ensures call.ExitProcess? ==> pc == 7 + 2 * f.k
    ensures Untaken(k) ==> Harmless(k, call)
    ensures MembersLast(f, g) ==> Makes(f, k, call)
  {
    hide Untaken, LockOf, HeldUnder, ParentLine;
    ParentLineAsks(f, pc, call);
    if Untaken(k) {
      UntakenNotHeld(k, k.running.value.id.tid);
    }
  }

  lemma LaterLines(f: Family, b: Bounds, v: Threads)
    requires ParentOk(f, b, v)
    ensures Parent(f) in v.regs && 5 <= v.regs[Parent(f)].pc
  {
    hide Live, Tally, Finished;
  }

  lemma YoungUnlocked(f: Family, v: Threads)
    requires Young(f, v) && v.k.running.Some? && v.k.running.value.id == Parent(f)
    ensures Clear(v.k)
  {
    hide Inv, Live, LockOf, Away, HomeOf;
  }

  lemma {:induction false} FreeWithoutMembers(st: Setting, k: K.State)
    requires Inv(k) && LockOf(k).Some? && TeamOnly(st, LockOf(k).value)
    requires forall x :: In(Members(st), x) ==> x !in Live(k)
    ensures !LockOf(k).value.taken
  {
    hide Live, Inv;
    LockFacts(k);
  }

  lemma {:induction false} NobodyHoldsIt(f: Family, b: Bounds, v: Threads, writes: nat, steps: nat)
    requires Grown(f, b, v, writes, steps) && v.k.running.Some? && v.k.running.value.id == Parent(f)
    requires v.regs[Parent(f)].pc == 7 + 2 * f.k
    ensures Clear(v.k)
  {
    hide Inv, Live, Tally, Finished, Settled, Away, HomeOf, ReadWord, Orderly, AtLaterLines, TeamOnly;
    GrownParent(f, b, v, writes, steps);
    NobodyLeft(f, b, v);
    FreeWithoutMembers(SettingOf(f, b), v.k);
  }

  /** Before the mutex exists, and after the last member, the way is clear for newcomers. */
  lemma {:induction false} ClearAround(f: Family, v: Threads)
    requires Stage(f, v) && v.k.running.Some? && v.k.running.value.id == Parent(f) && Parent(f) in v.regs
    requires v.regs[Parent(f)].pc == 3 || v.regs[Parent(f)].pc == 7 + 2 * f.k
    ensures Clear(v.k)
  {
    hide Young, Grown, Live, Unborn, Over;
    RunningIsLive(v.k);
    LivingParent(f, v);
    if Young(f, v) {
      YoungUnlocked(f, v);
    } else {
      var b, writes, steps :| Grown(f, b, v, writes, steps);
      GrownParent(f, b, v, writes, steps);
      assert v.regs[Parent(f)].pc >= 5 by { LaterLines(f, b, v); }
      NobodyHoldsIt(f, b, v, writes, steps);
    }
  }

  /** Whoever of the first process runs is the parent or one of its children. */
  lemma {:induction false} FamilyRuns(f: Family, v: Threads)
    requires Stage(f, v) && v.k.running.Some? && v.k.running.value.id.pid == f.pid
    ensures v.k.running.value.id == Parent(f) || (1 <= v.k.running.value.id.tid <= f.k && SomewhereGrown(f, v))
  {
    hide Young, Grown, Live, Inv, Away, LockOf;
    var x := v.k.running.value.id;
    RunningIsLive(v.k);
    if Unborn(f, v) {
      LivePopulates(v.k, x);
      assert false;
    } else if Young(f, v) {
      YoungRunsParent(f, v);
    } else if SomewhereGrown(f, v) {
      var b, writes, steps :| Grown(f, b, v, writes, steps);
      GrownParent(f, b, v, writes, steps);
      GrownRuns(f, b, v);
    } else {
      RunningActive(v.k);
      assert false;
    }
  }

  /** What the running thread's instruction asks the kernel for. */
  predicate Asks(program: Scripts, v: Threads, call: K.Step) {
    && v.k.running.Some? && v.k.running.value.id in v.regs
    && var x := v.k.running.value.id;
       call == K.SegmentationFault
       || (v.regs[x].pc < |program(x)| && program(x)[v.regs[x].pc] == Syscall(call))
  }

  lemma {:induction false} AskedSizes(program: Scripts, f: Family, g: Racers, v: Threads, call: K.Step)
    requires Both(program, f, g) && Stage(f, v) && Asks(program, v, call)
    ensures call.CreateProcess? ==> call.size > OFFSET
  {
    hide Stage, ParentScript, Script, SomewhereGrown;
    var x := v.k.running.value.id;
    if call.CreateProcess? {
      var pc := v.regs[x].pc;
      if x.pid != 0 {
        OtherLine(program, f, g, x, pc);
      } else {
        FamilyRuns(f, v);
        if x == Parent(f) {
          ParentLines(f, pc);
          ParentAsks(f, g, v.k, pc, call);
        } else {
          assert x == K.ThreadId(f.pid, x.tid) && program(x) == Script(f.c);
          MemberLines(f.c, pc);
        }
      }
    }
  }

  lemma {:induction false} AskedPermitted(program: Scripts, f: Family, g: Racers, v: Threads, call: K.Step)
    requires Both(program, f, g) && MembersLast(f, g) && Stage(f, v) && OthersFirst(v.k) && Asks(program, v, call)
    ensures Permitted(f, v.k, call)
  {
    hide Stage, Clear, ParentScript, Script, SomewhereGrown, Quiet, LockOf, Visited;
    var x := v.k.running.value.id;
    var pc := v.regs[x].pc;
    if Clear(v.k) {
      ClearUntaken(v.k);
    }
    if call.SegmentationFault? {
      if Clear(v.k) {
        FaultIsQuiet(v.k);
      }
    } else if x.pid != 0 {
      VisitorRuns(v.k);
      RacerAsks(program, f, g, v.k, pc, call);
    } else {
      FamilyRuns(f, v);
      if x == Parent(f) {
        ParentLines(f, pc);
        if pc == 3 || pc == 7 + 2 * f.k {
          ClearAround(f, v);
        }
        ParentAsks(f, g, v.k, pc, call);
      } else {
        assert x == K.ThreadId(f.pid, x.tid) && program(x) == Script(f.c);
        MemberLines(f.c, pc);
        assert !Clear(v.k) by { MemberUnclear(v.k); }
      }
    }
  }

  // Without interruptions

  /** Nobody waits for the mutex, and only the thread that runs can hold it, a member. */
  predicate HolderRuns(k: K.State) {
    LockOf(k).Some? ==>
      && LockOf(k).value.waiters == []
      && (LockOf(k).value.taken ==>
            k.running.Some? && k.running.value.id.pid == 0 && k.running.value.id.tid != 0
            && LockOf(k).value.tid == k.running.value.id.tid)
  }

  lemma {:induction false} QuietStep(k: K.State, step: K.Step)
    requires Inv(k) && K.Enabled(k, step) && HolderRuns(k) && Untaken(k)
    requires k.running.Some? ==> Quiet(k, k.running.value.id.tid, step)
    ensures HolderRuns(K.Apply(k, step)) && Untaken(K.Apply(k, step))
  {
    hide Inv, K.Enabled, K.Apply, LockOf, Quiet;
    LockFrame(k, step);
  }

  lemma {:induction false} AdmitLock(v: Threads)
    requires Inv(v.k)
    ensures var t := AdmitThreads(v); LockOf(t.k) == LockOf(v.k) && t.k.running == v.k.running
    decreases |v.k.pending|
  {
    hide Inv, LockOf, M.TryCreate, K.Apply, K.DoAdmitHead, K.Enabled;
    if AttemptThreads(v).0 {
      HeadAdmits(v.k);
      StepKeeps(v.k, K.AdmitHead);
      LockFrame(v.k, K.AdmitHead);
      RunningAfter(v.k, K.AdmitHead);
      AdmitLock(AttemptThreads(v).1);
    } else {
      NotAdmitted(v);
    }
  }

  lemma {:induction false} HarmlessServed(v: Threads, call: K.Step)
    requires Inv(v.k) && v.k.running.Some? && K.Enabled(v.k, call) && HolderRuns(v.k) && Untaken(v.k)
    requires Harmless(v.k, call)
    ensures HolderRuns(ServeThreads(v, call).value.k)
  {
    hide Inv, K.Enabled, K.Apply, LockOf, AdmitThreads, M.Delete, Quiet, K.DoCreateMutex;
    var t := v.(k := K.Apply(v.k, call));
    StepKeeps(v.k, call);
    if call == K.CreateMutex(MUTEX) && LockOf(v.k).None? {
      MutexServed(v);
      MutexCreated(v.k);
    } else {
      QuietStep(v.k, call);
      if call.CreateProcess? {
        AdmitLock(t);
      } else if call.ExitProcess? {
        AdmitLock(t.(m := M.Delete(v.m, v.k.running.value.id.pid)));
      }
    }
  }

  lemma LockGoesOn(k: K.State)
    requires k.running.Some? && LockOf(k).Some? && !LockOf(k).value.taken
    ensures K.DoLock(k, MUTEX).running == k.running
  {
    hide K.FindMutex;
  }

  /** A member's turn: it takes the mutex when nobody has it, and gives it back before it ends. */
  lemma {:induction false} MemberHolds(program: Scripts, st: Setting, v: Threads, writes: nat, steps: nat)
    requires Fine(st, v, writes, steps) && MemberRuns(st, v.k) && RunScript(program, st) && HolderRuns(v.k)
    requires st.pid == 0 && forall t :: t in st.tids ==> t != 0
    ensures ActThreads(program, v, Execute).Some? && HolderRuns(ActThreads(program, v, Execute).value.k)
  {
    hide Inv, Live, Tally, ReadWord, K.Enabled, AtLine, LockOf, HomeOf, Settled, Ids, Away, ActThreads, Moved,
      RunScript, K.DoLock, K.DoExitThread, K.Unlock, Inside;
    MemberEffect(program, st, v, writes, steps);
    var x := v.k.running.value.id;
    var m := LockOf(v.k).value;
    if IsCall(v.regs[x].pc) {
      RunningIsLive(v.k);
      assert Placed(m, v.regs[x], x, ReadWord(v.bytes, Shared(st)));
      PlaceOfCall(m, v.regs[x], x, ReadWord(v.bytes, Shared(st)));
      if v.regs[x].pc == 5 {
        LockEffect(v.k, x);
        LockGoesOn(v.k);
      } else if v.regs[x].pc == 9 {
        UnlockEffect(v.k, x);
      } else {
        ExitEffect(v.k, x);
      }
    }
  }

  // Actions

  /** An instruction moves the running thread on and may ask the kernel for something. */
  lemma {:induction false} Executed(program: Scripts, v: Threads) returns (u: Threads, call: Option<K.Step>)
    requires ActThreads(program, v, Execute).Some?
    ensures v.k.running.Some? && u.k == v.k && u.m == v.m
    ensures var x := v.k.running.value.id;
      && x in v.regs && M.Lookup(v.m.procs, x.pid).Some? && v.regs[x].pc < |program(x)|
      && !Cycle(program(x), Own(v, x), v.bytes).Undefined?
      && u.regs == v.regs[x := Cycle(program(x), Own(v, x), v.bytes).context.regs]
    ensures call.None? ==> ActThreads(program, v, Execute).value == u
    ensures call.Some? ==>
      && K.Enabled(v.k, call.value) && Asks(program, v, call.value)
      && (IsSyscall(call.value) || call.value.SegmentationFault?)
      && ActThreads(program, v, Execute) == ServeThreads(u, call.value)
  {
    hide ServeThreads, K.Enabled, Cycle, M.Lookup, IsSyscall;
    ExecuteNeedsRunning(program, v);
    var x := v.k.running.value.id;
    var o := Cycle(program(x), Own(v, x), v.bytes);
    CycleWrites(program(x), Own(v, x), v.bytes);
    u := v.(regs := v.regs[x := o.context.regs], bytes := o.mem);
    call := None;
    if !o.Next? {
      call := Some(if o.Trap? then o.call else K.SegmentationFault);
      assert K.Enabled(u.k, call.value) by {
        if !K.Enabled(u.k, call.value) {
          NotServed(u, call.value);
          assert false;
        }
      }
    }
  }

  lemma {:induction false} ExecuteSited(program: Scripts, f: Family, g: Racers, v: Threads)
    requires Both(program, f, g) && Stage(f, v) && Inv(v.k) && Sited(v) && ActThreads(program, v, Execute).Some?
    ensures Sited(ActThreads(program, v, Execute).value)
  {
    hide Both, Stage, Inv, Sizes, Roomy, ServeThreads, K.Enabled, Cycle, M.Lookup, Live, Pointing, IsSyscall,
      ActThreads, Asks;
    var u, call := Executed(program, v);
    var x := v.k.running.value.id;
    assert Racing(u) by {
      if x.pid != 0 {
        RunningIsLive(v.k);
        OtherLine(program, f, g, x, v.regs[x].pc);
        StaysPointing(g, x.tid, program(x), Own(v, x), v.bytes);
      }
    }
    if call.Some? {
      AskedSizes(program, f, g, v, call.value);
      hide Racing;
      ServeSited(u, call.value);
    }
  }

  lemma {:induction false} ExecuteOrdered(program: Scripts, f: Family, g: Racers, v: Threads)
    requires Both(program, f, g) && MembersLast(f, g) && Stage(f, v) && Inv(v.k) && Ordered(f, v.k)
    requires ActThreads(program, v, Execute).Some?
    ensures Ordered(f, ActThreads(program, v, Execute).value.k)
  {
    hide Both, Stage, Inv, House, OthersFirst, ServeThreads, K.Enabled, Cycle, M.Lookup, IsSyscall, ActThreads, Asks,
      Permitted;
    var u, call := Executed(program, v);
    if call.Some? {
      AskedPermitted(program, f, g, v, call.value);
      ServeOrdered(f, u, call.value);
    }
  }

  /** Everybody but a member runs while nobody has the mutex. */
  lemma OthersUntaken(k: K.State)
    requires HolderRuns(k) && (k.running.Some? && k.running.value.id.pid == 0 ==> k.running.value.id.tid == 0)
    ensures Untaken(k)
  {
  }

  lemma {:induction false} AskedHarmless(program: Scripts, f: Family, g: Racers, v: Threads, call: K.Step)
    requires Both(program, f, g) && Asks(program, v, call) && Untaken(v.k)
    requires v.k.running.value.id.pid == 0 ==> v.k.running.value.id == Parent(f)
    ensures Harmless(v.k, call)
  {
    hide ParentScript, Script, Quiet, LockOf, Untaken;
    var x := v.k.running.value.id;
    if call.SegmentationFault? {
      FaultIsQuiet(v.k);
    } else if x.pid != 0 {
      RacerAsks(program, f, g, v.k, v.regs[x].pc, call);
    } else {
      ParentLines(f, v.regs[x].pc);
      ParentAsks(f, g, v.k, v.regs[x].pc, call);
    }
  }

  lemma GrownFine(f: Family, b: Bounds, v: Threads, writes: nat, steps: nat)
    requires Grown(f, b, v, writes, steps)
    ensures Fine(SettingOf(f, b), v, writes, steps)
  {
    hide Fine, ParentOk, ParentWaits;
  }

  lemma {:induction false} ExecuteHolds(program: Scripts, f: Family, g: Racers, v: Threads)
    requires Both(program, f, g) && Stage(f, v) && Inv(v.k) && HolderRuns(v.k)
    requires ActThreads(program, v, Execute).Some?
    ensures HolderRuns(ActThreads(program, v, Execute).value.k)
  {
    hide Stage, Inv, HolderRuns, ServeThreads, K.Enabled, Cycle, M.Lookup, IsSyscall, ActThreads, Asks, Grown,
      RunFamily, Harmless;
    var u, call := Executed(program, v);
    var x := v.k.running.value.id;
    if x.pid == 0 {
      FamilyRuns(f, v);
    }
    if x.pid == 0 && x != Parent(f) {
      var b, writes, steps :| Grown(f, b, v, writes, steps);
      GrownFine(f, b, v, writes, steps);
      FamilyRunsScript(program, f, b);
      MemberHolds(program, SettingOf(f, b), v, writes, steps);
    } else if call.Some? {
      OthersUntaken(v.k);
      AskedHarmless(program, f, g, v, call.value);
      HarmlessServed(u, call.value);
    }
  }

  function StepOf(a: Action): K.Step
    requires !a.Execute?
  {
    match a
    case Interrupt => K.Preempt
    case Schedule(policy) => K.Dispatch(policy)
    case IoDone => K.CompleteIo
    case DumpDone(i) => K.CompleteDump(i)
  }

  lemma {:induction false} MoveIs(program: Scripts, v: Threads, a: Action)
    requires !a.Execute? && ActThreads(program, v, a).Some?
    ensures var step := StepOf(a);
      && K.Enabled(v.k, step) && Created(v.k, step) == multiset{} && K.Apply(v.k, step).pending == v.k.pending
      && (v.k.running.Some? ==> Quiet(v.k, v.k.running.value.id.tid, step))
      && ActThreads(program, v, a).value == v.(k := K.Apply(v.k, step))
  {
    hide K.Find, K.Pick;
  }

  lemma {:induction false} MoveSited(program: Scripts, v: Threads, a: Action)
    requires Inv(v.k) && Sited(v) && !a.Execute? && ActThreads(program, v, a).Some?
    ensures Sited(ActThreads(program, v, a).value)
  {
    hide Inv, Racing, Roomy, Sizes, K.Enabled, K.Apply, Created, ActThreads, StepOf, Quiet;
    MoveIs(program, v, a);
    RacingAfter(v, StepOf(a), v.regs);
  }

  lemma NoCompletions(f: Family, k: K.State, step: K.Step)
    requires House(f, k) && K.Enabled(k, step)
    ensures !step.CompleteIo? && !step.CompleteDump?
  {
    hide Ranked, NewRanked, ParentJoin;
  }

  lemma {:induction false} MoveOrdered(program: Scripts, f: Family, v: Threads, a: Action)
    requires Inv(v.k) && Ordered(f, v.k) && !a.Execute? && (a.Schedule? ==> a.policy.Priorities?)
    requires ActThreads(program, v, a).Some?
    ensures Ordered(f, ActThreads(program, v, a).value.k)
  {
    hide Inv, House, OthersFirst, K.Enabled, K.Apply, Created, ActThreads, Quiet;
    MoveIs(program, v, a);
    var step := StepOf(a);
    NoCompletions(f, v.k, step);
    StepHouse(f, v.k, step);
    if a.Schedule? {
      PickedFirst(f, v.k);
    } else {
      FirstStep(v.k, step);
    }
  }

  lemma {:induction false} MoveHolds(program: Scripts, v: Threads, a: Action)
    requires Inv(v.k) && HolderRuns(v.k) && !a.Execute? && !a.Interrupt? && ActThreads(program, v, a).Some?
    ensures HolderRuns(ActThreads(program, v, a).value.k)
  {
    hide Inv, K.Enabled, K.Apply, Created, ActThreads, Quiet, LockOf;
    MoveIs(program, v, a);
    LockFrame(v.k, StepOf(a));
    RunningAfter(v.k, StepOf(a));
  }

  // Whole runs

  /** Decisions by priority, as PRIORIDADES and CMN make them; everything else is free. */
  predicate ByPriority(actions: seq<Action>) {
    forall i :: 0 <= i < |actions| && actions[i].Schedule? ==> actions[i].policy.Priorities?
  }

  /** No interruptions, as under FIFO; everything else is free. */
  predicate Uninterrupted(actions: seq<Action>) {
    forall i :: 0 <= i < |actions| ==> !actions[i].Interrupt?
  }

  /** The run is one of a scheduler the kernel has: by priority with members last, or uninterrupted. */
  predicate Scheduled(f: Family, g: Racers, actions: seq<Action>) {
    (MembersLast(f, g) && ByPriority(actions)) || Uninterrupted(actions)
  }

  ghost predicate Ruled(f: Family, byPriority: bool, v: Threads) {
    Sited(v) && if byPriority then Ordered(f, v.k) else HolderRuns(v.k)
  }

  /** A thread of the other workload only runs while nobody has the mutex. */
  lemma {:induction false} RuledUntaken(f: Family, byPriority: bool, v: Threads)
    requires Ruled(f, byPriority, v) && v.k.running.Some? && v.k.running.value.id.pid != 0
    ensures !HeldUnder(v.k, v.k.running.value.id.tid)
  {
    hide Sited, House, Clear, HolderRuns, HeldUnder, Visited, Untaken;
    VisitorRuns(v.k);
    if byPriority {
      ClearUntaken(v.k);
    } else {
      OthersUntaken(v.k);
    }
    UntakenNotHeld(v.k, v.k.running.value.id.tid);
  }

  lemma {:induction false} ActRuled(program: Scripts, f: Family, g: Racers, byPriority: bool, v: Threads, a: Action)
    requires Both(program, f, g) && Stage(f, v) && Inv(v.k) && Ruled(f, byPriority, v)
    requires ActThreads(program, v, a).Some?
    requires if byPriority then MembersLast(f, g) && (a.Schedule? ==> a.policy.Priorities?) else !a.Interrupt?
    ensures Ruled(f, byPriority, ActThreads(program, v, a).value)
  {
    hide Both, Stage, Inv, Sited, Ordered, HolderRuns, ActThreads;
    if a.Execute? {
      ExecuteSited(program, f, g, v);
      if byPriority {
        ExecuteOrdered(program, f, g, v);
      } else {
        ExecuteHolds(program, f, g, v);
      }
    } else {
      MoveSited(program, v, a);
      if byPriority {
        MoveOrdered(program, f, v, a);
      } else {
        MoveHolds(program, v, a);
      }
    }
  }

  lemma AgreeingInv(s: System, v: Threads, sizes: seq<nat>)
    requires Agree(s, v, sizes)
    ensures Inv(v.k)
  {
    hide Inv, Sound, Seen, Strip;
  }

  lemma RuledSited(f: Family, byPriority: bool, v: Threads)
    requires Ruled(f, byPriority, v)
    ensures Sited(v)
  {
    hide Sited, Ordered, HolderRuns;
  }

  lemma {:induction false} RunPolite(program: Scripts, f: Family, g: Racers, byPriority: bool, s: System, v: Threads,
                                     sizes: seq<nat>, actions: seq<Action>)
    requires Both(program, f, g) && Agree(s, v, sizes) && Stage(f, v) && Ruled(f, byPriority, v)
    requires if byPriority then MembersLast(f, g) && ByPriority(actions) else Uninterrupted(actions)
    requires ActAll(program, s, actions).Some?
    ensures AllPolite(program, Process(0), s, actions)
    decreases |actions|
  {
    hide Agree, Act, ActThreads, Stage, Ruled, RunFamily, Polite;
    if actions != [] {
      var a := actions[0];
      if v.k.running.Some? && v.k.running.value.id.pid != 0 {
        RuledUntaken(f, byPriority, v);
      }
      assert Sited(v) by { RuledSited(f, byPriority, v); }
      RacersPolite(program, f, g, s, v, sizes, a);
      ActStage(program, f, s, v, sizes, a);
      AgreeingInv(s, v, sizes);
      ActRuled(program, f, g, byPriority, v, a);
      var t, u := Act(program, s, a).value, ActThreads(program, v, a).value;
      RunPolite(program, f, g, byPriority, t, u, sizes, actions[1..]);
    }
  }

  lemma FirstRuled(f: Family, start: Start, v: Threads)
    requires v == Threads(K.DoCreateProcess(K.Boot, start.size, start.priority), Strip(start.m), map[], start.bytes)
    requires start.m.procs == [] && start.size > OFFSET
    ensures Sited(v) && House(f, v.k) && Clear(v.k) && LockOf(v.k).None?
  {
    assert K.FindMutex([], MUTEX) == 0;
    assert Live(v.k) == multiset{};
  }

  lemma {:induction false} PowerRuled(f: Family, byPriority: bool, start: Start)
    requires start.m.procs == [] && start.size > OFFSET
    ensures Ruled(f, byPriority, PowerThreads(start))
  {
    hide AdmitThreads;
    var v := Threads(K.DoCreateProcess(K.Boot, start.size, start.priority), Strip(start.m), map[], start.bytes);
    BootOk();
    CreateProcessKeeps(K.Boot, start.size, start.priority);
    hide Inv;
    FirstRuled(f, start, v);
    hide Sited, House, Clear, LockOf;
    AdmitSited(v);
    AdmitOrdered(f, v);
    AdmitLock(v);
  }

  /** In any run from start-up of the two shipped workloads, under any of the kernel's schedulers, the
      second one behaves. */
  lemma {:induction false} ShippedRunsBehave(program: Scripts, f: Family, g: Racers, start: Start,
                                             sizes: seq<nat>, actions: seq<Action>)
    requires Both(program, f, g) && Sensible(start, sizes) && start.size > OFFSET
    requires Scheduled(f, g, actions) && ActAll(program, Power(start), actions).Some?
    ensures WellBehaved(program, f, start, sizes, actions)
  {
    hide ActAll, Power, PowerThreads, Stage, Ruled, Agree, Healthy, RunFamily;
    var byPriority := MembersLast(f, g) && ByPriority(actions);
    PowerAgrees(start, sizes);
    PowerStage(f, start, sizes);
    PowerRuled(f, byPriority, start);
    RunPolite(program, f, g, byPriority, Power(start), PowerThreads(start), sizes, actions);
  }

  lemma {:induction false} ChildMeansGrown(f: Family, v: Threads, x: K.ThreadId)
    requires Stage(f, v) && x in Live(v.k) && x.pid == f.pid && x.tid >= 1
    ensures SomewhereGrown(f, v)
  {
    hide Grown, Live, Inv, Away, LockOf;
    if Unborn(f, v) {
      LivePopulates(v.k, x);
      assert false;
    } else if Young(f, v) {
      assert false;
    } else if Over(f, v) {
      LiveIsActive(v.k, x);
      assert false;
    }
  }

  lemma {:induction false} OneInside(program: Scripts, f: Family, start: Start, sizes: seq<nat>, actions: seq<Action>,
                                     x: K.ThreadId, y: K.ThreadId)
    requires WellBehaved(program, f, start, sizes, actions)
    requires var t := ActAll(program, Power(start), actions).value;
      Critical(SettingOf(f, Bounds(0, 0)), t, x) && Critical(SettingOf(f, Bounds(0, 0)), t, y)
    ensures x == y
  {
    var t := ActAll(program, Power(start), actions).value;
    hide ActAll, Power, Agree, Stage, ContextOf, WellBehaved, Unborn, Young, Over, Grown, Live, Fine, LockOf, Inside;
    var u := ReachedStage(program, f, start, sizes, actions);
    AgreeOnKernel(t, u, sizes);
    assert x in Live(u.k) && x.pid == f.pid && x.tid >= 1;
    ChildMeansGrown(f, u, x);
    var b, writes, steps :| Grown(f, b, u, writes, steps);
    var st := SettingOf(f, b);
    assert Fine(st, u, writes, steps) by { hide *; GrownFine(f, b, u, writes, steps); }
    WhereItStands(st, t, u, sizes, writes, steps, x);
    WhereItStands(st, t, u, sizes, writes, steps, y);
  }

  /** The two shipped workloads together, for any numbers of threads and loop counts, in any run from
      start-up, under FIFO, which interrupts nobody, or by the scripts' own order of priorities with
      interruptions anywhere: no two members are between lock and unlock unblocked, the parent is never left
      waiting for good, and past its joins it holds threads times loop count modulo 2^32. */
  lemma {:induction false} ShippedWorkloadsWork(program: Scripts, f: Family, g: Racers, start: Start,
                                                sizes: seq<nat>, actions: seq<Action>)
    requires Both(program, f, g) && Sensible(start, sizes) && start.size > OFFSET
    requires Scheduled(f, g, actions) && ActAll(program, Power(start), actions).Some?
    ensures var t := ActAll(program, Power(start), actions).value; var st := SettingOf(f, Bounds(0, 0));
      && (forall x, y :: Critical(st, t, x) && Critical(st, t, y) ==> x == y)
      && (ParentBeyond(f, t) && t.k.running.None? ==> t.k.ready != [])
      && (ParentBeyond(f, t) && ContextOf(t, Parent(f)).value.regs.pc > 5 + 2 * f.k ==>
            ContextOf(t, Parent(f)).value.regs.dx == f.k * f.c % 0x1_0000_0000 && ChildrenDone(f, t.k) == f.k)
  {
    hide ActAll, Power, Both, Sensible, WellBehaved, Critical, Live, ContextOf, ChildrenDone, Scheduled;
    ShippedRunsBehave(program, f, g, start, sizes, actions);
    var t := ActAll(program, Power(start), actions).value;
    var st := SettingOf(f, Bounds(0, 0));
    forall x, y | Critical(st, t, x) && Critical(st, t, y) ensures x == y {
      OneInside(program, f, start, sizes, actions, x, y);
    }
    WorkloadNeverStuck(program, f, start, sizes, actions);
    ParentReads(program, f, start, sizes, actions);
  }
}
