/** What the steps do to every list of the kernel, said without the loops that do it: who stops
    running, who becomes ready and in which order, which TCB goes where, which waits begin and end.
    Over whole runs this makes NEW, the IO queue and, under FIFO, READY first-come queues. */
module KernelEffects {
  import opened Lists
  import opened KernelState
  import opened KernelInvariant
  import opened KernelRuns
  import opened KernelHandoff

  // TCBs with their priorities

  function RunningTcb(s: State): seq<Tcb> {
    if s.running.Some? then [s.running.value] else []
  }

  /** Every TCB, wherever it is. */
  function Tcbs(s: State): multiset<Tcb> {
    multiset(s.ready) + multiset(s.blocked) + multiset(RunningTcb(s)) + multiset(s.exited)
  }

  /** The TCB a step brings into being: the next TID with the priority asked for. */
  function Fresh(s: State, step: Step): multiset<Tcb>
    requires Enabled(s, step)
  {
    match step
    case CreateThread(priority) =>
      var pid := s.running.value.id.pid;
      multiset{Tcb(ThreadId(pid, s.active[pid]), priority)}
    case AdmitHead => multiset{Tcb(ThreadId(s.pending[0].pid, 0), s.firstThreads[0].priority)}
    case _ => multiset{}
  }

  lemma WakeKeepsTcbs(s: State, x: ThreadId)
    ensures Tcbs(WakeAndPost(s, x)) == Tcbs(s)
  {
    hide Find;
    var i := Find(s.blocked, x);
    if i < |s.blocked| {
      RemoveAtMultiset(s.blocked, i);
    }
  }

  lemma SamePlaces(s: State, t: State)
    requires t.ready == s.ready && t.blocked == s.blocked && t.running == s.running && t.exited == s.exited
    ensures Tcbs(t) == Tcbs(s)
  {
  }

  lemma {:induction false} UnlockJoinsKeepsTcbs(s: State, i: nat, x: ThreadId)
    ensures Tcbs(UnlockJoinsFrom(s, i, x)) == Tcbs(s)
    decreases |s.joins| - i
  {
    hide Tcbs, WakeAndPost;
    if i < |s.joins| {
      if s.joins[i].blocking == x {
        WakeKeepsTcbs(s, s.joins[i].blocked);
        SamePlaces(WakeAndPost(s, s.joins[i].blocked), WakeJoiner(s, i));
        UnlockJoinsKeepsTcbs(WakeJoiner(s, i), i, x);
      } else {
        UnlockJoinsKeepsTcbs(s, i + 1, x);
      }
    }
  }

  lemma ReleaseKeepsTcbs(s: State, i: nat)
    requires i < |s.mutexes|
    ensures Tcbs(Release(s, i)) == Tcbs(s)
  {
    hide Tcbs, WakeAndPost;
    if s.mutexes[i].waiters != [] {
      WakeKeepsTcbs(s, s.mutexes[i].waiters[0]);
      SamePlaces(WakeAndPost(s, s.mutexes[i].waiters[0]), Release(s, i));
    } else {
      SamePlaces(s, Release(s, i));
    }
  }

  lemma UnlockKeepsTcbs(s: State, name: string, tid: nat)
    ensures Tcbs(Unlock(s, name, tid)) == Tcbs(s)
  {
    hide Tcbs, Release, FindMutex;
    var i := FindMutex(s.mutexes, name);
    if i < |s.mutexes| {
      ReleaseKeepsTcbs(s, i);
    }
  }

  lemma {:induction false} ReleaseFromKeepsTcbs(s: State, i: nat, tid: nat)
    requires i <= |s.mutexes|
    ensures Tcbs(ReleaseFrom(s, i, tid)) == Tcbs(s)
    decreases |s.mutexes| - i
  {
    hide Tcbs, WakeAndPost, FindMutex;
    if i < |s.mutexes| {
      if HeldBy(s.mutexes[i], tid) {
        UnlockKeepsTcbs(s, s.mutexes[i].name, tid);
        ReleaseFromKeepsTcbs(Unlock(s, s.mutexes[i].name, tid), i + 1, tid);
      } else {
        ReleaseFromKeepsTcbs(s, i + 1, tid);
      }
    }
  }

  /** A TCB that goes to EXIT while it still counts as running, and then stops running. */
  lemma LeavesToExit(s: State, r: State, t: State)
    requires s.running.Some? && r.running == s.running && t == r.(running := None, active := t.active)
    requires Tcbs(r) == Tcbs(s.(exited := s.exited + [s.running.value]))
    ensures Tcbs(t) == Tcbs(s)
  {
    var me := s.running.value;
    assert Tcbs(s.(exited := s.exited + [me])) == Tcbs(s) + multiset{me};
    assert Tcbs(r) == Tcbs(t) + multiset{me};
    CancelAll(Tcbs(t), Tcbs(s), multiset{me});
  }

  lemma ExitThreadKeepsTcbs(s: State)
    requires Inv(s) && s.running.Some?
    ensures Tcbs(DoExitThread(s)) == Tcbs(s)
  {
    hide Core, Live, LivePids, Counted, PendingOk, Tcbs, UnlockJoinsFrom, ReleaseFrom;
    var me := s.running.value;
    var counts := if me.id.pid in s.active then s.active[me.id.pid := Decremented(s.active[me.id.pid])] else s.active;
    var r := s.(exited := s.exited + [me], active := counts);
    CoreIgnoresExit(s, r);
    HandoverKeeps(r, me.id);
    UnlockJoinsKeepsTcbs(r, 0, me.id);
    ReleaseFromKeepsTcbs(UnlockJoinsFrom(r, 0, me.id), 0, me.id.tid);
    SamePlaces(s.(exited := s.exited + [me]), r);
    LeavesToExit(s, Handover(r, me.id), DoExitThread(s));
  }

  lemma {:induction false} ReleaseFromKeepsSame(s: State, tid: nat)
    requires Core(s)
    ensures SameElsewhere(s, ReleaseFrom(s, 0, tid)) && ReleaseFrom(s, 0, tid).joins == s.joins
  {
    hide Core, Live, LivePids, ReleaseFrom;
    ReleaseFromKeeps(s, 0, tid);
  }

  lemma ExitProcessKeepsTcbs(s: State)
    requires Inv(s) && s.running.Some?
    ensures Tcbs(DoExitProcess(s)) == Tcbs(s)
  {
    hide Core, Live, LivePids, Counted, PendingOk, Tcbs, ReleaseFrom;
    var me := s.running.value;
    var r := s.(exited := s.exited + [me]);
    CoreIgnoresExit(s, r);
    ReleaseFromKeepsSame(r, me.id.tid);
    ReleaseFromKeepsTcbs(r, 0, me.id.tid);
    LeavesToExit(s, ReleaseFrom(r, 0, me.id.tid), DoExitProcess(s));
  }

  lemma BlockKeepsTcbs(s: State, t: State)
    requires s.running.Some? && t.ready == s.ready && t.exited == s.exited
    requires t.blocked == s.blocked + [s.running.value] && t.running.None?
    ensures Tcbs(t) == Tcbs(s)
  {
  }

  lemma CompleteIoKeepsTcbs(s: State)
    requires s.ioQueue != [] && s.semIo > 0
    ensures Tcbs(DoCompleteIo(s)) == Tcbs(s)
  {
    hide Tcbs, WakeAndPost, Find, Has;
    var taken := s.(ioQueue := s.ioQueue[1..], semIo := s.semIo - 1);
    SamePlaces(s, taken);
    WakeKeepsTcbs(taken, s.ioQueue[0].id);
  }

  lemma CompleteDumpKeepsTcbs(s: State, index: nat)
    requires index < |s.dumps|
    ensures Tcbs(DoCompleteDump(s, index)) == Tcbs(s)
  {
    hide Tcbs, WakeAndPost;
    WakeKeepsTcbs(s, s.dumps[index]);
    SamePlaces(WakeAndPost(s, s.dumps[index]), DoCompleteDump(s, index));
  }

  lemma DispatchKeepsTcbs(s: State, policy: Policy)
    requires s.running.None? && s.ready != [] && s.semThreads > 0
    ensures Tcbs(DoDispatch(s, policy)) == Tcbs(s)
  {
    hide Pick;
    RemoveAtMultiset(s.ready, Pick(policy, s.ready));
  }

  lemma LockKeepsTcbs(s: State, name: string)
    requires s.running.Some?
    ensures Tcbs(DoLock(s, name)) == Tcbs(s)
  {
    hide FindMutex;
  }

  lemma JoinKeepsTcbs(s: State, tid: nat)
    requires s.running.Some?
    ensures Tcbs(DoJoin(s, tid)) == Tcbs(s)
  {
    hide Findable;
  }

  lemma SpawnAddsTcb(s: State, pid: nat, count: nat, priority: nat)
    ensures Tcbs(Spawn(s, pid, count, priority)) == Tcbs(s) + multiset{Tcb(ThreadId(pid, count), priority)}
  {
  }

  lemma PreemptKeepsTcbs(s: State)
    requires s.running.Some?
    ensures Tcbs(DoPreempt(s)) == Tcbs(s)
  {
  }

  /** No step loses a TCB, copies one or changes its priority; the new ones have the priority that
      was asked for. */
  lemma StepKeepsTcbs(s: State, step: Step)
    requires Inv(s) && Enabled(s, step)
    ensures Tcbs(Apply(s, step)) == Tcbs(s) + Fresh(s, step)
  {
    hide Inv, Tcbs, Find, FindMutex, FreshTid, Awaited, Owns, DoExitThread, DoExitProcess, UnlockJoinsFrom, Unlock,
      DoLock, DoJoin, DoDispatch, DoCompleteIo, DoCompleteDump, DoPreempt, Spawn;
    match step
    case Dispatch(policy) => DispatchKeepsTcbs(s, policy);
    case ExitProcess => ExitProcessKeepsTcbs(s);
    case SegmentationFault => ExitProcessKeepsTcbs(s);
    case JoinThread(tid) => JoinKeepsTcbs(s, tid);
    case ExitThread => ExitThreadKeepsTcbs(s);
    case CancelThread(tid) => UnlockJoinsKeepsTcbs(s, 0, ThreadId(s.running.value.id.pid, tid));
    case LockMutex(name) => LockKeepsTcbs(s, name);
    case UnlockMutex(name) => UnlockKeepsTcbs(s, name, s.running.value.id.tid);
    case CompleteIo => CompleteIoKeepsTcbs(s);
    case CompleteDump(index) => CompleteDumpKeepsTcbs(s, index);
    case CreateThread(priority) =>
      SpawnAddsTcb(s, s.running.value.id.pid, s.active[s.running.value.id.pid], priority);
    case AdmitHead =>
      SpawnAddsTcb(s, s.pending[0].pid, 0, s.firstThreads[0].priority);
      SamePlaces(Spawn(s, s.pending[0].pid, 0, s.firstThreads[0].priority), DoAdmitHead(s));
    case RequestIo(time) => BlockKeepsTcbs(s, DoRequestIo(s, time));
    case RequestDump => BlockKeepsTcbs(s, DoRequestDump(s));
    case Preempt => PreemptKeepsTcbs(s);
    case _ => SamePlaces(s, Apply(s, step));
  }

  function FreshIn(s: State, steps: seq<Step>): multiset<Tcb>
    requires CanRun(s, steps)
    decreases |steps|
  {
    if steps == [] then multiset{} else Fresh(s, steps[0]) + FreshIn(Apply(s, steps[0]), steps[1..])
  }

  /** Over any run, a thread keeps the priority it was created with, through every wake-up,
      preemption and dispatch. */
  lemma {:induction false} PrioritiesKept(s: State, steps: seq<Step>)
    requires Inv(s) && CanRun(s, steps)
    ensures Tcbs(Run(s, steps)) == Tcbs(s) + FreshIn(s, steps)
    decreases |steps|
  {
    hide Inv, Enabled, Apply, Tcbs, Fresh;
    if steps != [] {
      StepKeeps(s, steps[0]);
      StepKeepsTcbs(s, steps[0]);
      PrioritiesKept(Apply(s, steps[0]), steps[1..]);
    }
  }

  // Who becomes ready

  /** The heir of a mutex that is unlocked by its holder. */
  function UnlockedFor(mutexes: seq<Mutex>, name: string, tid: nat): seq<ThreadId> {
    if mutexes == [] then []
    else if mutexes[0].name == name then
      if HeldBy(mutexes[0], tid) && mutexes[0].waiters != [] then [mutexes[0].waiters[0]] else []
    else UnlockedFor(mutexes[1..], name, tid)
  }

  /** The threads a step makes ready, in the order they enter READY. */
  function Arrivals(s: State, step: Step): seq<ThreadId>
    requires Enabled(s, step)
  {
    match step
    case AdmitHead => [ThreadId(s.pending[0].pid, 0)]
    case CreateThread(_) => [ThreadId(s.running.value.id.pid, s.active[s.running.value.id.pid])]
    case ExitProcess => Heirs(s.mutexes, s.running.value.id.tid)
    case SegmentationFault => Heirs(s.mutexes, s.running.value.id.tid)
    case ExitThread => Joiners(s.joins, s.running.value.id) + Heirs(s.mutexes, s.running.value.id.tid)
    case CancelThread(tid) => Joiners(s.joins, ThreadId(s.running.value.id.pid, tid))
    case UnlockMutex(name) => UnlockedFor(s.mutexes, name, s.running.value.id.tid)
    case CompleteIo => [s.ioQueue[0].id]
    case CompleteDump(index) => [s.dumps[index]]
    case Preempt => [s.running.value.id]
    case _ => []
  }

  /** PROCESS_EXIT and a segmentation fault: the new owners of the mutexes become ready in creation
      order, and no join is touched. */
  lemma ExitProcessEffect(s: State)
    requires Inv(s) && s.running.Some?
    ensures var tid := s.running.value.id.tid; var t := DoExitProcess(s);
      && t.joins == s.joins && |t.mutexes| == |s.mutexes|
      && (forall j :: 0 <= j < |s.mutexes| ==> t.mutexes[j] == AfterExit(s.mutexes[j], tid))
      && Ids(t.ready) == Ids(s.ready) + Heirs(s.mutexes, tid)
      && t.semThreads == s.semThreads + |Heirs(s.mutexes, tid)|
      && SameElsewhere(s.(running := None, exited := t.exited, active := t.active), t)
  {
    hide Core, Live, LivePids, Counted, PendingOk, ReleaseFrom, Heirs, AfterExit, Ids;
    var r := s.(exited := s.exited + [s.running.value]);
    CoreIgnoresExit(s, r);
    ReleaseFromKeepsSame(r, s.running.value.id.tid);
    ReleaseFromEffect(r, 0, s.running.value.id.tid);
    assert r.mutexes[0..] == s.mutexes;
  }

  /** THREAD_EXIT outside the lists it hands over: one more TCB in EXIT and one thread fewer. */
  lemma ExitThreadRest(s: State)
    requires Inv(s) && s.running.Some?
    ensures var pid := s.running.value.id.pid; var t := DoExitThread(s);
      && pid in s.active && t.active == s.active[pid := s.active[pid] - 1]
      && SameElsewhere(s.(running := None, exited := s.exited + [s.running.value], active := t.active), t)
  {
    hide Core, Live, PendingOk, Handover, Ids, Pids;
    var me := s.running.value;
    LiveWithoutRunning(s);
    assert LivePids(s)[me.id.pid] > 0;
    hide LivePids, Counted;
    var r := s.(exited := s.exited + [me], active := s.active[me.id.pid := s.active[me.id.pid] - 1]);
    CoreIgnoresExit(s, r);
    HandoverKeeps(r, me.id);
    assert DoExitThread(s) == Handover(r, me.id).(running := None);
  }

  /** When READY only grows by the threads woken, nobody else has changed place. */
  lemma StaysPut(s: State, t: State, x: ThreadId, woken: seq<ThreadId>)
    requires Ids(t.ready) == Ids(s.ready) + woken && Live(t) == Live(s) && t.running == s.running
    ensures Has(s.ready, x) ==> Has(t.ready, x)
    ensures Has(s.blocked, x) && x !in woken ==> Has(t.blocked, x)
  {
    hide Ids, Find;
    HasMeansMember(s.ready, x);
    HasMeansMember(t.ready, x);
    HasMeansMember(s.blocked, x);
    HasMeansMember(t.blocked, x);
    assert multiset(Ids(t.ready)) == multiset(Ids(s.ready)) + multiset(woken);
    assert Live(t)[x] == Live(s)[x];
  }

  /** THREAD_CANCEL wakes everybody who waits for the target, in join order and with one post each,
      and drops exactly their records; the target stays live where it was, and all else is equal. */
  lemma CancelEffect(s: State, tid: nat)
    requires Inv(s) && s.running.Some?
    ensures var x := ThreadId(s.running.value.id.pid, tid); var t := DoCancel(s, tid); var woken := Joiners(s.joins, x);
      && t.joins == OtherJoins(s.joins, x) && !Awaited(t, x)
      && Ids(t.ready) == Ids(s.ready) + woken && t.semThreads == s.semThreads + |woken|
      && (Known(t, x) <==> Known(s, x)) && (Has(s.ready, x) ==> Has(t.ready, x))
      && (Has(s.blocked, x) && x !in woken ==> Has(t.blocked, x))
      && Live(t) == Live(s) && t.mutexes == s.mutexes && SameElsewhere(s, t)
  {
    hide Live, LivePids, Counted, PendingOk, UnlockJoinsFrom, Joiners, OtherJoins, Known, JoinsOk, MutexesOk, Waiting;
    var x := ThreadId(s.running.value.id.pid, tid);
    assert Core(s) by { InvHasCore(s); }
    UnlockJoinsKeeps(s, 0, x);
    UnlockJoinsEffect(s, 0, x);
    assert s.joins[0..] == s.joins;
    hide Core;
    var t := DoCancel(s, tid);
    assert t.joins == OtherJoins(s.joins, x);
    KnownMeansLive(s, x);
    KnownMeansLive(t, x);
    StaysPut(s, t, x, Joiners(s.joins, x));
  }

  lemma {:induction false} UnlockedAt(mutexes: seq<Mutex>, name: string, tid: nat)
    ensures var i := FindMutex(mutexes, name);
      UnlockedFor(mutexes, name, tid)
      == if i < |mutexes| && HeldBy(mutexes[i], tid) && mutexes[i].waiters != [] then [mutexes[i].waiters[0]] else []
  {
    if mutexes != [] && mutexes[0].name != name {
      UnlockedAt(mutexes[1..], name, tid);
    }
  }

  lemma {:induction false} UnlockArrivals(s: State, name: string, tid: nat)
    requires Core(s)
    ensures Ids(Unlock(s, name, tid).ready) == Ids(s.ready) + UnlockedFor(s.mutexes, name, tid)
  {
    hide Core, Release, FindMutex, Ids, UnlockedFor;
    UnlockedAt(s.mutexes, name, tid);
    var i := FindMutex(s.mutexes, name);
    if i < |s.mutexes| && HeldBy(s.mutexes[i], tid) {
      ReleaseWakes(s, i);
    }
  }

  lemma CompletionArrivals(s: State, t: State, x: ThreadId)
    requires Has(s.blocked, x) && t.ready == WakeAndPost(s, x).ready
    ensures Ids(t.ready) == Ids(s.ready) + [x]
  {
    HasMeansMember(s.blocked, x);
    WakeMovesOne(s, x);
  }

  lemma ReadyGains(s: State, t: State, x: Tcb)
    requires t.ready == s.ready + [x]
    ensures Ids(t.ready) == Ids(s.ready) + [x.id]
  {
    ListAppend(s.ready, x);
  }

  lemma HandoverArrivals(s: State, step: Step)
    requires Inv(s) && Enabled(s, step)
    requires step.ExitProcess? || step.SegmentationFault? || step.ExitThread? || step.CancelThread? || step.UnlockMutex?
    ensures Ids(Apply(s, step).ready) == Ids(s.ready) + Arrivals(s, step)
  {
    hide Core, Counted, PendingOk, Ids, Find, FindMutex, Findable, DoExitThread, DoExitProcess, DoCancel, Unlock,
      Joiners, OtherJoins, Heirs, UnlockedFor, AfterExit;
    match step
    case ExitProcess => ExitProcessEffect(s);
    case SegmentationFault => ExitProcessEffect(s);
    case ExitThread => ExitThreadEffect(s);
    case CancelThread(tid) => CancelEffect(s, tid);
    case UnlockMutex(name) => UnlockArrivals(s, name, s.running.value.id.tid);
  }

  lemma CompletedArrivals(s: State, step: Step)
    requires Inv(s) && Enabled(s, step) && (step.CompleteIo? || step.CompleteDump?)
    ensures Ids(Apply(s, step).ready) == Ids(s.ready) + Arrivals(s, step)
  {
    hide Core, Counted, PendingOk, Ids, Find, Has;
    if step.CompleteIo? {
      CompleteIoKeeps(s);
      CompletionArrivals(s, Apply(s, step), s.ioQueue[0].id);
    } else {
      CompleteDumpKeeps(s, step.index);
      CompletionArrivals(s, Apply(s, step), s.dumps[step.index]);
    }
  }

  /** Every step but a dispatch makes exactly its arrivals ready, at the tail and in their order. */
  lemma ReadyGrows(s: State, step: Step)
    requires Inv(s) && Enabled(s, step) && !step.Dispatch?
    ensures Ids(Apply(s, step).ready) == Ids(s.ready) + Arrivals(s, step)
  {
    hide Inv, Ids, Find, FindMutex, FreshTid, Findable, Awaited, Owns, DoExitThread, DoExitProcess, DoCancel, Unlock,
      DoCompleteIo, DoCompleteDump, Joiners, Heirs, UnlockedFor;
    match step
    case AdmitHead => ReadyGains(s, Apply(s, step), Tcb(ThreadId(s.pending[0].pid, 0), s.firstThreads[0].priority));
    case CreateThread(priority) =>
      ReadyGains(s, Apply(s, step), Tcb(ThreadId(s.running.value.id.pid, s.active[s.running.value.id.pid]), priority));
    case Preempt => ReadyGains(s, Apply(s, step), s.running.value);
    case CompleteIo => CompletedArrivals(s, step);
    case CompleteDump(_) => CompletedArrivals(s, step);
    case ExitProcess => HandoverArrivals(s, step);
    case SegmentationFault => HandoverArrivals(s, step);
    case ExitThread => HandoverArrivals(s, step);
    case CancelThread(_) => HandoverArrivals(s, step);
    case UnlockMutex(_) => HandoverArrivals(s, step);
    case _ =>
  }

  // Who stops running

  /** The mutex can be had at once: nobody holds it, or the thread itself does. */
  predicate Obtainable(m: Mutex, x: ThreadId) {
    m.taken ==> IsOwner(m, x)
  }

  /** The running thread cannot go on: it finishes, is interrupted, asks for IO or a dump, joins
      another live thread, or locks a mutex that is missing or another's. */
  ghost predicate GivesWay(s: State, step: Step)
    requires s.running.Some?
  {
    var me := s.running.value.id;
    match step
    case JoinThread(tid) => tid != me.tid && Known(s, ThreadId(me.pid, tid))
    case LockMutex(name) =>
      !(exists i :: 0 <= i < |s.mutexes| && s.mutexes[i].name == name && Obtainable(s.mutexes[i], me))
    case _ => step.RequestIo? || step.RequestDump? || step.Preempt? || step.ExitThread? || step.ExitProcess?
              || step.SegmentationFault?
  }

  lemma SearchesTheRest(s: State, tid: nat)
    requires Core(s) && s.running.Some?
    ensures var me := s.running.value.id; var x := ThreadId(me.pid, tid);
      Findable(s, x) <==> tid != me.tid && Known(s, x)
  {
    hide MutexesOk, JoinsOk, Waiting, Find, Has, Ids;
    var me := s.running.value.id;
    HasMeansMember(s.ready, me);
    HasMeansMember(s.blocked, me);
    assert Live(s)[me] <= 1;
  }

  lemma LockGoesOn(s: State, name: string)
    requires Inv(s) && Enabled(s, LockMutex(name))
    ensures DoLock(s, name).running == if GivesWay(s, LockMutex(name)) then None else s.running
  {
    hide Live, LivePids, Counted, PendingOk, Waiting, JoinsOk, AtMostOnce, Awaited, Owns, FindMutex;
    var me := s.running.value.id;
    var i := FindMutex(s.mutexes, name);
    if j :| 0 <= j < |s.mutexes| && s.mutexes[j].name == name && Obtainable(s.mutexes[j], me) {
      FindMutexUnique(s.mutexes, j, Live(s));
      assert MutexOk(s.mutexes[i], Live(s));
    } else if i < |s.mutexes| {
      assert MutexOk(s.mutexes[i], Live(s));
      assert !Obtainable(s.mutexes[i], me);
    }
  }

  /** The running thread goes on after every syscall unless it gives way; completions, creations and
      admissions never take the processor from it. */
  lemma RunsUnlessGivesWay(s: State, step: Step)
    requires Inv(s) && Enabled(s, step) && s.running.Some?
    ensures Apply(s, step).running == if GivesWay(s, step) then None else s.running
  {
    hide Live, LivePids, Core, Counted, PendingOk, Known, Find, FindMutex, FreshTid, Findable, Awaited, Owns,
      DoExitThread, DoExitProcess, DoCancel, DoLock, Ids;
    match step
    case ExitProcess => ExitProcessEffect(s);
    case SegmentationFault => ExitProcessEffect(s);
    case ExitThread => ExitThreadRest(s);
    case CancelThread(tid) => CancelEffect(s, tid);
    case JoinThread(tid) => SearchesTheRest(s, tid);
    case LockMutex(name) => LockGoesOn(s, name);
    case _ =>
  }

  predicate Takes(ready: seq<Tcb>, i: nat, policy: Policy)
    requires i < |ready|
  {
    match policy
    case Fifo => i == 0
    case Priorities => forall j :: 0 <= j < |ready| ==>
      if j < i then ready[i].priority < ready[j].priority else ready[i].priority <= ready[j].priority
  }

  lemma {:induction false} DispatchTakes(s: State, policy: Policy)
    requires s.ready != [] && s.semThreads > 0
    ensures var t := DoDispatch(s, policy);
      exists i :: 0 <= i < |s.ready| && Takes(s.ready, i, policy)
        && t.running == Some(s.ready[i]) && t.ready == s.ready[..i] + s.ready[i + 1..]
  {
    var i := Pick(policy, s.ready);
    assert Takes(s.ready, i, policy);
  }

  /** With nobody running, only a dispatch makes somebody run: a thread of READY, the head under FIFO
      and otherwise the earliest of the smallest priority values. */
  lemma OnlyDispatchRuns(s: State, step: Step)
    requires Inv(s) && Enabled(s, step) && s.running.None?
    ensures var t := Apply(s, step);
      if step.Dispatch? then
        exists i :: 0 <= i < |s.ready| && Takes(s.ready, i, step.policy)
          && t.running == Some(s.ready[i]) && t.ready == s.ready[..i] + s.ready[i + 1..]
      else t.running == None
  {
    hide Core, Counted, PendingOk, Find, FindMutex, FreshTid, Awaited, Owns, Pick, RemoveAt;
    if step.Dispatch? {
      DispatchTakes(s, step.policy);
    }
  }

  // Which waits begin and end

  lemma UnlockKeepsRest(s: State, name: string)
    requires Inv(s) && s.running.Some?
    ensures var t := Unlock(s, name, s.running.value.id.tid); t.joins == s.joins && SameElsewhere(s, t)
  {
    hide Core, Live, LivePids, Counted, PendingOk, Release, FindMutex;
    var i := FindMutex(s.mutexes, name);
    if i < |s.mutexes| && HeldBy(s.mutexes[i], s.running.value.id.tid) {
      ReleaseKeeps(s, i);
    }
  }

  /** Only a join that gives way adds a record, at the tail; exits and cancellations drop the records
      of those who waited for that thread, and nothing else removes one. */
  lemma JoinsChange(s: State, step: Step)
    requires Inv(s) && Enabled(s, step)
    ensures Apply(s, step).joins ==
      match step
      case JoinThread(tid) =>
        var me := s.running.value.id;
        s.joins + if GivesWay(s, step) then [Join(me, ThreadId(me.pid, tid))] else []
      case ExitThread => OtherJoins(s.joins, s.running.value.id)
      case CancelThread(tid) => OtherJoins(s.joins, ThreadId(s.running.value.id.pid, tid))
      case _ => s.joins
  {
    hide Live, LivePids, Core, Counted, PendingOk, Known, Find, FindMutex, FreshTid, Findable, Awaited, Owns,
      DoExitThread, DoExitProcess, DoCancel, Ids, OtherJoins, Joiners, Heirs, AfterExit;
    match step
    case ExitProcess => ExitProcessEffect(s);
    case SegmentationFault => ExitProcessEffect(s);
    case ExitThread => ExitThreadEffect(s);
    case CancelThread(tid) => CancelEffect(s, tid);
    case JoinThread(tid) => SearchesTheRest(s, tid);
    case UnlockMutex(name) => UnlockKeepsRest(s, name);
    case _ =>
  }

  /** IO requests queue up in order with their times and are served from the head; dumps in flight
      end in any order. No other step touches either. */
  lemma RequestsChange(s: State, step: Step)
    requires Inv(s) && Enabled(s, step)
    ensures Apply(s, step).ioQueue ==
      match step
      case RequestIo(time) => s.ioQueue + [IoRequest(s.running.value.id, time)]
      case CompleteIo => s.ioQueue[1..]
      case _ => s.ioQueue
    ensures Apply(s, step).dumps ==
      match step
      case RequestDump => s.dumps + [s.running.value.id]
      case CompleteDump(index) => s.dumps[..index] + s.dumps[index + 1..]
      case _ => s.dumps
  {
    hide Live, LivePids, Core, Counted, PendingOk, Known, Find, FindMutex, FreshTid, Findable, Awaited, Owns,
      DoExitThread, DoExitProcess, DoCancel, Ids, OtherJoins, Joiners, Heirs, AfterExit;
    match step
    case ExitProcess => ExitProcessEffect(s);
    case SegmentationFault => ExitProcessEffect(s);
    case ExitThread => ExitThreadRest(s);
    case CancelThread(tid) => CancelEffect(s, tid);
    case UnlockMutex(name) => UnlockKeepsRest(s, name);
    case _ =>
  }

  // What becomes of a mutex

  /** A lock takes the mutex at once or joins the tail of its queue. */
  function Locked(m: Mutex, x: ThreadId): Mutex {
    if Obtainable(m, x) then m.(taken := true, tid := x.tid)
    else m.(waiters := m.waiters + [x], blockedCount := m.blockedCount + 1)
  }

  /** What a step makes of an existing mutex: only its own lock, its unlock by the holder and the
      holder's exit change it. */
  function MutexAfter(s: State, step: Step, m: Mutex): Mutex
    requires Enabled(s, step)
  {
    match step
    case LockMutex(name) => if m.name == name then Locked(m, s.running.value.id) else m
    case UnlockMutex(name) => if m.name == name then AfterExit(m, s.running.value.id.tid) else m
    case ExitThread => AfterExit(m, s.running.value.id.tid)
    case ExitProcess => AfterExit(m, s.running.value.id.tid)
    case SegmentationFault => AfterExit(m, s.running.value.id.tid)
    case _ => m
  }

  /** The mutexes a step adds: one, free and of the caller's process, when the name is new. */
  ghost function MutexesAdded(s: State, step: Step): seq<Mutex>
    requires Enabled(s, step)
  {
    if step.CreateMutex? && (forall i :: 0 <= i < |s.mutexes| ==> s.mutexes[i].name != step.name)
    then [Mutex(step.name, s.running.value.id.pid, false, -1, [], 0)]
    else []
  }

  lemma {:induction false} NamedOnce(s: State, name: string, j: nat)
    requires Core(s) && j < |s.mutexes|
    ensures s.mutexes[j].name == name <==> FindMutex(s.mutexes, name) == j
  {
    hide Live, JoinsOk, Waiting, AtMostOnce, MutexOk;
    if s.mutexes[j].name == name {
      FindMutexUnique(s.mutexes, j, Live(s));
    }
  }

  lemma LockChanges(s: State, name: string, j: nat)
    requires Inv(s) && Enabled(s, LockMutex(name)) && j < |s.mutexes|
    ensures |DoLock(s, name).mutexes| == |s.mutexes|
    ensures DoLock(s, name).mutexes[j] == MutexAfter(s, LockMutex(name), s.mutexes[j])
  {
    hide Live, LivePids, Counted, PendingOk, Waiting, JoinsOk, AtMostOnce, Awaited, Owns, FindMutex;
    NamedOnce(s, name, j);
    if s.mutexes[j].name == name {
      assert MutexOk(s.mutexes[j], Live(s));
    }
  }

  lemma UnlockChanges(s: State, name: string, j: nat)
    requires Inv(s) && Enabled(s, UnlockMutex(name)) && j < |s.mutexes|
    ensures var t := Unlock(s, name, s.running.value.id.tid);
      |t.mutexes| == |s.mutexes| && t.mutexes[j] == MutexAfter(s, UnlockMutex(name), s.mutexes[j])
  {
    hide Core, Counted, PendingOk, Release, Released, FindMutex;
    NamedOnce(s, name, j);
    var i := FindMutex(s.mutexes, name);
    if HeldBy(s.mutexes[i], s.running.value.id.tid) {
      ReleaseKeeps(s, i);
    }
  }

  lemma CreateMutexAdds(s: State, name: string)
    requires s.running.Some?
    ensures DoCreateMutex(s, name).mutexes == s.mutexes + MutexesAdded(s, CreateMutex(name))
  {
    var i := FindMutex(s.mutexes, name);
    assert i < |s.mutexes| ==> s.mutexes[i].name == name;
  }

  lemma LockLength(s: State, name: string)
    requires s.running.Some?
    ensures |DoLock(s, name).mutexes| == |s.mutexes|
  {
    hide FindMutex;
  }

  /** Every mutex, step by step: each existing one becomes what its rule says, in its place, and a new
      name is added at the tail. */
  lemma MutexesChange(s: State, step: Step)
    requires Inv(s) && Enabled(s, step)
    ensures var t := Apply(s, step); var added := MutexesAdded(s, step);
      && |t.mutexes| == |s.mutexes| + |added| && t.mutexes[|s.mutexes|..] == added
      && forall j :: 0 <= j < |s.mutexes| ==> t.mutexes[j] == MutexAfter(s, step, s.mutexes[j])
  {
    hide Core, Counted, PendingOk, Find, FindMutex, FreshTid, Findable, Awaited, Owns, DoExitThread, DoExitProcess,
      DoCancel, DoLock, Unlock, DoCreateMutex, Ids, OtherJoins, Joiners, Heirs, AfterExit, Locked;
    var t := Apply(s, step);
    match step
    case ExitProcess => ExitProcessEffect(s);
    case SegmentationFault => ExitProcessEffect(s);
    case ExitThread => ExitThreadEffect(s);
    case CancelThread(tid) => CancelEffect(s, tid);
    case CreateMutex(name) => CreateMutexAdds(s, name);
    case LockMutex(name) => LockLength(s, name);
      forall j | 0 <= j < |s.mutexes| ensures t.mutexes[j] == MutexAfter(s, step, s.mutexes[j]) {
        LockChanges(s, name, j);
      }
    case UnlockMutex(name) =>
      forall j | 0 <= j < |s.mutexes|
        ensures |t.mutexes| == |s.mutexes| && t.mutexes[j] == MutexAfter(s, step, s.mutexes[j])
      {
        UnlockChanges(s, name, j);
      }
    case _ =>
  }

  // Which steps are covered

  ghost predicate Named(s: State, name: string, i: nat) {
    i < |s.mutexes| && s.mutexes[i].name == name
  }

  ghost predicate CoveredSyscall(s: State, step: Step)
    requires s.running.Some?
  {
    var me := s.running.value.id;
    match step
    case CreateThread(priority) => me.pid in s.active && Inv(DoCreateThread(s, priority))
    case LockMutex(name) =>
      && (forall i: nat :: Named(s, name, i) ==> s.mutexes[i].pid == me.pid)
      && ((exists i: nat :: Named(s, name, i)) || Inv(DoLock(s, name)))
    case UnlockMutex(name) => exists i: nat :: Named(s, name, i)
    case CancelThread(tid) => tid != me.tid && Known(s, ThreadId(me.pid, tid))
    case ExitProcess => me.tid == 0 && me.pid in s.active && s.active[me.pid] == 1
    case SegmentationFault => me.tid == 0 && me.pid in s.active && s.active[me.pid] == 1
    case _ => true
  }

  /** Said without the kernel's searches and semaphores: every syscall of a running thread is covered,
      except a creation or a lock that would break the invariant, a lock of another process's mutex,
      an unlock of a missing one, a cancellation that finds nobody, and the end of a process whose
      running thread is not thread 0 with a thread count of one. */
  ghost predicate Covered(s: State, step: Step) {
    match step
    case Dispatch(_) => s.running.None? && s.ready != []
    case CreateProcess(_, _) => true
    case AdmitHead => s.pending != []
    case CompleteIo => s.ioQueue != []
    case CompleteDump(index) => index < |s.dumps|
    case _ => s.running.Some? && CoveredSyscall(s, step)
  }

  lemma LockCovered(s: State, name: string)
    requires Inv(s) && s.running.Some?
    ensures Enabled(s, LockMutex(name)) <==> Covered(s, LockMutex(name))
  {
    hide Core, Counted, PendingOk, FindMutex, Awaited, Owns, DoLock;
    var i := FindMutex(s.mutexes, name);
    if i < |s.mutexes| {
      assert Named(s, name, i);
      forall j: nat | Named(s, name, j) ensures j == i {
        NamedOnce(s, name, j);
      }
    } else {
      LockMissingKeepsIff(s, name);
    }
  }

  lemma UnlockCovered(s: State, name: string)
    requires s.running.Some?
    ensures Enabled(s, UnlockMutex(name)) <==> Covered(s, UnlockMutex(name))
  {
    var i := FindMutex(s.mutexes, name);
    assert i < |s.mutexes| ==> Named(s, name, i);
  }

  lemma RunningAdmitted(s: State)
    requires Counted(s) && s.running.Some?
    ensures s.running.value.id.pid in s.active
  {
    hide Ids, Pids;
    LiveWithoutRunning(s);
    assert LivePids(s)[s.running.value.id.pid] > 0;
  }

  lemma CoveredIff(s: State, step: Step)
    requires Inv(s)
    ensures Enabled(s, step) <==> Covered(s, step)
  {
    hide JoinsOk, MutexesOk, Live, LivePids, AtMostOnce, Waiting, Counted, Find, FindMutex, FreshTid, Findable, Known,
      Awaited, Owns, DoLock, DoCreateThread, Named;
    if s.running.Some? {
      match step
      case CreateThread(priority) =>
        RunningAdmitted(s);
        hide Core, PendingOk;
        CreateThreadKeepsIff(s, priority);
      case LockMutex(name) => LockCovered(s, name);
      case UnlockMutex(name) => UnlockCovered(s, name);
      case CancelThread(tid) => SearchesTheRest(s, tid);
      case _ =>
    }
  }
}
