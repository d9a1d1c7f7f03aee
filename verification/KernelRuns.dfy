/** The invariant over whole runs, and what it means for the code's wake-ups and searches. */
module KernelRuns {
  import opened Lists
  import opened KernelState
  import opened KernelInvariant

  /** Every thread that was ever created, wherever it is now. */
  function Population(s: State): multiset<ThreadId> {
    Live(s) + multiset(Ids(s.exited))
  }

  /** The thread a step brings into being, if any. */
  function Created(s: State, step: Step): multiset<ThreadId>
    requires Enabled(s, step)
  {
    match step
    case CreateThread(_) =>
      var pid := s.running.value.id.pid;
      multiset{ThreadId(pid, s.active[pid])}
    case AdmitHead => multiset{ThreadId(s.pending[0].pid, 0)}
    case _ => multiset{}
  }

  /** The process of a thread that ended by locking a mutex nobody created. */
  function Stranded(s: State, step: Step): multiset<nat>
    requires Enabled(s, step)
  {
    if step.LockMutex? && FindMutex(s.mutexes, step.name) == |s.mutexes| then multiset{s.running.value.id.pid}
    else multiset{}
  }

  /** The processes of the threads a step ends and begins. */
  function Ended(s: State, step: Step): multiset<nat>
    requires Enabled(s, step)
  {
    if step.ExitThread? || step.ExitProcess? || step.SegmentationFault? then multiset{s.running.value.id.pid}
    else Stranded(s, step)
  }

  function Begun(s: State, step: Step): multiset<nat>
    requires Enabled(s, step)
  {
    match step
    case AdmitHead => multiset{s.pending[0].pid}
    case CreateThread(_) => multiset{s.running.value.id.pid}
    case _ => multiset{}
  }

  function CreatedBy(s: State, steps: seq<Step>): multiset<ThreadId>
    requires CanRun(s, steps)
    decreases |steps|
  {
    if steps == [] then multiset{}
    else Created(s, steps[0]) + CreatedBy(Apply(s, steps[0]), steps[1..])
  }

  lemma ExitedGrows(s: State, t: State, x: Tcb)
    requires t.exited == s.exited + [x] && Live(s) == Live(t) + multiset{x.id}
    ensures Population(t) == Population(s)
  {
    ListAppend(s.exited, x);
  }

  lemma CancelMovesOnly(s: State, tid: nat)
    requires Inv(s) && s.running.Some?
    ensures DoCancel(s, tid).exited == s.exited && DoCancel(s, tid).running == s.running
  {
    hide Core, Live, LivePids, UnlockJoinsFrom;
    UnlockJoinsKeeps(s, 0, ThreadId(s.running.value.id.pid, tid));
  }

  /** Only a finishing thread is added to EXIT. */
  lemma ExitedOnlyGrows(s: State, step: Step)
    requires Inv(s) && Enabled(s, step)
    ensures Apply(s, step).exited == s.exited
      || (s.running.Some? && Apply(s, step).exited == s.exited + [s.running.value]
          && (step.ExitThread? || step.ExitProcess? || step.SegmentationFault?
              || (step.LockMutex? && FindMutex(s.mutexes, step.name) == |s.mutexes|)))
  {
    hide Core, Counted, PendingOk, Find, Pick, FindMutex, FreshTid, Owns, Awaited;
    match step
    case ExitThread => ExitThreadKeeps(s);
    case ExitProcess => ExitProcessKeeps(s);
    case SegmentationFault => ExitProcessKeeps(s);
    case CancelThread(tid) => CancelMovesOnly(s, tid);
    case _ =>
  }

  lemma ExitedSame(s: State, t: State, created: multiset<ThreadId>)
    requires t.exited == s.exited && Live(t) == Live(s) + created
    ensures Population(t) == Population(s) + created
  {
    hide Live, Ids;
  }

  lemma LockBalances(s: State, name: string)
    requires Inv(s) && Enabled(s, LockMutex(name))
    ensures Inv(DoLock(s, name)) && Population(DoLock(s, name)) == Population(s)
    ensures LivePids(DoLock(s, name)) + Stranded(s, LockMutex(name)) == LivePids(s)
  {
    hide Inv, Live, LivePids, Population, FindMutex, Awaited, Owns, Ids;
    if FindMutex(s.mutexes, name) == |s.mutexes| {
      LockMissingKeepsIff(s, name);
      ExitedGrows(s, DoLock(s, name), s.running.value);
    } else {
      LockKeeps(s, name);
      ExitedSame(s, DoLock(s, name), multiset{});
    }
  }

  lemma OthersKeep(s: State, step: Step)
    requires Inv(s) && Enabled(s, step) && !step.ExitProcess? && !step.SegmentationFault? && !step.ExitThread?
    requires !step.LockMutex?
    ensures Inv(Apply(s, step)) && Live(Apply(s, step)) == Live(s) + Created(s, step)
    ensures LivePids(Apply(s, step)) == LivePids(s) + Begun(s, step)
  {
    hide Inv, Live, LivePids, Find, FindMutex, FreshTid, Awaited, Owns, Ids, DoDispatch, DoCreateProcess,
      DoAdmitHead, DoCreateThread, DoJoin, DoCancel, DoCreateMutex, Unlock, DoRequestIo, DoCompleteIo, DoRequestDump,
      DoCompleteDump, DoPreempt;
    match step
    case Dispatch(policy) => DispatchKeeps(s, policy);
    case CreateProcess(size, priority) => CreateProcessKeeps(s, size, priority);
    case AdmitHead => AdmitHeadKeeps(s);
    case CancelThread(tid) => CancelKeeps(s, tid);
    case CreateThread(priority) => CreateThreadKeepsIff(s, priority);
    case JoinThread(tid) => JoinKeeps(s, tid);
    case CreateMutex(name) => CreateMutexKeeps(s, name);
    case UnlockMutex(name) => UnlockKeeps(s, name, s.running.value.id.tid);
    case RequestIo(time) => RequestIoKeeps(s, time);
    case CompleteIo => CompleteIoKeeps(s);
    case RequestDump => RequestDumpKeeps(s);
    case CompleteDump(index) => CompleteDumpKeeps(s, index);
    case Preempt => PreemptKeeps(s);
  }

  lemma StepBalances(s: State, step: Step)
    requires Inv(s) && Enabled(s, step)
    ensures Inv(Apply(s, step))
    ensures Population(Apply(s, step)) == Population(s) + Created(s, step)
    ensures LivePids(Apply(s, step)) + Ended(s, step) == LivePids(s) + Begun(s, step)
  {
    hide Inv, Live, LivePids, Population, Find, FindMutex, FreshTid, Awaited, Owns, Ids, DoDispatch, DoCreateProcess,
      DoAdmitHead, DoExitProcess, DoCreateThread, DoJoin, DoExitThread, DoCancel, DoCreateMutex, DoLock, Unlock,
      DoRequestIo, DoCompleteIo, DoRequestDump, DoCompleteDump, DoPreempt;
    ExitedOnlyGrows(s, step);
    match step
    case ExitProcess =>
      ExitProcessKeeps(s);
      ExitedGrows(s, DoExitProcess(s), s.running.value);
    case SegmentationFault =>
      ExitProcessKeeps(s);
      ExitedGrows(s, DoExitProcess(s), s.running.value);
    case ExitThread =>
      ExitThreadKeeps(s);
      ExitedGrows(s, DoExitThread(s), s.running.value);
    case LockMutex(name) => LockBalances(s, name);
    case _ =>
      OthersKeep(s, step);
      ExitedSame(s, Apply(s, step), Created(s, step));
  }

  /** One step keeps the invariant, and every thread alive before it is alive or exited after. */
  lemma StepKeeps(s: State, step: Step)
    requires Inv(s) && Enabled(s, step)
    ensures Inv(Apply(s, step))
    ensures Population(Apply(s, step)) == Population(s) + Created(s, step)
  {
    hide *;
    StepBalances(s, step);
  }

  lemma {:induction false} RunKeeps(s: State, steps: seq<Step>)
    requires Inv(s) && CanRun(s, steps)
    ensures Inv(Run(s, steps))
    ensures Population(Run(s, steps)) == Population(s) + CreatedBy(s, steps)
    decreases |steps|
  {
    hide Inv, Enabled, Apply, Population, Created;
    if steps != [] {
      StepKeeps(s, steps[0]);
      RunKeeps(Apply(s, steps[0]), steps[1..]);
    }
  }

  lemma BootOk()
    ensures Inv(Boot) && Population(Boot) == multiset{}
  {
  }

  /** No thread is lost or duplicated in any run from start-up: READY, BLOCKED, EXIT and the
      running thread together are exactly the threads created so far, no live thread is in two
      places, and BLOCKED is the disjoint union of join waiters, pending IO, mutex waiters and
      dumps in flight. */
  lemma {:induction false} NoThreadLost(steps: seq<Step>)
    requires CanRun(Boot, steps)
    ensures var s := Run(Boot, steps);
      && multiset(Ids(s.ready)) + multiset(Ids(s.blocked)) + multiset(RunningIds(s)) + multiset(Ids(s.exited))
         == CreatedBy(Boot, steps)
      && (forall x :: (multiset(Ids(s.ready)) + multiset(Ids(s.blocked)) + multiset(RunningIds(s)))[x] <= 1)
      && multiset(Ids(s.blocked))
         == multiset(JoinWaiters(s.joins)) + multiset(IoWaiters(s.ioQueue)) + MutexWaiters(s.mutexes)
           + multiset(s.dumps)
  {
    hide Run, CanRun, CreatedBy, Counted, PendingOk, JoinsOk, MutexesOk, Ids, JoinWaiters, IoWaiters, MutexWaiters;
    BootOk();
    RunKeeps(Boot, steps);
    assert multiset{} + CreatedBy(Boot, steps) == CreatedBy(Boot, steps);
  }

  /** The thread semaphore counts READY in every reachable state, so a passed wait always finds a
      thread, and removing the chosen thread from READY once more changes nothing. */
  lemma {:induction false} SemaphoreCountsReady(steps: seq<Step>, policy: Policy)
    requires CanRun(Boot, steps)
    ensures var s := Run(Boot, steps);
      && s.semThreads == |s.ready| && s.semIo == |s.ioQueue|
      && (s.running.None? && s.semThreads > 0 ==>
            Enabled(s, Dispatch(policy))
            && !Has(DoDispatch(s, policy).ready, DoDispatch(s, policy).running.value.id))
  {
    BootOk();
    RunKeeps(Boot, steps);
    var s := Run(Boot, steps);
    if s.running.None? && s.semThreads > 0 {
      hide Run, CanRun;
      DispatchedOnce(s, policy);
    }
  }

  lemma DispatchedOnce(s: State, policy: Policy)
    requires Inv(s) && s.running.None? && s.ready != []
    ensures !Has(DoDispatch(s, policy).ready, DoDispatch(s, policy).running.value.id)
  {
    DispatchKeeps(s, policy);
    var t := DoDispatch(s, policy);
    hide Find, Pick;
    HasMeansMember(t.ready, t.running.value.id);
    assert Live(t)[t.running.value.id] <= 1;
  }

  /** Every wake-up finds its thread BLOCKED: the branches that report a missing thread for a
      join, an IO completion, a finished dump or a mutex hand-off are never taken. */
  lemma {:induction false} WakeUpsFindTheirThread(steps: seq<Step>)
    requires CanRun(Boot, steps)
    ensures var s := Run(Boot, steps);
      && (forall i :: 0 <= i < |s.joins| ==> Has(s.blocked, s.joins[i].blocked))
      && (forall i :: 0 <= i < |s.ioQueue| ==> Has(s.blocked, s.ioQueue[i].id))
      && (forall i :: 0 <= i < |s.dumps| ==> Has(s.blocked, s.dumps[i]))
      && (forall i, j :: 0 <= i < |s.mutexes| && 0 <= j < |s.mutexes[i].waiters| ==>
            Has(s.blocked, s.mutexes[i].waiters[j]))
  {
    BootOk();
    RunKeeps(Boot, steps);
    var s := Run(Boot, steps);
    hide Run, CanRun, Inv, Find, AtMostOnce, MutexesOk, JoinsOk;
    assert Core(s) by { hide *; InvHasCore(s); }
    forall x | x in Waiting(s) ensures Has(s.blocked, x) {
      HasMeansMember(s.blocked, x);
    }
    forall i | 0 <= i < |s.joins| ensures Has(s.blocked, s.joins[i].blocked) {
      assert JoinWaiters(s.joins)[i] in multiset(JoinWaiters(s.joins));
      assert s.joins[i].blocked in Waiting(s);
    }
    forall i | 0 <= i < |s.ioQueue| ensures Has(s.blocked, s.ioQueue[i].id) {
      assert IoWaiters(s.ioQueue)[i] in multiset(IoWaiters(s.ioQueue));
      assert s.ioQueue[i].id in Waiting(s);
    }
    forall i | 0 <= i < |s.dumps| ensures Has(s.blocked, s.dumps[i]) {
      assert s.dumps[i] in Waiting(s);
    }
    forall i, j | 0 <= i < |s.mutexes| && 0 <= j < |s.mutexes[i].waiters|
      ensures Has(s.blocked, s.mutexes[i].waiters[j])
    {
      WaitersOfOne(s.mutexes, i);
      assert s.mutexes[i].waiters[j] in multiset(s.mutexes[i].waiters);
      assert s.mutexes[i].waiters[j] in Waiting(s);
    }
  }

  lemma InvHasCore(s: State)
    requires Inv(s)
    ensures Core(s)
  {
  }

  /** No reachable wait is on a thread that has exited, and every mutex record is consistent:
      a free one has no waiters, a taken one is owned by a live thread outside its own queue. */
  lemma {:induction false} NoWaitOnTheDead(steps: seq<Step>)
    requires CanRun(Boot, steps)
    ensures var s := Run(Boot, steps);
      && (forall i :: 0 <= i < |s.joins| ==> Known(s, s.joins[i].blocking))
      && (forall i :: 0 <= i < |s.mutexes| && s.mutexes[i].taken ==>
            s.mutexes[i].tid >= 0 && Known(s, ThreadId(s.mutexes[i].pid, s.mutexes[i].tid))
            && ThreadId(s.mutexes[i].pid, s.mutexes[i].tid) !in s.mutexes[i].waiters)
      && (forall i :: 0 <= i < |s.mutexes| ==>
            s.mutexes[i].blockedCount == |s.mutexes[i].waiters| && (!s.mutexes[i].taken ==> s.mutexes[i].waiters == []))
      && (forall i, j :: 0 <= i < j < |s.mutexes| ==> s.mutexes[i].name != s.mutexes[j].name)
  {
    BootOk();
    RunKeeps(Boot, steps);
    var s := Run(Boot, steps);
    hide Run, CanRun, Inv, AtMostOnce, Live, Known, Find;
    assert Core(s) by { hide *; InvHasCore(s); }
    forall x | x in Live(s) ensures Known(s, x) {
      KnownMeansLive(s, x);
    }
  }

  /** The running thread's process is always an admitted one, so the current PCB the dispatcher
      looks up is never missing and the thread count of an exiting thread is never zero. */
  lemma {:induction false} RunningIsAdmitted(steps: seq<Step>)
    requires CanRun(Boot, steps)
    ensures var s := Run(Boot, steps);
      s.running.Some? ==> s.running.value.id.pid in s.active && s.active[s.running.value.id.pid] > 0
  {
    BootOk();
    RunKeeps(Boot, steps);
    var s := Run(Boot, steps);
    if s.running.Some? {
      LiveWithoutRunning(s);
      assert LivePids(s)[s.running.value.id.pid] > 0;
    }
  }

  // Thread identities that collide

  lemma {:induction false} RunCons(s: State, step: Step, t: State, rest: seq<Step>)
    requires Enabled(s, step) && Apply(s, step) == t && CanRun(t, rest)
    ensures CanRun(s, [step] + rest) && Run(s, [step] + rest) == Run(t, rest)
  {
    hide Enabled, Apply;
    assert ([step] + rest)[1..] == rest;
  }

  function Thread(tid: nat): Tcb {
    Tcb(ThreadId(0, tid), 0)
  }

  /** A one-process kernel holding nothing but threads. */
  function Only(running: Option<Tcb>, ready: seq<Tcb>, exited: seq<Tcb>, count: nat): State {
    Boot.(running := running, ready := ready, exited := exited, semThreads := |ready|,
          active := map[0 := count], nextPid := 1)
  }

  /** From start-up to a process whose thread 0 runs and whose thread 1 is READY. */
  lemma {:induction false} PairSetup(rest: seq<Step>)
    requires CanRun(Only(Some(Thread(0)), [Thread(1)], [], 2), rest)
    ensures var steps := [CreateProcess(8, 0)] + ([AdmitHead] + ([Dispatch(Fifo)] + ([CreateThread(0)] + rest)));
      CanRun(Boot, steps) && Run(Boot, steps) == Run(Only(Some(Thread(0)), [Thread(1)], [], 2), rest)
  {
    hide CanRun, Run, Enabled, Apply, Only;
    var s1 := Boot.(pending := [PendingPcb(0, 8)], firstThreads := [FirstThread(8, 0)], nextPid := 1);
    var s2 := Only(None, [Thread(0)], [], 1);
    var s3 := Only(Some(Thread(0)), [], [], 1);
    var s4 := Only(Some(Thread(0)), [Thread(1)], [], 2);
    Arrives();
    OneMoreThread(0);
    RunCons(s3, CreateThread(0), s4, rest);
    RunCons(s2, Dispatch(Fifo), s3, [CreateThread(0)] + rest);
    RunCons(s1, AdmitHead, s2, [Dispatch(Fifo)] + ([CreateThread(0)] + rest));
    RunCons(Boot, CreateProcess(8, 0), s1, [AdmitHead] + ([Dispatch(Fifo)] + ([CreateThread(0)] + rest)));
  }

  lemma Arrives()
    ensures var s1 := Boot.(pending := [PendingPcb(0, 8)], firstThreads := [FirstThread(8, 0)], nextPid := 1);
      && Enabled(Boot, CreateProcess(8, 0)) && Apply(Boot, CreateProcess(8, 0)) == s1
      && Enabled(s1, AdmitHead) && Apply(s1, AdmitHead) == Only(None, [Thread(0)], [], 1)
      && Enabled(Only(None, [Thread(0)], [], 1), Dispatch(Fifo))
      && Apply(Only(None, [Thread(0)], [], 1), Dispatch(Fifo)) == Only(Some(Thread(0)), [], [], 1)
  {
    hide Find;
    assert map[][0 := 1] == map[0 := 1];
  }

  /** Thread 0, alone or with one companion, creates the next one. */
  lemma OneMoreThread(n: nat)
    requires n < 2
    ensures var s := Only(Some(Thread(0)), if n == 0 then [] else [Thread(1)], [], n + 1);
      && Enabled(s, CreateThread(0))
      && Apply(s, CreateThread(0))
         == Only(Some(Thread(0)), if n == 0 then [Thread(1)] else [Thread(1), Thread(2)], [], n + 2)
  {
    assert map[0 := n + 1][0 := n + 2] == map[0 := n + 2];
  }

  lemma {:induction false} AnotherThread(rest: seq<Step>)
    requires CanRun(Only(Some(Thread(0)), [Thread(1), Thread(2)], [], 3), rest)
    ensures var s := Only(Some(Thread(0)), [Thread(1)], [], 2); var steps := [CreateThread(0)] + rest;
      CanRun(s, steps) && Run(s, steps) == Run(Only(Some(Thread(0)), [Thread(1), Thread(2)], [], 3), rest)
  {
    hide CanRun, Run, Enabled, Apply, Only;
    OneMoreThread(1);
    RunCons(Only(Some(Thread(0)), [Thread(1)], [], 2), CreateThread(0),
            Only(Some(Thread(0)), [Thread(1), Thread(2)], [], 3), rest);
  }

  lemma {:induction false} ReuseExit(rest: seq<Step>)
    requires CanRun(Only(Some(Thread(2)), [Thread(0)], [Thread(1)], 2), rest)
    ensures var s := Only(Some(Thread(0)), [Thread(1), Thread(2)], [], 3);
      var steps := [Preempt] + ([Dispatch(Fifo)] + ([ExitThread] + ([Dispatch(Fifo)] + rest)));
      CanRun(s, steps) && Run(s, steps) == Run(Only(Some(Thread(2)), [Thread(0)], [Thread(1)], 2), rest)
  {
    hide CanRun, Run, Enabled, Apply, Only;
    var s5 := Only(Some(Thread(0)), [Thread(1), Thread(2)], [], 3);
    var s6 := Only(None, [Thread(1), Thread(2), Thread(0)], [], 3);
    var s7 := Only(Some(Thread(1)), [Thread(2), Thread(0)], [], 3);
    var s8 := Only(None, [Thread(2), Thread(0)], [Thread(1)], 2);
    var s9 := Only(Some(Thread(2)), [Thread(0)], [Thread(1)], 2);
    GivesWay();
    FirstExits();
    LastRuns();
    RunCons(s8, Dispatch(Fifo), s9, rest);
    RunCons(s7, ExitThread, s8, [Dispatch(Fifo)] + rest);
    RunCons(s6, Dispatch(Fifo), s7, [ExitThread] + ([Dispatch(Fifo)] + rest));
    RunCons(s5, Preempt, s6, [Dispatch(Fifo)] + ([ExitThread] + ([Dispatch(Fifo)] + rest)));
  }

  lemma GivesWay()
    ensures var s5 := Only(Some(Thread(0)), [Thread(1), Thread(2)], [], 3);
      var s6 := Only(None, [Thread(1), Thread(2), Thread(0)], [], 3);
      && Enabled(s5, Preempt) && Apply(s5, Preempt) == s6
      && Enabled(s6, Dispatch(Fifo))
      && Apply(s6, Dispatch(Fifo)) == Only(Some(Thread(1)), [Thread(2), Thread(0)], [], 3)
  {
    hide Find;
  }

  lemma FirstExits()
    ensures var s7 := Only(Some(Thread(1)), [Thread(2), Thread(0)], [], 3);
      Enabled(s7, ExitThread) && Apply(s7, ExitThread) == Only(None, [Thread(2), Thread(0)], [Thread(1)], 2)
  {
    hide Find;
    assert map[0 := 3][0 := 2] == map[0 := 2];
  }

  lemma LastRuns()
    ensures var s8 := Only(None, [Thread(2), Thread(0)], [Thread(1)], 2);
      && Enabled(s8, Dispatch(Fifo))
      && Apply(s8, Dispatch(Fifo)) == Only(Some(Thread(2)), [Thread(0)], [Thread(1)], 2)
  {
    hide Find;
  }

  /** Creating two threads, letting the first exit and creating again from the second:
      THREAD_EXIT lowers the thread count, and the next TID handed out is one in use. */
  lemma ThreadIdsCanCollide() returns (steps: seq<Step>)
    ensures CanRun(Boot, steps)
    ensures var s := Run(Boot, steps);
      && s.running.Some? && s.running.value.id == ThreadId(0, 2)
      && 0 in s.active && s.active[0] == 2 && !FreshTid(s, 0)
      && Inv(s) && !Inv(DoCreateThread(s, 0))
  {
    var rest := [Preempt] + ([Dispatch(Fifo)] + ([ExitThread] + ([Dispatch(Fifo)] + [])));
    ReuseExit([]);
    AnotherThread(rest);
    PairSetup([CreateThread(0)] + rest);
    steps := [CreateProcess(8, 0)] + ([AdmitHead] + ([Dispatch(Fifo)] + ([CreateThread(0)] + ([CreateThread(0)]
      + ([Preempt] + ([Dispatch(Fifo)] + ([ExitThread] + ([Dispatch(Fifo)] + []))))))));
    BootOk();
    var s := Only(Some(Thread(2)), [Thread(0)], [Thread(1)], 2);
    assert Run(Boot, steps) == s;
    hide Enabled, Apply;
    RunKeeps(Boot, steps);
    hide Inv;
    CreateThreadKeepsIff(s, 0);
  }

  // A lock that strands a joiner

  /** Thread 0 waits for thread 1. */
  function Joined(running: Option<Tcb>, ready: seq<Tcb>): State {
    Only(running, ready, [], 2).(blocked := [Thread(0)], joins := [Join(ThreadId(0, 0), ThreadId(0, 1))])
  }

  lemma JoinsThenRuns()
    ensures var s := Only(Some(Thread(0)), [Thread(1)], [], 2);
      && Enabled(s, JoinThread(1)) && Apply(s, JoinThread(1)) == Joined(None, [Thread(1)])
      && Enabled(Joined(None, [Thread(1)]), Dispatch(Fifo))
      && Apply(Joined(None, [Thread(1)]), Dispatch(Fifo)) == Joined(Some(Thread(1)), [])
  {
    assert Has([Thread(1)], ThreadId(0, 1));
  }

  lemma {:induction false} JoinSetup(steps: seq<Step>)
    requires steps == [CreateProcess(8, 0)] + ([AdmitHead] + ([Dispatch(Fifo)] + ([CreateThread(0)]
      + ([JoinThread(1)] + ([Dispatch(Fifo)] + [])))))
    ensures CanRun(Boot, steps) && Run(Boot, steps) == Joined(Some(Thread(1)), [])
  {
    hide CanRun, Run, Enabled, Apply, Only, Joined;
    var rest := [JoinThread(1)] + ([Dispatch(Fifo)] + []);
    var s := Joined(Some(Thread(1)), []);
    JoinsThenRuns();
    NoSteps(s);
    RunCons(Joined(None, [Thread(1)]), Dispatch(Fifo), s, []);
    RunCons(Only(Some(Thread(0)), [Thread(1)], [], 2), JoinThread(1), Joined(None, [Thread(1)]), [Dispatch(Fifo)] + []);
    PairSetup(rest);
  }

  /** Thread 0 joins thread 1, and thread 1 locks a mutex that nobody created: thread 1 ends in EXIT
      and thread 0 stays BLOCKED on it. */
  lemma {:induction false} MissingLockStrands(name: string) returns (steps: seq<Step>)
    ensures CanRun(Boot, steps)
    ensures var s := Run(Boot, steps);
      && Inv(s) && s.running == Some(Thread(1)) && FindMutex(s.mutexes, name) == |s.mutexes|
      && var t := DoLock(s, name);
         && !Inv(t) && t.running == None && t.exited == [Thread(1)] && t.blocked == [Thread(0)]
         && t.joins == [Join(ThreadId(0, 0), ThreadId(0, 1))] && !Known(t, ThreadId(0, 1))
  {
    hide CanRun, Run, Joined, Inv, DoLock, FindMutex, Known;
    steps := [CreateProcess(8, 0)] + ([AdmitHead] + ([Dispatch(Fifo)] + ([CreateThread(0)]
      + ([JoinThread(1)] + ([Dispatch(Fifo)] + [])))));
    JoinSetup(steps);
    var s := Joined(Some(Thread(1)), []);
    StrandedBy(s, name);
    BootOk();
    RunKeeps(Boot, steps);
    assert Awaited(s, ThreadId(0, 1)) by {
      assert s.joins[0].blocking == ThreadId(0, 1);
    }
    LockMissingKeepsIff(s, name);
  }

  lemma {:induction false} NoSteps(s: State)
    ensures CanRun(s, []) && Run(s, []) == s
  {
  }

  lemma {:induction false} StrandedBy(s: State, name: string)
    requires s == Joined(Some(Thread(1)), [])
    ensures s.running == Some(Thread(1)) && FindMutex(s.mutexes, name) == |s.mutexes|
    ensures s.joins == [Join(ThreadId(0, 0), ThreadId(0, 1))]
    ensures var t := DoLock(s, name);
      && t.running == None && t.exited == [Thread(1)] && t.blocked == [Thread(0)]
      && t.joins == s.joins && !Known(t, ThreadId(0, 1))
  {
  }
}
