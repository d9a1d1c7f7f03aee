/** The kernel's queues and counts over whole runs: NEW, the IO queue and, under FIFO, READY are first
    come, first served, and a process's thread count is the number of its live threads. */
module KernelQueues {
  import opened Lists
  import opened KernelState
  import opened KernelInvariant
  import opened KernelRuns
  import opened KernelEffects

  /** A queue that loses its head or gains a tail, followed by whatever the rest of the run does. */
  lemma FirstInFirstOut<T>(queue: seq<T>, arriving: seq<T>, leaving: seq<T>, left: seq<T>,
                           later: seq<T>, served: seq<T>, rest: seq<T>)
    requires leaving + left == queue + arriving
    requires served + rest == left + later
    ensures (leaving + served) + rest == queue + (arriving + later)
  {
    calc {
      (leaving + served) + rest;
      leaving + (served + rest);
      leaving + (left + later);
      (leaving + left) + later;
      (queue + arriving) + later;
      queue + (arriving + later);
    }
  }

  // READY under FIFO

  function ArrivalsIn(s: State, steps: seq<Step>): seq<ThreadId>
    requires CanRun(s, steps)
    decreases |steps|
  {
    if steps == [] then [] else Arrivals(s, steps[0]) + ArrivalsIn(Apply(s, steps[0]), steps[1..])
  }

  function TakenBy(s: State, step: Step): seq<ThreadId>
    requires Enabled(s, step)
  {
    if step.Dispatch? then RunningIds(Apply(s, step)) else []
  }

  /** The threads that are given the processor, in order. */
  function DispatchedIn(s: State, steps: seq<Step>): seq<ThreadId>
    requires CanRun(s, steps)
    decreases |steps|
  {
    if steps == [] then []
    else TakenBy(s, steps[0]) + DispatchedIn(Apply(s, steps[0]), steps[1..])
  }

  predicate AllFifo(steps: seq<Step>) {
    forall i :: 0 <= i < |steps| && steps[i].Dispatch? ==> steps[i].policy.Fifo?
  }

  lemma IdsCons(x: Tcb, rest: seq<Tcb>)
    ensures Ids([x] + rest) == [x.id] + Ids(rest)
  {
  }

  lemma FifoTakesHead(s: State)
    requires Inv(s) && Enabled(s, Dispatch(Fifo))
    ensures var t := Apply(s, Dispatch(Fifo));
      t.running.Some? && Ids(s.ready) == [t.running.value.id] + Ids(t.ready)
  {
    assert s.running.None?;
    hide Inv, Enabled, Apply, Ids;
    OnlyDispatchRuns(s, Dispatch(Fifo));
    var t := Apply(s, Dispatch(Fifo));
    assert t.running == Some(s.ready[0]) && t.ready == s.ready[..0] + s.ready[1..];
    assert s.ready == [s.ready[0]] + t.ready;
    IdsCons(s.ready[0], t.ready);
  }

  lemma NothingArrives(s: State, step: Step)
    requires Enabled(s, step) && step.Dispatch?
    ensures Arrivals(s, step) == []
  {
  }

  lemma ReadyTurns(s: State, step: Step)
    requires Inv(s) && Enabled(s, step) && (step.Dispatch? ==> step.policy.Fifo?)
    ensures TakenBy(s, step) + Ids(Apply(s, step).ready) == Ids(s.ready) + Arrivals(s, step)
  {
    hide Inv, Ids, Apply, Enabled;
    if step.Dispatch? {
      FifoTakesHead(s);
      NothingArrives(s, step);
    } else {
      ReadyGrows(s, step);
    }
  }

  /** Under FIFO the processor goes round in the order of arrival, whatever made the threads ready:
      those dispatched and those still waiting are those that waited and those that came since. */
  lemma {:induction false} FifoServesInOrder(s: State, steps: seq<Step>)
    requires Inv(s) && CanRun(s, steps) && AllFifo(steps)
    ensures DispatchedIn(s, steps) + Ids(Run(s, steps).ready) == Ids(s.ready) + ArrivalsIn(s, steps)
    decreases |steps|
  {
    hide Inv, Enabled, Apply, Arrivals, Ids;
    if steps == [] {
      assert Ids(s.ready) + [] == Ids(s.ready);
    } else {
      var t := Apply(s, steps[0]);
      StepKeeps(s, steps[0]);
      FifoServesInOrder(t, steps[1..]);
      ReadyTurns(s, steps[0]);
      FirstInFirstOut(Ids(s.ready), Arrivals(s, steps[0]), TakenBy(s, steps[0]), Ids(t.ready),
                      ArrivalsIn(t, steps[1..]), DispatchedIn(t, steps[1..]), Ids(Run(t, steps[1..]).ready));
    }
  }

  // The IO queue

  function AskedBy(s: State, step: Step): seq<IoRequest>
    requires Enabled(s, step)
  {
    if step.RequestIo? then [IoRequest(s.running.value.id, step.time)] else []
  }

  function ServedBy(s: State, step: Step): seq<IoRequest>
    requires Enabled(s, step)
  {
    if step.CompleteIo? then [s.ioQueue[0]] else []
  }

  function IoAsked(s: State, steps: seq<Step>): seq<IoRequest>
    requires CanRun(s, steps)
    decreases |steps|
  {
    if steps == [] then [] else AskedBy(s, steps[0]) + IoAsked(Apply(s, steps[0]), steps[1..])
  }

  /** The requests the device finishes, each of which makes its own thread ready. */
  function IoServed(s: State, steps: seq<Step>): seq<IoRequest>
    requires CanRun(s, steps)
    decreases |steps|
  {
    if steps == [] then [] else ServedBy(s, steps[0]) + IoServed(Apply(s, steps[0]), steps[1..])
  }

  lemma IoTurns(s: State, step: Step)
    requires Inv(s) && Enabled(s, step)
    ensures ServedBy(s, step) + Apply(s, step).ioQueue == s.ioQueue + AskedBy(s, step)
  {
    hide Inv, Apply;
    RequestsChange(s, step);
  }

  /** The device serves every request once, with the time asked for, in the order of asking. */
  lemma {:induction false} IoServedInOrder(s: State, steps: seq<Step>)
    requires Inv(s) && CanRun(s, steps)
    ensures IoServed(s, steps) + Run(s, steps).ioQueue == s.ioQueue + IoAsked(s, steps)
    decreases |steps|
  {
    hide Inv, Enabled, Apply, AskedBy, ServedBy;
    if steps == [] {
      assert s.ioQueue + [] == s.ioQueue;
    } else {
      var t := Apply(s, steps[0]);
      StepKeeps(s, steps[0]);
      IoTurns(s, steps[0]);
      IoServedInOrder(t, steps[1..]);
      FirstInFirstOut(s.ioQueue, AskedBy(s, steps[0]), ServedBy(s, steps[0]), t.ioQueue,
                      IoAsked(t, steps[1..]), IoServed(t, steps[1..]), Run(t, steps[1..]).ioQueue);
    }
  }

  // NEW

  datatype Request = Request(pid: nat, size: nat, priority: nat)

  /** The processes in NEW with the sizes and priorities they wait with. */
  function InNew(s: State): (r: seq<Request>)
    requires |s.pending| == |s.firstThreads|
    ensures |r| == |s.pending|
  {
    seq(|s.pending|, i requires 0 <= i < |s.pending| =>
      Request(s.pending[i].pid, s.pending[i].size, s.firstThreads[i].priority))
  }

  /** The creations asked for; PIDs are handed out in that order. */
  function Asked(pid: nat, steps: seq<Step>): seq<Request>
    decreases |steps|
  {
    if steps == [] then []
    else
      match steps[0]
      case CreateProcess(size, priority) => [Request(pid, size, priority)] + Asked(pid + 1, steps[1..])
      case _ => Asked(pid, steps[1..])
  }

  function AdmittedBy(s: State, step: Step): seq<Request>
    requires Enabled(s, step)
  {
    if step.AdmitHead? then [Request(s.pending[0].pid, s.pending[0].size, s.firstThreads[0].priority)] else []
  }

  /** The processes that leave NEW for READY. */
  function AdmittedIn(s: State, steps: seq<Step>): seq<Request>
    requires CanRun(s, steps)
    decreases |steps|
  {
    if steps == [] then [] else AdmittedBy(s, steps[0]) + AdmittedIn(Apply(s, steps[0]), steps[1..])
  }

  lemma NewStays(s: State, step: Step)
    requires Inv(s) && Enabled(s, step) && !step.AdmitHead? && !step.CreateProcess?
    ensures var t := Apply(s, step);
      t.nextPid == s.nextPid && t.pending == s.pending && t.firstThreads == s.firstThreads
  {
    hide Core, Counted, PendingOk, Find, FindMutex, FreshTid, Findable, Awaited, Owns, DoExitThread, DoExitProcess,
      DoCancel, Unlock, Ids;
    match step
    case ExitProcess => ExitProcessEffect(s);
    case SegmentationFault => ExitProcessEffect(s);
    case ExitThread => ExitThreadRest(s);
    case CancelThread(tid) => CancelEffect(s, tid);
    case UnlockMutex(name) => UnlockKeepsRest(s, name);
    case _ =>
  }

  lemma NewChanges(s: State, step: Step)
    requires Inv(s) && Enabled(s, step) && |s.pending| == |s.firstThreads|
    ensures var t := Apply(s, step);
      && t.nextPid == s.nextPid + (if step.CreateProcess? then 1 else 0)
      && |t.pending| == |t.firstThreads|
      && AdmittedBy(s, step) + InNew(t) == InNew(s) + Asked(s.nextPid, [step])
  {
    hide Inv;
    assert [step][1..] == [];
    if !step.AdmitHead? && !step.CreateProcess? {
      hide Enabled, Apply;
      NewStays(s, step);
    }
  }

  lemma {:induction false} AskedCons(pid: nat, steps: seq<Step>)
    requires steps != []
    ensures Asked(pid, steps)
      == Asked(pid, [steps[0]]) + Asked(if steps[0].CreateProcess? then pid + 1 else pid, steps[1..])
  {
    assert [steps[0]][1..] == [];
  }

  /** Processes are admitted in the order they were asked for, under consecutive PIDs and with the size
      and the priority asked for: those admitted and those still in NEW are all of them. */
  lemma {:induction false} AdmittedInOrder(s: State, steps: seq<Step>)
    requires Inv(s) && CanRun(s, steps)
    ensures Inv(Run(s, steps))
    ensures AdmittedIn(s, steps) + InNew(Run(s, steps)) == InNew(s) + Asked(s.nextPid, steps)
    ensures Run(s, steps).nextPid == s.nextPid + |Asked(s.nextPid, steps)|
    decreases |steps|
  {
    hide Core, Counted, Enabled, Apply, InNew;
    if steps == [] {
      assert InNew(s) + [] == InNew(s);
    } else {
      var t := Apply(s, steps[0]);
      StepKeeps(s, steps[0]);
      NewChanges(s, steps[0]);
      AskedCons(s.nextPid, steps);
      AdmittedInOrder(t, steps[1..]);
      FirstInFirstOut(InNew(s), Asked(s.nextPid, [steps[0]]), AdmittedBy(s, steps[0]), InNew(t),
                      Asked(t.nextPid, steps[1..]), AdmittedIn(t, steps[1..]), InNew(Run(t, steps[1..])));
    }
  }

  // Thread counts

  function StrandedIn(s: State, steps: seq<Step>): multiset<nat>
    requires CanRun(s, steps)
    decreases |steps|
  {
    if steps == [] then multiset{} else Stranded(s, steps[0]) + StrandedIn(Apply(s, steps[0]), steps[1..])
  }

  /** A process's thread count is its live threads and those it lost that way. */
  ghost predicate CountsAre(s: State, lost: multiset<nat>) {
    forall pid :: LivePids(s)[pid] + lost[pid] == if pid in s.active then s.active[pid] else 0
  }

  function CountOf(s: State, pid: nat): nat {
    if pid in s.active then s.active[pid] else 0
  }

  lemma CountsStay(s: State, step: Step)
    requires Inv(s) && Enabled(s, step) && !step.AdmitHead? && !step.CreateThread?
    requires !step.ExitThread? && !step.ExitProcess? && !step.SegmentationFault?
    ensures Apply(s, step).active == s.active
  {
    hide Core, Counted, PendingOk, Find, FindMutex, FreshTid, Findable, Awaited, Owns, DoCancel, Unlock, Ids;
    match step
    case CancelThread(tid) => CancelEffect(s, tid);
    case UnlockMutex(name) => UnlockKeepsRest(s, name);
    case _ =>
  }

  lemma CountsChange(s: State, step: Step, pid: nat)
    requires Inv(s) && Enabled(s, step)
    ensures var ended := Ended(s, step)[pid] - Stranded(s, step)[pid];
      CountOf(Apply(s, step), pid) + ended == CountOf(s, pid) + Begun(s, step)[pid]
  {
    hide Core, Counted, Find, FindMutex, FreshTid, Awaited, Owns, DoExitThread, ReleaseFrom;
    match step
    case AdmitHead =>
    case CreateThread(_) =>
    case ExitThread => ExitThreadRest(s);
    case ExitProcess =>
    case SegmentationFault =>
    case _ =>
      hide Enabled, Apply;
      CountsStay(s, step);
  }

  lemma StepKeepsExact(s: State, step: Step, lost: multiset<nat>)
    requires Inv(s) && Enabled(s, step) && CountsAre(s, lost)
    ensures CountsAre(Apply(s, step), lost + Stranded(s, step))
  {
    hide Inv, Enabled, Apply, LivePids, Ended, Begun, Stranded;
    var t := Apply(s, step);
    StepBalances(s, step);
    forall pid ensures LivePids(t)[pid] + (lost + Stranded(s, step))[pid] == CountOf(t, pid) {
      CountsChange(s, step, pid);
      assert (LivePids(t) + Ended(s, step))[pid] == (LivePids(s) + Begun(s, step))[pid];
      assert LivePids(s)[pid] + lost[pid] == CountOf(s, pid);
    }
  }

  /** Over any run, a process's thread count goes up by each thread created, down by each that exits,
      and so is its live threads plus those lost to locks of missing mutexes. */
  lemma {:induction false} CountsStayExact(s: State, steps: seq<Step>, lost: multiset<nat>)
    requires Inv(s) && CanRun(s, steps) && CountsAre(s, lost)
    ensures CountsAre(Run(s, steps), lost + StrandedIn(s, steps))
    decreases |steps|
  {
    hide Inv, Enabled, Apply, CountsAre, Stranded;
    if steps == [] {
      assert lost + multiset{} == lost;
    } else {
      StepKeeps(s, steps[0]);
      StepKeepsExact(s, steps[0], lost);
      CountsStayExact(Apply(s, steps[0]), steps[1..], lost + Stranded(s, steps[0]));
      assert lost + Stranded(s, steps[0]) + StrandedIn(Apply(s, steps[0]), steps[1..]) == lost + StrandedIn(s, steps);
    }
  }

  /** In every reachable state a process has as many live threads as its count says, unless one of its
      threads locked a mutex that nobody created. */
  lemma {:induction false} CountsAreExact(steps: seq<Step>)
    requires CanRun(Boot, steps)
    ensures var s := Run(Boot, steps);
      forall pid :: LivePids(s)[pid] + StrandedIn(Boot, steps)[pid] == if pid in s.active then s.active[pid] else 0
  {
    BootOk();
    hide Inv, Run, CanRun, StrandedIn;
    CountsStayExact(Boot, steps, multiset{});
    assert multiset{} + StrandedIn(Boot, steps) == StrandedIn(Boot, steps);
  }
}
