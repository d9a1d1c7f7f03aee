/** The kernel as it runs: global lists updated in place by the dispatcher, the IO thread and
    the dump threads. Every method is proved equal to the effect stated in KernelState. */
module KernelMachine {
  import opened Lists
  import opened KernelState
  import opened KernelInvariant
  import opened KernelRuns

  /** list_remove_by_condition on (PID, TID): drops the first match, if there is one. */
  method RemoveTcb(list: seq<Tcb>, x: ThreadId) returns (rest: seq<Tcb>, found: Option<Tcb>)
    ensures Has(list, x) ==> rest == RemoveAt(list, Find(list, x)) && found == Some(list[Find(list, x)])
    ensures !Has(list, x) ==> rest == list && found == None
  {
    var i := 0;
    while i < |list| && list[i].id != x
      invariant 0 <= i <= |list|
      invariant forall j :: 0 <= j < i ==> list[j].id != x
    {
      i := i + 1;
    }
    if i < |list| {
      return list[..i] + list[i + 1..], Some(list[i]);
    }
    return list, None;
  }

  method FindTcb(list: seq<Tcb>, x: ThreadId) returns (found: bool)
    ensures found <==> Has(list, x)
  {
    var i := 0;
    while i < |list|
      invariant 0 <= i <= |list|
      invariant forall j :: 0 <= j < i ==> list[j].id != x
    {
      if list[i].id == x {
        return true;
      }
      i := i + 1;
    }
    return false;
  }

  class Kernel {
    const policy: Policy
    var running: Option<Tcb>
    var ready: seq<Tcb>
    var blocked: seq<Tcb>
    var exited: seq<Tcb>
    var semThreads: nat
    var joins: seq<Join>
    var ioQueue: seq<IoRequest>
    var semIo: nat
    var dumps: seq<ThreadId>
    var mutexes: seq<Mutex>
    var active: map<nat, nat>
    var pending: seq<PendingPcb>
    var firstThreads: seq<FirstThread>
    var nextPid: nat

    ghost function Abs(): State
      reads this
    {
      State(running, ready, blocked, exited, semThreads, joins, ioQueue, semIo, dumps, mutexes,
            active, pending, firstThreads, nextPid)
    }

    constructor (policy: Policy)
      ensures Abs() == Boot && this.policy == policy
    {
      this.policy := policy;
      running, semThreads, semIo, nextPid := None, 0, 0, 0;
      ready, blocked, exited, joins, ioQueue, dumps := [], [], [], [], [], [];
      mutexes, active, pending, firstThreads := [], map[], [], [];
    }

    // tcb_lists.c

    /** move_tcb_between_lists from BLOCKED to READY. */
    method MoveToReady(x: ThreadId)
      modifies this`ready, this`blocked
      ensures Abs() == Wake(old(Abs()), x)
    {
      var rest, found := RemoveTcb(blocked, x);
      blocked := rest;
      if found.Some? {
        ready := ready + [found.value];
      }
    }

    // mutex_thread.c

    method GetMutex(name: string) returns (i: nat)
      ensures i == FindMutex(mutexes, name)
    {
      i := 0;
      while i < |mutexes| && mutexes[i].name != name
        invariant 0 <= i <= |mutexes|
        invariant forall j :: 0 <= j < i ==> mutexes[j].name != name
      {
        i := i + 1;
      }
    }

    method MutexCreate(name: string, pid: nat)
      requires running.Some? && running.value.id.pid == pid
      modifies this`mutexes
      ensures Abs() == DoCreateMutex(old(Abs()), name)
    {
      var i := GetMutex(name);
      if i < |mutexes| {
        return;
      }
      mutexes := mutexes + [Mutex(name, pid, false, -1, [], 0)];
    }

    /** Answers whether the thread may go on running. A missing mutex ends the thread. */
    method MutexLock(name: string, t: Tcb) returns (goOn: bool)
      requires running == Some(t)
      requires FindMutex(mutexes, name) < |mutexes| ==> mutexes[FindMutex(mutexes, name)].pid == t.id.pid
      modifies this`mutexes, this`blocked, this`exited
      ensures Abs().(running := if goOn then running else None) == DoLock(old(Abs()), name)
    {
      var i := GetMutex(name);
      if i == |mutexes| {
        exited := exited + [t];
        return false;
      }
      if !mutexes[i].taken || mutexes[i].tid == t.id.tid {
        mutexes := mutexes[i := mutexes[i].(taken := true, tid := t.id.tid)];
        return true;
      } else {
        BlockInMutexList(t, i);
        return false;
      }
    }

    method BlockInMutexList(t: Tcb, i: nat)
      requires i < |mutexes|
      modifies this`mutexes, this`blocked
      ensures blocked == old(blocked) + [t]
      ensures mutexes == old(mutexes)[i := old(mutexes)[i].(waiters := old(mutexes)[i].waiters + [t.id],
                                                          blockedCount := old(mutexes)[i].blockedCount + 1)]
    {
      blocked := blocked + [t];
      mutexes := mutexes[i := mutexes[i].(waiters := mutexes[i].waiters + [t.id])];
      mutexes := mutexes[i := mutexes[i].(blockedCount := mutexes[i].blockedCount + 1)];
    }

    method MutexUnlock(name: string, t: Tcb)
      requires FindMutex(mutexes, name) < |mutexes|
      modifies this`mutexes, this`ready, this`blocked, this`semThreads
      ensures Abs() == Unlock(old(Abs()), name, t.id.tid)
    {
      hide FindMutex, Wake;
      var i := GetMutex(name);
      if !mutexes[i].taken || mutexes[i].tid != t.id.tid {
        return;
      }
      if mutexes[i].waiters != [] {
        var next := mutexes[i].waiters[0];
        mutexes := mutexes[i := mutexes[i].(tid := next.tid)];
        WakeIgnoresMutexes(old(Abs()), next, mutexes);
        MoveToReady(next);
        mutexes := mutexes[i := mutexes[i].(waiters := mutexes[i].waiters[1..])];
        mutexes := mutexes[i := mutexes[i].(blockedCount := mutexes[i].blockedCount - 1)];
        semThreads := semThreads + 1;
      } else {
        mutexes := mutexes[i := mutexes[i].(taken := false, tid := -1)];
      }
    }

    method ReleaseAllMutexes(t: Tcb)
      modifies this`mutexes, this`ready, this`blocked, this`semThreads
      ensures Abs() == ReleaseFrom(old(Abs()), 0, t.id.tid)
    {
      var i := 0;
      while i < |mutexes|
        invariant 0 <= i <= |mutexes|
        invariant ReleaseFrom(Abs(), i, t.id.tid) == ReleaseFrom(old(Abs()), 0, t.id.tid)
        decreases |mutexes| - i
      {
        label before:
        if mutexes[i].taken && mutexes[i].tid == t.id.tid {
          FindMutexPresent(mutexes, i);
          MutexUnlock(mutexes[i].name, t);
          UnlockKeepsLength(old@before(Abs()), old@before(mutexes[i].name), t.id.tid);
        }
        i := i + 1;
      }
    }

    // join_thread.c

    method AddJoin(blockedTcb: Tcb, blocking: ThreadId)
      modifies this`joins, this`blocked
      ensures joins == old(joins) + [Join(blockedTcb.id, blocking)] && blocked == old(blocked) + [blockedTcb]
    {
      joins := joins + [Join(blockedTcb.id, blocking)];
      blocked := blocked + [blockedTcb];
    }

    /** Removes records while iterating: the index stays when a record is dropped under it. */
    method UnlockJoins(finished: ThreadId)
      modifies this`joins, this`ready, this`blocked, this`semThreads
      ensures Abs() == UnlockJoinsFrom(old(Abs()), 0, finished)
    {
      var i := 0;
      while i < |joins|
        invariant 0 <= i <= |joins|
        invariant UnlockJoinsFrom(Abs(), i, finished) == UnlockJoinsFrom(old(Abs()), 0, finished)
        decreases |joins| - i
      {
        if joins[i].blocking.tid == finished.tid && joins[i].blocking.pid == finished.pid {
          MoveToReady(joins[i].blocked);
          semThreads := semThreads + 1;
          joins := RemoveAt(joins, i);
        } else {
          i := i + 1;
        }
      }
    }

    // scheduler.c

    method ScheduleFifo() returns (t: Option<Tcb>)
      modifies this`ready
      ensures ready == if old(ready) == [] then [] else RemoveAt(old(ready), 0)
      ensures t == if old(ready) == [] then None else Some(old(ready)[0])
    {
      if |ready| <= 0 {
        return None;
      }
      t := Some(ready[0]);
      ready := ready[1..];
    }

    method SchedulePriorities() returns (t: Option<Tcb>)
      modifies this`ready
      ensures old(ready) == [] ==> t == None && ready == []
      ensures old(ready) != [] ==>
        var i := Pick(Priorities, old(ready)); t == Some(old(ready)[i]) && ready == RemoveAt(old(ready), i)
    {
      if |ready| == 0 {
        return None;
      }
      var selected := ready[0];
      var selectedIndex := 0;
      var i := 1;
      while i < |ready|
        invariant 1 <= i <= |ready| && 0 <= selectedIndex < i && selected == ready[selectedIndex]
        invariant forall j :: 0 <= j < i ==> selected.priority <= ready[j].priority
        invariant forall j :: 0 <= j < selectedIndex ==> selected.priority < ready[j].priority
      {
        var current := ready[i];
        if current.priority < selected.priority {
          selected := current;
          selectedIndex := i;
        }
        i := i + 1;
      }
      PickUnique(ready, selectedIndex);
      ready := RemoveAt(ready, selectedIndex);
      return Some(selected);
    }

    // io_device.c

    method RequestIo(t: Tcb, time: nat)
      requires running == Some(t)
      modifies this`ioQueue, this`semIo, this`blocked
      ensures Abs().(running := None) == DoRequestIo(old(Abs()), time)
    {
      ioQueue := ioQueue + [IoRequest(t.id, time)];
      semIo := semIo + 1;
      blocked := blocked + [t];
    }

    /** One iteration of the device thread; an empty queue and a missing TCB are both survived. */
    method IoTurn()
      requires semIo > 0
      modifies this`ioQueue, this`semIo, this`ready, this`blocked, this`semThreads
      ensures old(ioQueue) != [] ==> Abs() == DoCompleteIo(old(Abs()))
      ensures old(ioQueue) == [] ==> Abs() == old(Abs()).(semIo := old(semIo) - 1)
    {
      hide Find, Has, RemoveAt, Wake, DoCompleteIo;
      ghost var s := Abs();
      semIo := semIo - 1;
      if ioQueue == [] {
        return;
      }
      var request := ioQueue[0];
      ioQueue := ioQueue[1..];
      var rest, found := RemoveTcb(blocked, request.id);
      IoTurnIs(s, rest, found);
      blocked := rest;
      if found == None {
        return;
      }
      ready := ready + [found.value];
      semThreads := semThreads + 1;
    }

    // memory_operations.c, when memory answers OK

    method DumpAnswered(index: nat)
      requires index < |dumps|
      modifies this`dumps, this`ready, this`blocked, this`semThreads
      ensures Abs() == DoCompleteDump(old(Abs()), index)
    {
      var x := dumps[index];
      MoveToReady(x);
      semThreads := semThreads + 1;
      dumps := RemoveAt(dumps, index);
    }

    // process.c and long_term_list.c

    method CreateProcess(size: nat, priority: nat)
      modifies this`pending, this`firstThreads, this`nextPid
      ensures Abs() == DoCreateProcess(old(Abs()), size, priority)
    {
      var pid := nextPid;
      nextPid := nextPid + 1;
      pending := pending + [PendingPcb(pid, size)];
      firstThreads := firstThreads + [FirstThread(size, priority)];
    }

    /** create_thread: the thread count goes up in any case; the thread is READY only once memory
        has accepted it, and otherwise stays in NEW. */
    method CreateThread(pid: nat, count: nat, priority: nat, memoryAccepts: bool)
      modifies this`ready, this`semThreads, this`active
      ensures memoryAccepts ==> Abs() == Spawn(old(Abs()), pid, count, priority)
      ensures !memoryAccepts ==> Abs() == old(Abs()).(active := old(active)[pid := count + 1])
    {
      var t := Tcb(ThreadId(pid, count), priority);
      active := active[pid := count + 1];
      if memoryAccepts {
        ready := ready + [t];
        semThreads := semThreads + 1;
      }
    }

    /** try_create_NEW_process with the answers memory gives for the head of NEW and for its first
        thread; a process whose thread is refused leaves NEW without becoming active. */
    method TryCreateNewProcess(memoryAccepts: bool, threadAccepted: bool) returns (created: bool)
      modifies this`ready, this`semThreads, this`active, this`pending, this`firstThreads
      ensures created <==> old(pending) != [] && old(firstThreads) != [] && memoryAccepts
      ensures created && threadAccepted ==> Abs() == DoAdmitHead(old(Abs()))
      ensures created && !threadAccepted ==>
        Abs() == old(Abs()).(pending := old(pending)[1..], firstThreads := old(firstThreads)[1..])
      ensures !created ==> Abs() == old(Abs())
    {
      if |pending| == 0 || |firstThreads| == 0 || !memoryAccepts {
        return false;
      }
      if threadAccepted {
        CreateThread(pending[0].pid, 0, firstThreads[0].priority, true);
      }
      firstThreads := firstThreads[1..];
      pending := pending[1..];
      return true;
    }

    // kernel_dispatch.c

    /** Top of the dispatch loop: go on with the same thread, or wait for READY and pick one.
        The chosen thread is then removed from READY a second time, which changes nothing. */
    method NextThread() returns (t: Tcb)
      requires Inv(Abs())
      requires running.None? ==> semThreads > 0
      modifies this`running, this`ready, this`semThreads
      ensures running == Some(t)
      ensures old(running).Some? ==> Abs() == old(Abs())
      ensures old(running).None? ==> old(ready) != [] && Abs() == DoDispatch(old(Abs()), policy)
    {
      hide Inv, Find, Pick, DoDispatch;
      InvHasCore(Abs());
      hide JoinsOk, MutexesOk, AtMostOnce, Waiting;
      if running.None? {
        ReadyWhenPosted(Abs());
        semThreads := semThreads - 1;
        ghost var before := old(Abs());
        var next;
        if policy.Fifo? {
          next := ScheduleFifo();
        } else {
          next := SchedulePriorities();
        }
        DispatchIs(before, policy);
        DispatchedOnce(before, policy);
        t := next.value;
        running := Some(t);
      } else {
        t := running.value;
        RunningNotReady(Abs());
      }
      var rest, found := RemoveTcb(ready, t.id);
      ready := rest;
    }

    method ThreadJoin(tid: nat)
      requires running.Some?
      modifies this`running, this`joins, this`blocked
      ensures Abs() == DoJoin(old(Abs()), tid)
    {
      var target := ThreadId(running.value.id.pid, tid);
      var found := FindTcb(blocked, target);
      if !found {
        found := FindTcb(ready, target);
      }
      if found {
        AddJoin(running.value, target);
        running := None;
      }
    }

    method ThreadExit()
      requires running.Some?
      modifies this`running, this`exited, this`active, this`joins, this`mutexes, this`ready, this`blocked,
        this`semThreads
      ensures Abs() == DoExitThread(old(Abs()))
    {
      hide UnlockJoinsFrom, ReleaseFrom;
      var me := running.value;
      exited := exited + [me];
      if me.id.pid in active {
        active := active[me.id.pid := Decremented(active[me.id.pid])];
      }
      UnlockJoins(me.id);
      ReleaseAllMutexes(me);
      running := None;
    }

    /** One turn of it. */
    method TearDownOne(t: Tcb, wait: bool)
      requires wait ==> semThreads > 0
      modifies this`exited, this`mutexes, this`ready, this`blocked, this`semThreads
      ensures Abs() == TornOnce(old(Abs()), t, wait)
    {
      hide ReleaseFrom;
      if wait {
        semThreads := semThreads - 1;
      }
      exited := exited + [t];
      ReleaseAllMutexes(t);
    }

    /** The teardown loop of PROCESS_EXIT and of a segmentation fault, over the first thread-count
        entries of the process's thread array; each of its waits must be able to pass. */
    method ProcessExit(tcbs: seq<Tcb>)
      requires running.Some? && CanTearDown(Abs(), tcbs, |tcbs| > 1)
      modifies this`running, this`exited, this`active, this`mutexes, this`ready, this`blocked, this`semThreads
      ensures Abs() == DoTeardown(old(Abs()), tcbs)
    {
      hide TornOnce, TearDown, CanTearDown;
      var pid := running.value.id.pid;
      var wait := |tcbs| > 1;
      var i := 0;
      assert tcbs[0..] == tcbs;
      while i < |tcbs|
        invariant 0 <= i <= |tcbs| && running == old(running)
        invariant CanTearDown(Abs(), tcbs[i..], wait)
        invariant TearDown(Abs(), tcbs[i..], wait) == TearDown(old(Abs()), tcbs, wait)
      {
        ghost var s := Abs();
        TurnUnfolds(s, tcbs, i, wait);
        TearDownOne(tcbs[i], wait);
        i := i + 1;
      }
      assert TearDown(Abs(), tcbs[i..], wait) == Abs() by {
        NoTurnsLeft(Abs(), tcbs[i..], wait);
      }
      TearDownKeepsActive(old(Abs()), tcbs, wait);
      running := None;
      active := active - {pid};
    }

    /** THREAD_CANCEL of a thread that find_tcb_from_tid finds. */
    method ThreadCancel(tid: nat)
      requires running.Some?
      modifies this`joins, this`ready, this`blocked, this`semThreads
      ensures Abs() == DoCancel(old(Abs()), tid)
    {
      UnlockJoins(ThreadId(running.value.id.pid, tid));
    }

    method DumpRequested()
      requires running.Some?
      modifies this`running, this`blocked, this`dumps
      ensures Abs() == DoRequestDump(old(Abs()))
    {
      blocked := blocked + [running.value];
      dumps := dumps + [running.value.id];
      running := None;
    }

    method Interrupted()
      requires running.Some?
      modifies this`running, this`ready, this`semThreads
      ensures Abs() == DoPreempt(old(Abs()))
    {
      ready := ready + [running.value];
      semThreads := semThreads + 1;
      running := None;
    }

    /** The switch of the dispatch loop: what the running thread asked for. */
    method ServeRunning(step: Step)
      requires Enabled(Abs(), step) && running.Some?
      requires !step.Dispatch? && !step.AdmitHead? && !step.CompleteIo? && !step.CompleteDump?
      modifies this
      ensures Abs() == Apply(old(Abs()), step)
    {
      hide Find, FindMutex, FreshTid, DoCreateProcess, DoExitProcess, Known, Awaited, Owns,
        DoJoin, DoExitThread, DoCancel, DoTeardown, CanTearDown, DoCreateMutex, DoLock, Unlock, DoRequestIo,
        DoRequestDump, DoPreempt, Spawn;
      match step
      case CreateProcess(size, priority) => CreateProcess(size, priority);
      case ExitProcess =>
        OneTurn(Abs());
        ProcessExit([running.value]);
      case SegmentationFault =>
        OneTurn(Abs());
        ProcessExit([running.value]);
      case CancelThread(tid) => ThreadCancel(tid);
      case CreateThread(priority) => CreateThread(running.value.id.pid, active[running.value.id.pid], priority, true);
      case JoinThread(tid) => ThreadJoin(tid);
      case ExitThread => ThreadExit();
      case CreateMutex(name) => MutexCreate(name, running.value.id.pid);
      case LockMutex(name) =>
        var goOn := MutexLock(name, running.value);
        if !goOn {
          running := None;
        }
      case UnlockMutex(name) => MutexUnlock(name, running.value);
      case RequestIo(time) =>
        RequestIo(running.value, time);
        running := None;
      case RequestDump => DumpRequested();
      case Preempt => Interrupted();
    }

    /** Any one atomic step of the kernel, by the dispatcher or by another actor. */
    method Serve(step: Step)
      requires Inv(Abs()) && Enabled(Abs(), step)
      requires step.Dispatch? ==> step.policy == policy
      modifies this
      ensures Abs() == Apply(old(Abs()), step) && Inv(Abs())
    {
      hide Inv, Find, FindMutex, FreshTid, Known, Awaited, Owns, DoDispatch, DoCreateProcess, DoAdmitHead,
        DoExitProcess, DoCreateThread, DoJoin, DoExitThread, DoCancel, DoCreateMutex, DoLock, Unlock,
        DoRequestIo, DoCompleteIo, DoRequestDump, DoCompleteDump, DoPreempt;
      StepKeeps(Abs(), step);
      if step.Dispatch? {
        var _ := NextThread();
      } else if step.AdmitHead? {
        var _ := TryCreateNewProcess(true, true);
      } else if step.CompleteIo? {
        IoTurn();
      } else if step.CompleteDump? {
        DumpAnswered(step.index);
      } else if step.CreateProcess? {
        CreateProcess(step.size, step.priority);
      } else {
        ServeRunning(step);
      }
    }
  }

  // Facts the methods lean on

  lemma IoTurnIs(s: State, rest: seq<Tcb>, found: Option<Tcb>)
    requires s.ioQueue != [] && s.semIo > 0
    requires var x := s.ioQueue[0].id;
      && (Has(s.blocked, x) ==>
            rest == RemoveAt(s.blocked, Find(s.blocked, x)) && found == Some(s.blocked[Find(s.blocked, x)]))
      && (!Has(s.blocked, x) ==> rest == s.blocked && found == None)
    ensures var taken := s.(ioQueue := s.ioQueue[1..], semIo := s.semIo - 1, blocked := rest);
      DoCompleteIo(s) == if found.None? then taken
                         else taken.(ready := s.ready + [found.value], semThreads := s.semThreads + 1)
  {
    hide Find, RemoveAt;
  }

  lemma WakeIgnoresMutexes(s: State, x: ThreadId, mutexes: seq<Mutex>)
    ensures Wake(s.(mutexes := mutexes), x) == Wake(s, x).(mutexes := mutexes)
  {
    hide Find, RemoveAt;
  }

  lemma {:induction false} FindMutexPresent(mutexes: seq<Mutex>, i: nat)
    requires i < |mutexes|
    ensures FindMutex(mutexes, mutexes[i].name) < |mutexes|
  {
  }

  lemma UnlockKeepsLength(s: State, name: string, tid: nat)
    ensures |Unlock(s, name, tid).mutexes| == |s.mutexes|
  {
  }

  lemma {:induction false} PickUnique(ready: seq<Tcb>, i: nat)
    requires i < |ready|
    requires forall j :: 0 <= j < |ready| ==> ready[i].priority <= ready[j].priority
    requires forall j :: 0 <= j < i ==> ready[i].priority < ready[j].priority
    ensures Pick(Priorities, ready) == i
  {
    var p := Pick(Priorities, ready);
    assert ready[p].priority <= ready[i].priority;
    assert ready[i].priority <= ready[p].priority;
  }

  lemma ReadyWhenPosted(s: State)
    requires Core(s) && s.semThreads > 0
    ensures s.ready != []
  {
  }

  lemma {:induction false} DispatchIs(s: State, policy: Policy)
    requires s.ready != [] && s.semThreads > 0
    ensures var i := Pick(policy, s.ready);
      DoDispatch(s, policy)
        == s.(running := Some(s.ready[i]), ready := RemoveAt(s.ready, i), semThreads := s.semThreads - 1)
  {
  }

  lemma RunningNotReady(s: State)
    requires Core(s) && s.running.Some?
    ensures !Has(s.ready, s.running.value.id)
  {
    HasMeansMember(s.ready, s.running.value.id);
    assert Live(s)[s.running.value.id] <= 1;
  }

  lemma {:induction false} ReleaseKeepsActive(s: State, i: nat, tid: nat)
    requires i <= |s.mutexes|
    ensures ReleaseFrom(s, i, tid).active == s.active
    decreases |s.mutexes| - i
  {
    if i < |s.mutexes| {
      if HeldBy(s.mutexes[i], tid) {
        ReleaseKeepsActive(Unlock(s, s.mutexes[i].name, tid), i + 1, tid);
      } else {
        ReleaseKeepsActive(s, i + 1, tid);
      }
    }
  }

  lemma {:induction false} TearDownKeepsActive(s: State, tcbs: seq<Tcb>, wait: bool)
    ensures TearDown(s, tcbs, wait).active == s.active
    decreases |tcbs|
  {
    hide ReleaseFrom;
    if tcbs != [] {
      var r := s.(exited := s.exited + [tcbs[0]],
                  semThreads := if wait && s.semThreads > 0 then s.semThreads - 1 else s.semThreads);
      ReleaseKeepsActive(r, 0, tcbs[0].id.tid);
      TearDownKeepsActive(TornOnce(s, tcbs[0], wait), tcbs[1..], wait);
    }
  }

  lemma {:induction false} TurnUnfolds(s: State, tcbs: seq<Tcb>, i: nat, wait: bool)
    requires i < |tcbs| && CanTearDown(s, tcbs[i..], wait)
    ensures wait ==> s.semThreads > 0
    ensures CanTearDown(TornOnce(s, tcbs[i], wait), tcbs[i + 1..], wait)
    ensures TearDown(s, tcbs[i..], wait) == TearDown(TornOnce(s, tcbs[i], wait), tcbs[i + 1..], wait)
  {
    hide TornOnce;
    assert tcbs[i..][0] == tcbs[i] && tcbs[i..][1..] == tcbs[i + 1..];
  }

  lemma {:induction false} NoTurnsLeft(s: State, tcbs: seq<Tcb>, wait: bool)
    requires tcbs == []
    ensures TearDown(s, tcbs, wait) == s
  {
  }

  /** For the last thread of a process the loop takes one turn, without waiting. */
  lemma {:induction false} OneTurn(s: State)
    requires s.running.Some?
    ensures CanTearDown(s, [s.running.value], false)
    ensures DoTeardown(s, [s.running.value]) == DoExitProcess(s)
  {
    hide ReleaseFrom;
    var me := s.running.value;
    assert [me][1..] == [];
    NoTurnsLeft(TornOnce(s, me, false), [], false);
    assert s.(exited := s.exited + [me], semThreads := s.semThreads) == s.(exited := s.exited + [me]);
    assert TearDown(s, [me], false) == TearDown(TornOnce(s, me, false), [me][1..], false);
    ReleaseKeepsActive(s.(exited := s.exited + [me]), 0, me.id.tid);
    assert TornOnce(s, me, false) == ReleaseFrom(s.(exited := s.exited + [me]), 0, me.id.tid);
  }
}
