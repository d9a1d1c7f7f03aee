/** Who comes first when the scheduler decides by priority and the members of the mutex workload have the
    worst: as long as a thread of another process is alive no member runs and nobody has the mutex. */
module MutexRanks {
  import opened KernelInvariant
  import opened KernelRuns
  import opened WholeSystem
  import opened MutexScript
  import opened MutexFrame
  import opened MutexFamily
  import opened MutexParent
  import K = KernelState
  import M = Memory

  // What the kernel's lists hold

  /** Threads of other processes come before the members, whatever the parent's priority. */
  predicate Rank(f: Family, t: K.Tcb) {
    && (t.id.pid != 0 ==> t.priority < f.priority)
    && (t.id.pid == 0 && t.id.tid != 0 ==> t.priority >= f.priority)
  }

  predicate Ranked(f: Family, list: seq<K.Tcb>) {
    forall i :: 0 <= i < |list| ==> Rank(f, list[i])
  }

  predicate NewRanked(f: Family, pending: seq<K.PendingPcb>, first: seq<K.FirstThread>) {
    |first| == |pending| && forall i :: 0 <= i < |pending| && pending[i].pid != 0 ==> first[i].priority < f.priority
  }

  /** In another process only thread 0 waits, and for another thread. */
  predicate ParentJoin(j: K.Join) {
    j.blocked.pid != 0 ==> j.blocked.tid == 0 && j.blocking.tid != 0
  }

  predicate House(f: Family, k: K.State) {
    && Ranked(f, k.ready) && Ranked(f, k.blocked) && (k.running.Some? ==> Rank(f, k.running.value))
    && NewRanked(f, k.pending, k.firstThreads)
    && k.ioQueue == [] && k.dumps == []
    && (forall i :: 0 <= i < |k.mutexes| ==> k.mutexes[i].pid == 0)
    && (forall i :: 0 <= i < |k.joins| ==> ParentJoin(k.joins[i]))
  }

  lemma WakeHouse(f: Family, k: K.State, x: K.ThreadId)
    requires House(f, k)
    ensures House(f, K.WakeAndPost(k, x))
  {
    hide K.Find, Rank, NewRanked, ParentJoin;
  }

  lemma WakeSpares(k: K.State, x: K.ThreadId)
    ensures K.WakeAndPost(k, x).joins == k.joins && K.WakeAndPost(k, x).mutexes == k.mutexes
  {
    hide K.Find;
  }

  lemma {:induction false} JoinsHouse(f: Family, k: K.State, i: nat, x: K.ThreadId)
    requires House(f, k)
    ensures House(f, K.UnlockJoinsFrom(k, i, x))
    decreases |k.joins| - i
  {
    hide K.WakeAndPost, Rank, NewRanked, ParentJoin, Ranked;
    if i < |k.joins| {
      if k.joins[i].blocking == x {
        WakeHouse(f, k, k.joins[i].blocked);
        WakeSpares(k, k.joins[i].blocked);
        JoinsHouse(f, K.WakeJoiner(k, i), i, x);
      } else {
        JoinsHouse(f, k, i + 1, x);
      }
    }
  }

  lemma UnlockHouse(f: Family, k: K.State, name: string, tid: nat)
    requires House(f, k)
    ensures House(f, K.Unlock(k, name, tid)) && |K.Unlock(k, name, tid).mutexes| == |k.mutexes|
  {
    hide K.FindMutex, K.WakeAndPost, Rank, NewRanked, ParentJoin, Ranked;
    var i := K.FindMutex(k.mutexes, name);
    if i < |k.mutexes| && k.mutexes[i].waiters != [] {
      WakeHouse(f, k, k.mutexes[i].waiters[0]);
      WakeSpares(k, k.mutexes[i].waiters[0]);
    }
  }

  lemma {:induction false} ReleasesHouse(f: Family, k: K.State, i: nat, tid: nat)
    requires House(f, k) && i <= |k.mutexes|
    ensures House(f, K.ReleaseFrom(k, i, tid))
    decreases |k.mutexes| - i
  {
    hide House, K.Unlock;
    if i < |k.mutexes| {
      if K.HeldBy(k.mutexes[i], tid) {
        UnlockHouse(f, k, k.mutexes[i].name, tid);
        ReleasesHouse(f, K.Unlock(k, k.mutexes[i].name, tid), i + 1, tid);
      } else {
        ReleasesHouse(f, k, i + 1, tid);
      }
    }
  }

  /** The steps that the two workloads can make. */
  predicate Makes(f: Family, k: K.State, step: K.Step) {
    match step
    case RequestIo(_) => false
    case RequestDump => false
    case CancelThread(_) => false
    case CreateMutex(_) => k.running.Some? && k.running.value.id.pid == 0
    case JoinThread(t) => k.running.Some? && (k.running.value.id.pid != 0 ==> k.running.value.id.tid == 0 && t != 0)
    case CreateThread(p) => k.running.Some? && if k.running.value.id.pid == 0 then p >= f.priority else p < f.priority
    case CreateProcess(_, p) => p < f.priority
    case _ => true
  }

  lemma {:induction false} EndHouse(f: Family, k: K.State)
    requires House(f, k) && k.running.Some?
    ensures House(f, K.DoExitThread(k)) && House(f, K.DoExitProcess(k))
  {
    hide K.UnlockJoinsFrom, K.ReleaseFrom, Ranked, Rank, NewRanked, ParentJoin;
    var me := k.running.value;
    var counts := if me.id.pid in k.active then k.active[me.id.pid := K.Decremented(k.active[me.id.pid])] else k.active;
    var r := k.(exited := k.exited + [me], active := counts);
    JoinsHouse(f, r, 0, me.id);
    ReleasesHouse(f, K.UnlockJoinsFrom(r, 0, me.id), 0, me.id.tid);
    ReleasesHouse(f, k.(exited := k.exited + [me]), 0, me.id.tid);
  }

  lemma LockHouse(f: Family, k: K.State, name: string)
    requires House(f, k) && k.running.Some?
    ensures House(f, K.DoLock(k, name))
  {
    hide K.FindMutex, Rank, NewRanked, ParentJoin;
  }

  lemma SpawnHouse(f: Family, k: K.State, pid: nat, count: nat, priority: nat)
    requires House(f, k) && Rank(f, K.Tcb(K.ThreadId(pid, count), priority))
    ensures House(f, K.Spawn(k, pid, count, priority))
  {
    hide Rank, NewRanked, ParentJoin;
  }

  lemma AdmitHouse(f: Family, k: K.State)
    requires k.pending != [] && k.firstThreads != []
    requires House(f, k) && House(f, K.Spawn(k, k.pending[0].pid, 0, k.firstThreads[0].priority))
    ensures House(f, K.DoAdmitHead(k))
  {
    hide Rank, ParentJoin, Ranked;
  }

  lemma {:induction false} StepHouse(f: Family, k: K.State, step: K.Step)
    requires Inv(k) && House(f, k) && K.Enabled(k, step) && Makes(f, k, step)
    ensures House(f, K.Apply(k, step))
  {
    hide Inv, K.FindMutex, K.Find, K.FreshTid, K.Awaited, K.Owns, K.DoExitThread, K.DoExitProcess, K.DoLock, K.Unlock,
      K.Spawn;
    match step
    case ExitThread => EndHouse(f, k);
    case ExitProcess => EndHouse(f, k);
    case SegmentationFault => EndHouse(f, k);
    case LockMutex(name) => LockHouse(f, k, name);
    case UnlockMutex(name) => UnlockHouse(f, k, name, k.running.value.id.tid);
    case CreateThread(p) =>
      RunningActive(k);
      SpawnHouse(f, k, k.running.value.id.pid, k.active[k.running.value.id.pid], p);
    case AdmitHead =>
      SpawnHouse(f, k, k.pending[0].pid, 0, k.firstThreads[0].priority);
      AdmitHouse(f, k);
    case _ =>
  }

  // Who comes first

  /** Some thread of another process is alive. */
  ghost predicate Visited(k: K.State) {
    exists x :: x in Live(k) && x.pid != 0
  }

  /** Nobody holds the mutex and no member runs. */
  predicate Clear(k: K.State) {
    && (LockOf(k).Some? ==> !LockOf(k).value.taken)
    && (k.running.Some? && k.running.value.id.pid == 0 ==> k.running.value.id.tid == 0)
  }

  ghost predicate OthersFirst(k: K.State) {
    Visited(k) ==> Clear(k)
  }

  lemma ClearMeansNotHeld(k: K.State, tid: nat)
    requires Clear(k)
    ensures !HeldUnder(k, tid)
  {
  }

  /** A thread of another process is alive when it runs. */
  lemma VisitorRuns(k: K.State)
    requires k.running.Some? && k.running.value.id.pid != 0
    ensures Visited(k)
  {
    RunningIsLive(k);
  }

  lemma ClearIsFirst(k: K.State)
    requires Clear(k)
    ensures OthersFirst(k)
  {
  }

  lemma {:induction false} WaiterOfSome(mutexes: seq<K.Mutex>, x: K.ThreadId)
    requires x in MutexWaiters(mutexes)
    ensures exists i, j :: 0 <= i < |mutexes| && 0 <= j < |mutexes[i].waiters| && mutexes[i].waiters[j] == x
  {
    if x in mutexes[0].waiters {
      var j :| 0 <= j < |mutexes[0].waiters| && mutexes[0].waiters[j] == x;
    } else {
      WaiterOfSome(mutexes[1..], x);
      var i, j :| 0 <= i < |mutexes[1..]| && 0 <= j < |mutexes[1..][i].waiters| && mutexes[1..][i].waiters[j] == x;
      assert mutexes[i + 1].waiters[j] == x;
    }
  }

  /** Another process's thread is blocked only as a parent joining. */
  lemma {:induction false} BlockedJoins(f: Family, k: K.State, x: K.ThreadId)
    requires Inv(k) && House(f, k) && x in Ids(k.blocked) && x.pid != 0
    ensures exists i :: 0 <= i < |k.joins| && k.joins[i].blocked == x
    ensures x.tid == 0
  {
    hide Counted, PendingOk, JoinsOk, AtMostOnce, Live, Ranked, NewRanked, MutexWaiters;
    assert x in multiset(Ids(k.blocked));
    assert x in KernelInvariant.Waiting(k);
    assert IoWaiters(k.ioQueue) == [];
    if x in MutexWaiters(k.mutexes) {
      WaiterOfSome(k.mutexes, x);
      var i, j :| 0 <= i < |k.mutexes| && 0 <= j < |k.mutexes[i].waiters| && k.mutexes[i].waiters[j] == x;
      assert false;
    } else {
      assert x in JoinWaiters(k.joins);
      var i :| 0 <= i < |k.joins| && JoinWaiters(k.joins)[i] == x;
      assert k.joins[i].blocked == x && ParentJoin(k.joins[i]);
    }
  }

  lemma JoinTarget(k: K.State, i: nat)
    requires Inv(k) && i < |k.joins|
    ensures k.joins[i].blocking in Live(k) && k.joins[i].blocking.pid == k.joins[i].blocked.pid
  {
    hide Counted, PendingOk, MutexesOk, AtMostOnce, KernelInvariant.Waiting, Live;
  }

  lemma LiveSomewhere(k: K.State, x: K.ThreadId)
    requires k.running.None? && x in Live(k)
    ensures x in Ids(k.ready) || x in Ids(k.blocked)
  {
  }

  lemma HouseJoins(f: Family, k: K.State, j: nat)
    requires House(f, k) && j < |k.joins|
    ensures ParentJoin(k.joins[j])
  {
    hide Ranked, NewRanked, ParentJoin;
  }

  /** When nobody runs and another process has a live thread, one of its threads is READY. */
  lemma {:induction false} OneIsReady(f: Family, k: K.State, x: K.ThreadId) returns (i: nat)
    requires Inv(k) && House(f, k) && k.running.None? && x in Live(k) && x.pid != 0
    ensures i < |k.ready| && k.ready[i].id.pid != 0
  {
    hide Inv, House, Live, Ids;
    LiveSomewhere(k, x);
    var y := x;
    if x in Ids(k.blocked) {
      BlockedJoins(f, k, x);
      var j :| 0 <= j < |k.joins| && k.joins[j].blocked == x;
      y := k.joins[j].blocking;
      JoinTarget(k, j);
      assert y.tid != 0 by { HouseJoins(f, k, j); }
      LiveSomewhere(k, y);
      if y in Ids(k.blocked) {
        BlockedJoins(f, k, y);
        assert false;
      }
    }
    i :| 0 <= i < |k.ready| && Ids(k.ready)[i] == y;
  }

  lemma BestIsNoMember(f: Family, k: K.State, i: nat)
    requires House(f, k) && i < |k.ready| && k.ready[i].id.pid != 0
    ensures var y := k.ready[K.Pick(K.Priorities, k.ready)]; y.id.pid == 0 ==> y.id.tid == 0
  {
    hide NewRanked, ParentJoin;
    var p := K.Pick(K.Priorities, k.ready);
    assert Rank(f, k.ready[p]) && Rank(f, k.ready[i]);
    assert k.ready[p].priority <= k.ready[i].priority;
  }

  lemma StaysClear(k: K.State, t: K.State)
    requires Clear(k) && LockOf(t) == LockOf(k)
    requires t.running.Some? && t.running.value.id.pid == 0 ==> t.running.value.id.tid == 0
    ensures Clear(t)
  {
    hide LockOf;
  }

  /** The best of READY is not a member as long as another process has a live thread. */
  lemma {:induction false} PickedFirst(f: Family, k: K.State)
    requires Inv(k) && House(f, k) && OthersFirst(k) && K.Enabled(k, K.Dispatch(K.Priorities))
    ensures OthersFirst(K.Apply(k, K.Dispatch(K.Priorities)))
  {
    hide Inv, House, Live, LockOf, K.Pick, Clear;
    var step := K.Dispatch(K.Priorities);
    var t := K.Apply(k, step);
    assert t == K.DoDispatch(k, K.Priorities);
    RunningAfter(k, step);
    SteadyStep(k, step);
    LockFrame(k, step);
    if Visited(t) {
      var x :| x in Live(t) && x.pid != 0;
      var i := OneIsReady(f, k, x);
      assert Clear(k);
      BestIsNoMember(f, k, i);
      assert Clear(t) by { StaysClear(k, t); }
    }
  }

  lemma NoMemberRuns(k: K.State)
    requires Clear(k)
    ensures k.running.Some? && k.running.value.id.pid == 0 ==> k.running.value.id.tid == 0
  {
    hide LockOf;
  }

  /** A quiet step keeps the way clear. */
  lemma {:induction false} ClearStep(k: K.State, step: K.Step)
    requires Inv(k) && K.Enabled(k, step) && !step.Dispatch? && Clear(k)
    requires k.running.Some? ==> Quiet(k, k.running.value.id.tid, step)
    ensures Clear(K.Apply(k, step))
  {
    hide Inv, LockOf, K.Enabled, K.Apply, Quiet, Clear;
    var t := K.Apply(k, step);
    RunningAfter(k, step);
    LockFrame(k, step);
    assert Clear(t) by {
      NoMemberRuns(k);
      StaysClear(k, t);
    }
  }

  lemma {:induction false} FirstStep(k: K.State, step: K.Step)
    requires Inv(k) && K.Enabled(k, step) && !step.Dispatch? && OthersFirst(k)
    requires Visited(k) && k.running.Some? ==> Quiet(k, k.running.value.id.tid, step)
    requires !Visited(k) ==> forall y :: y in Created(k, step) ==> y.pid == 0
    ensures OthersFirst(K.Apply(k, step))
  {
    hide Inv, Live, LockOf, K.Enabled, K.Apply, Quiet, Clear, Created;
    var t := K.Apply(k, step);
    if Visited(k) {
      ClearStep(k, step);
    } else {
      LiveAfter(k, step);
      assert !Visited(t);
    }
  }

  // Calls and admission

  ghost predicate Ordered(f: Family, k: K.State) {
    House(f, k) && OthersFirst(k)
  }

  lemma HeadAdmits(k: K.State)
    requires k.pending != [] && k.firstThreads != []
    ensures K.Enabled(k, K.AdmitHead) && K.Apply(k, K.AdmitHead) == K.DoAdmitHead(k)
    ensures Created(k, K.AdmitHead) == multiset{K.ThreadId(k.pending[0].pid, 0)}
    ensures K.DoAdmitHead(k).pending == k.pending[1..]
    ensures k.running.Some? ==> Quiet(k, k.running.value.id.tid, K.AdmitHead)
  {
  }

  lemma {:induction false} AdmitOrdered(f: Family, v: Threads)
    requires Inv(v.k) && House(f, v.k) && Clear(v.k)
    ensures Ordered(f, AdmitThreads(v).k)
    decreases |v.k.pending|
  {
    hide Inv, House, Clear, OthersFirst, M.TryCreate, K.Apply, K.DoAdmitHead, K.Enabled;
    ClearIsFirst(v.k);
    if AttemptThreads(v).0 {
      var t := AttemptThreads(v).1;
      HeadAdmits(v.k);
      StepKeeps(v.k, K.AdmitHead);
      StepHouse(f, v.k, K.AdmitHead);
      ClearStep(v.k, K.AdmitHead);
      AdmitOrdered(f, t);
    } else {
      NotAdmitted(v);
    }
  }

  /** A call that leaves the mutex to the members, or creates it. */
  ghost predicate Permitted(f: Family, k: K.State, call: K.Step)
    requires k.running.Some?
  {
    && Makes(f, k, call)
    && (Visited(k) ==> Quiet(k, k.running.value.id.tid, call) || (call == K.CreateMutex(MUTEX) && LockOf(k).None?))
    && (call.CreateProcess? || call.ExitProcess? ==> Clear(k))
  }

  lemma {:induction false} MutexFirst(k: K.State)
    requires Inv(k) && OthersFirst(k) && k.running.Some? && LockOf(k).None?
    ensures OthersFirst(K.Apply(k, K.CreateMutex(MUTEX)))
  {
    hide Inv, Live, LockOf, K.DoCreateMutex;
    MutexCreated(k);
    var t := K.DoCreateMutex(k, MUTEX);
    assert t.running == k.running;
    assert Visited(t) ==> Visited(k);
  }

  lemma {:induction false} CallFirst(f: Family, k: K.State, call: K.Step)
    requires Inv(k) && OthersFirst(k) && k.running.Some? && K.Enabled(k, call) && Permitted(f, k, call)
    requires IsSyscall(call) || call.SegmentationFault?
    ensures OthersFirst(K.Apply(k, call))
    ensures call.CreateProcess? || call.ExitProcess? ==> Clear(K.Apply(k, call))
  {
    hide Inv, Clear, K.Enabled, LockOf, Live, K.DoExitProcess, K.DoCreateProcess;
    if call == K.CreateMutex(MUTEX) && LockOf(k).None? {
      MutexFirst(k);
    } else {
      assert !Visited(k) ==> forall y :: y in Created(k, call) ==> y.pid == 0 by {
        BornInOwnProcess(k, call);
        if k.running.value.id.pid != 0 {
          VisitorRuns(k);
        }
      }
      hide Created, K.Apply;
      assert !call.Dispatch?;
      FirstStep(k, call);
      if call.CreateProcess? || call.ExitProcess? {
        ClearMeansNotHeld(k, k.running.value.id.tid);
        ClearStep(k, call);
      }
    }
  }

  lemma {:induction false} ServeOrdered(f: Family, v: Threads, call: K.Step)
    requires Inv(v.k) && Ordered(f, v.k) && v.k.running.Some? && K.Enabled(v.k, call) && Permitted(f, v.k, call)
    requires IsSyscall(call) || call.SegmentationFault?
    ensures Ordered(f, ServeThreads(v, call).value.k)
  {
    hide Inv, House, Clear, OthersFirst, AdmitThreads, M.Delete, K.Apply, K.Enabled, Quiet, Makes, LockOf;
    var t := v.(k := K.Apply(v.k, call));
    StepKeeps(v.k, call);
    StepHouse(f, v.k, call);
    CallFirst(f, v.k, call);
    if call.CreateProcess? {
      AdmitOrdered(f, t);
    } else if call.ExitProcess? {
      AdmitOrdered(f, t.(m := M.Delete(v.m, v.k.running.value.id.pid)));
    }
  }
}
