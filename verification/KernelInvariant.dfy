/** What every reachable kernel state satisfies: each live thread is in exactly one place,
    BLOCKED is the disjoint union of everything a thread can be waiting for, the counting
    semaphores match their lists, and no wait is on a thread that is gone. */
module KernelInvariant {
  import opened Lists
  import opened KernelState

  function Ids(list: seq<Tcb>): (r: seq<ThreadId>)
    ensures |r| == |list|
    ensures forall i :: 0 <= i < |list| ==> r[i] == list[i].id
  {
    seq(|list|, i requires 0 <= i < |list| => list[i].id)
  }

  function RunningIds(s: State): seq<ThreadId> {
    if s.running.Some? then [s.running.value.id] else []
  }

  /** READY, BLOCKED and the running thread together. */
  function Live(s: State): multiset<ThreadId> {
    multiset(Ids(s.ready)) + multiset(Ids(s.blocked)) + multiset(RunningIds(s))
  }

  function JoinWaiters(joins: seq<Join>): (r: seq<ThreadId>)
    ensures |r| == |joins|
    ensures forall i :: 0 <= i < |joins| ==> r[i] == joins[i].blocked
  {
    seq(|joins|, i requires 0 <= i < |joins| => joins[i].blocked)
  }

  function IoWaiters(queue: seq<IoRequest>): (r: seq<ThreadId>)
    ensures |r| == |queue|
    ensures forall i :: 0 <= i < |queue| ==> r[i] == queue[i].id
  {
    seq(|queue|, i requires 0 <= i < |queue| => queue[i].id)
  }

  function MutexWaiters(mutexes: seq<Mutex>): multiset<ThreadId> {
    if mutexes == [] then multiset{}
    else multiset(mutexes[0].waiters) + MutexWaiters(mutexes[1..])
  }

  /** Everything a blocked thread can be waiting for, with multiplicity. */
  function Waiting(s: State): multiset<ThreadId> {
    multiset(JoinWaiters(s.joins)) + multiset(IoWaiters(s.ioQueue)) + MutexWaiters(s.mutexes) + multiset(s.dumps)
  }

  ghost predicate AtMostOnce(m: multiset<ThreadId>) {
    forall x :: m[x] <= 1
  }

  ghost predicate JoinsOk(joins: seq<Join>, live: multiset<ThreadId>) {
    forall i :: 0 <= i < |joins| ==>
      joins[i].blocking in live && joins[i].blocking.pid == joins[i].blocked.pid
  }

  ghost predicate MutexOk(m: Mutex, live: multiset<ThreadId>) {
    && m.blockedCount == |m.waiters|
    && (forall i :: 0 <= i < |m.waiters| ==> m.waiters[i].pid == m.pid)
    && (if m.taken then m.tid >= 0 && ThreadId(m.pid, m.tid) in live && ThreadId(m.pid, m.tid) !in m.waiters
        else m.waiters == [] && m.tid == -1)
  }

  ghost predicate MutexesOk(mutexes: seq<Mutex>, live: multiset<ThreadId>) {
    && (forall i, j :: 0 <= i < j < |mutexes| ==> mutexes[i].name != mutexes[j].name)
    && (forall i :: 0 <= i < |mutexes| ==> MutexOk(mutexes[i], live))
  }

  /** The part of the invariant about where threads are and what they wait for. */
  ghost predicate Core(s: State) {
    && AtMostOnce(Live(s))
    && multiset(Ids(s.blocked)) == Waiting(s)
    && s.semThreads == |s.ready|
    && s.semIo == |s.ioQueue|
    && JoinsOk(s.joins, Live(s))
    && MutexesOk(s.mutexes, Live(s))
  }

  function Pids(list: seq<Tcb>): (r: seq<nat>)
    ensures |r| == |list|
    ensures forall i :: 0 <= i < |list| ==> r[i] == list[i].id.pid
  {
    seq(|list|, i requires 0 <= i < |list| => list[i].id.pid)
  }

  /** The process of every live thread, with multiplicity. */
  function LivePids(s: State): multiset<nat> {
    multiset(Pids(s.ready)) + multiset(Pids(s.blocked))
    + if s.running.Some? then multiset{s.running.value.id.pid} else multiset{}
  }

  /** Live threads belong to admitted processes, whose thread counts cover them. */
  ghost predicate Counted(s: State) {
    forall pid :: LivePids(s)[pid] <= if pid in s.active then s.active[pid] else 0
  }

  /** NEW and the first-thread parameters are aligned, in PID order, all PIDs used once. */
  ghost predicate PendingOk(s: State) {
    && |s.pending| == |s.firstThreads|
    && (forall i :: 0 <= i < |s.pending| ==>
          s.pending[i].size == s.firstThreads[i].size && s.pending[i].pid < s.nextPid && s.pending[i].pid !in s.active)
    && (forall i, j :: 0 <= i < j < |s.pending| ==> s.pending[i].pid < s.pending[j].pid)
    && (forall pid :: pid in s.active ==> pid < s.nextPid)
  }

  ghost predicate Inv(s: State) {
    Core(s) && Counted(s) && PendingOk(s)
  }

  // Bookkeeping lemmas

  lemma ListRemoveAt(list: seq<Tcb>, i: nat)
    requires i < |list|
    ensures multiset(Ids(list)) == multiset(Ids(RemoveAt(list, i))) + multiset{list[i].id}
    ensures multiset(Pids(list)) == multiset(Pids(RemoveAt(list, i))) + multiset{list[i].id.pid}
  {
    assert Ids(RemoveAt(list, i)) == RemoveAt(Ids(list), i);
    assert Pids(RemoveAt(list, i)) == RemoveAt(Pids(list), i);
    RemoveAtMultiset(Ids(list), i);
    RemoveAtMultiset(Pids(list), i);
  }

  lemma ListAppend(list: seq<Tcb>, t: Tcb)
    ensures Ids(list + [t]) == Ids(list) + [t.id]
    ensures multiset(Ids(list + [t])) == multiset(Ids(list)) + multiset{t.id}
    ensures multiset(Pids(list + [t])) == multiset(Pids(list)) + multiset{t.id.pid}
  {
    assert Ids(list + [t]) == Ids(list) + [t.id];
    assert Pids(list + [t]) == Pids(list) + [t.id.pid];
  }

  lemma HasMeansMember(list: seq<Tcb>, x: ThreadId)
    ensures Has(list, x) <==> x in multiset(Ids(list))
  {
    var i := Find(list, x);
    if i < |list| {
      assert Ids(list)[i] == x;
    }
  }

  lemma KnownMeansLive(s: State, x: ThreadId)
    ensures Known(s, x) <==> x in Live(s)
  {
    HasMeansMember(s.ready, x);
    HasMeansMember(s.blocked, x);
  }

  lemma {:induction false} WaitersUpdate(mutexes: seq<Mutex>, i: nat, m: Mutex)
    requires i < |mutexes|
    ensures MutexWaiters(mutexes[i := m]) + multiset(mutexes[i].waiters) == MutexWaiters(mutexes) + multiset(m.waiters)
  {
    var rest := mutexes[1..];
    if i == 0 {
      assert mutexes[0 := m][1..] == rest;
    } else {
      assert mutexes[i := m][1..] == rest[i - 1 := m];
      WaitersUpdate(rest, i - 1, m);
      var head := multiset(mutexes[0].waiters);
      calc {
        MutexWaiters(mutexes[i := m]) + multiset(mutexes[i].waiters);
        head + (MutexWaiters(rest[i - 1 := m]) + multiset(rest[i - 1].waiters));
        head + (MutexWaiters(rest) + multiset(m.waiters));
        MutexWaiters(mutexes) + multiset(m.waiters);
      }
    }
  }

  lemma {:induction false} WaitersAppend(mutexes: seq<Mutex>, m: Mutex)
    ensures MutexWaiters(mutexes + [m]) == MutexWaiters(mutexes) + multiset(m.waiters)
  {
    if mutexes == [] {
      assert mutexes + [m] == [m];
    } else {
      assert (mutexes + [m])[1..] == mutexes[1..] + [m];
      WaitersAppend(mutexes[1..], m);
    }
  }

  lemma {:induction false} WaitersOfOne(mutexes: seq<Mutex>, i: nat)
    requires i < |mutexes|
    ensures multiset(mutexes[i].waiters) <= MutexWaiters(mutexes)
  {
    if i > 0 {
      WaitersOfOne(mutexes[1..], i - 1);
    }
  }

  /** One more thread is waiting, through exactly one of the four kinds of wait record. */
  lemma WaitingAdds(s: State, t: State, x: ThreadId)
    requires
      || (multiset(JoinWaiters(t.joins)) == multiset(JoinWaiters(s.joins)) + multiset{x}
          && t.ioQueue == s.ioQueue && t.mutexes == s.mutexes && t.dumps == s.dumps)
      || (multiset(IoWaiters(t.ioQueue)) == multiset(IoWaiters(s.ioQueue)) + multiset{x}
          && t.joins == s.joins && t.mutexes == s.mutexes && t.dumps == s.dumps)
      || (MutexWaiters(t.mutexes) == MutexWaiters(s.mutexes) + multiset{x}
          && t.joins == s.joins && t.ioQueue == s.ioQueue && t.dumps == s.dumps)
      || (multiset(t.dumps) == multiset(s.dumps) + multiset{x}
          && t.joins == s.joins && t.ioQueue == s.ioQueue && t.mutexes == s.mutexes)
    ensures Waiting(t) == Waiting(s) + multiset{x}
  {
  }

  /** The invariant carries over when the live threads are the same ones. */
  lemma CoreCarriesOver(s: State, t: State)
    requires Core(s) && Live(t) == Live(s)
    requires multiset(Ids(t.blocked)) == Waiting(t)
    requires t.semThreads == |t.ready| && t.semIo == |t.ioQueue|
    requires JoinsOk(t.joins, Live(s)) && MutexesOk(t.mutexes, Live(s))
    ensures Core(t)
  {
  }

  lemma CountedCarriesOver(s: State, t: State)
    requires Counted(s) && LivePids(t) == LivePids(s) && t.active == s.active
    ensures Counted(t)
  {
  }

  // Waking a thread that really is blocked

  /** Everything but the thread lists, the semaphore and the wait records is the same. */
  predicate SameElsewhere(s: State, t: State) {
    && t.running == s.running && t.exited == s.exited
    && t.ioQueue == s.ioQueue && t.semIo == s.semIo && t.dumps == s.dumps
    && t.active == s.active && t.pending == s.pending
    && t.firstThreads == s.firstThreads && t.nextPid == s.nextPid
  }

  /** A wake-up always finds its thread when the thread is blocked, and moves nothing else. */
  lemma WakeMovesOne(s: State, x: ThreadId)
    requires x in multiset(Ids(s.blocked))
    ensures Has(s.blocked, x)
    ensures var t := WakeAndPost(s, x);
      && multiset(Ids(s.blocked)) == multiset(Ids(t.blocked)) + multiset{x}
      && Ids(t.ready) == Ids(s.ready) + [x]
      && t.semThreads == s.semThreads + 1 && |t.ready| == |s.ready| + 1
      && Live(t) == Live(s)
      && LivePids(t) == LivePids(s)
      && SameElsewhere(s, t) && t.joins == s.joins && t.mutexes == s.mutexes
  {
    HasMeansMember(s.blocked, x);
    var i := Find(s.blocked, x);
    ListRemoveAt(s.blocked, i);
    ListAppend(s.ready, s.blocked[i]);
  }

  /** Waking x and dropping the record it was waiting on, seen from the state t after both. */
  lemma CoreAfterWake(s: State, t: State, x: ThreadId)
    requires Core(s) && Waiting(s) == Waiting(t) + multiset{x}
    requires t.blocked == WakeAndPost(s, x).blocked && t.ready == WakeAndPost(s, x).ready
    requires t.semThreads == s.semThreads + 1 && t.running == s.running && t.semIo == |t.ioQueue|
    requires JoinsOk(t.joins, Live(s)) && MutexesOk(t.mutexes, Live(s))
    ensures Has(s.blocked, x)
    ensures Core(t) && Live(t) == Live(s) && LivePids(t) == LivePids(s) && Ids(t.ready) == Ids(s.ready) + [x]
  {
    assert x in Waiting(s);
    WakeMovesOne(s, x);
    assert Live(t) == Live(WakeAndPost(s, x));
    CancelAll(multiset(Ids(t.blocked)), Waiting(t), multiset{x});
    CoreCarriesOver(s, t);
  }

  /** Blocking the running thread with one new record to wait on. */
  lemma CoreAfterBlock(s: State, t: State)
    requires Core(s) && s.running.Some?
    requires t.ready == s.ready && t.blocked == s.blocked + [s.running.value] && t.running.None?
    requires Waiting(t) == Waiting(s) + multiset{s.running.value.id}
    requires t.semThreads == s.semThreads && t.semIo == |t.ioQueue|
    requires JoinsOk(t.joins, Live(s)) && MutexesOk(t.mutexes, Live(s))
    ensures Core(t) && Live(t) == Live(s) && LivePids(t) == LivePids(s)
  {
    ListAppend(s.blocked, s.running.value);
    assert Live(t) == Live(s);
    assert LivePids(t) == LivePids(s);
    CoreCarriesOver(s, t);
  }

  // A step hidden inside THREAD_EXIT: one join record satisfied

  lemma JoinsRemoveAt(joins: seq<Join>, i: nat, live: multiset<ThreadId>)
    requires i < |joins|
    ensures multiset(JoinWaiters(joins)) == multiset(JoinWaiters(RemoveAt(joins, i))) + multiset{joins[i].blocked}
    ensures JoinsOk(joins, live) ==> JoinsOk(RemoveAt(joins, i), live)
  {
    var r := RemoveAt(joins, i);
    assert JoinWaiters(r) == RemoveAt(JoinWaiters(joins), i);
    RemoveAtMultiset(JoinWaiters(joins), i);
    assert forall j :: 0 <= j < |r| ==> r[j] == if j < i then joins[j] else joins[j + 1];
  }

  lemma WakeJoinerKeeps(s: State, i: nat)
    requires Core(s) && i < |s.joins|
    ensures Has(s.blocked, s.joins[i].blocked)
    ensures var t := WakeJoiner(s, i);
      && Core(t) && Live(t) == Live(s) && LivePids(t) == LivePids(s) && SameElsewhere(s, t) && t.mutexes == s.mutexes
      && Ids(t.ready) == Ids(s.ready) + [s.joins[i].blocked]
  {
    var t := WakeJoiner(s, i);
    JoinsRemoveAt(s.joins, i, Live(s));
    WaitingAdds(t, s, s.joins[i].blocked);
    CoreAfterWake(s, t, s.joins[i].blocked);
  }

  lemma {:induction false} UnlockJoinsKeeps(s: State, i: nat, x: ThreadId)
    requires Core(s) && i <= |s.joins|
    requires forall j :: 0 <= j < i ==> s.joins[j].blocking != x
    ensures var t := UnlockJoinsFrom(s, i, x);
      && Core(t) && Live(t) == Live(s) && LivePids(t) == LivePids(s) && SameElsewhere(s, t) && t.mutexes == s.mutexes
      && !Awaited(t, x)
    decreases |s.joins| - i
  {
    hide Core, Live, LivePids;
    if i < |s.joins| {
      if s.joins[i].blocking == x {
        WakeJoinerKeeps(s, i);
        UnlockJoinsKeeps(WakeJoiner(s, i), i, x);
      } else {
        UnlockJoinsKeeps(s, i + 1, x);
      }
    }
  }

  // A step hidden inside THREAD_EXIT: one mutex released

  /** What releasing does to one mutex record. */
  function Released(m: Mutex): Mutex {
    if m.waiters != [] then
      m.(tid := m.waiters[0].tid, waiters := m.waiters[1..], blockedCount := m.blockedCount - 1)
    else m.(taken := false, tid := -1)
  }

  lemma ReleasedOk(m: Mutex, live: multiset<ThreadId>)
    requires m.taken && MutexOk(m, live)
    requires m.waiters != [] ==> m.waiters[0] in live && m.waiters[0] !in m.waiters[1..]
    ensures MutexOk(Released(m), live) && Released(m).tid != m.tid && Released(m).name == m.name
  {
    if m.waiters != [] {
      assert m.waiters[0].pid == m.pid;
      assert m.waiters[0] in m.waiters;
    }
  }

  lemma MutexesOkUpdate(mutexes: seq<Mutex>, i: nat, m: Mutex, live: multiset<ThreadId>)
    requires i < |mutexes| && MutexesOk(mutexes, live) && MutexOk(m, live) && m.name == mutexes[i].name
    ensures MutexesOk(mutexes[i := m], live)
  {
  }

  /** A waiter is blocked on its mutex alone, so it stands in that queue once. */
  lemma WaiterOnce(s: State, i: nat)
    requires Core(s) && i < |s.mutexes| && s.mutexes[i].waiters != []
    ensures s.mutexes[i].waiters[0] in Live(s)
    ensures s.mutexes[i].waiters[0] !in s.mutexes[i].waiters[1..]
  {
    hide MutexWaiters, JoinsOk, MutexesOk, Ids;
    var m := s.mutexes[i];
    var next := m.waiters[0];
    WaitersOfOne(s.mutexes, i);
    assert m.waiters == [next] + m.waiters[1..];
    assert multiset(m.waiters) == multiset{next} + multiset(m.waiters[1..]);
    assert multiset(m.waiters)[next] <= Waiting(s)[next];
    assert Waiting(s)[next] <= Live(s)[next];
  }

  lemma ReleasedMutexesOk(s: State, i: nat)
    requires Core(s) && i < |s.mutexes| && s.mutexes[i].taken
    ensures MutexesOk(s.mutexes[i := Released(s.mutexes[i])], Live(s))
    ensures Released(s.mutexes[i]).tid != s.mutexes[i].tid
  {
    hide Live, LivePids, JoinsOk, AtMostOnce, Waiting;
    if s.mutexes[i].waiters != [] {
      WaiterOnce(s, i);
    }
    assert MutexOk(s.mutexes[i], Live(s));
    ReleasedOk(s.mutexes[i], Live(s));
    MutexesOkUpdate(s.mutexes, i, Released(s.mutexes[i]), Live(s));
  }

  lemma ReleaseWaits(s: State, i: nat)
    requires i < |s.mutexes|
    ensures var t := Release(s, i); var m := s.mutexes[i];
      if m.waiters == [] then MutexWaiters(t.mutexes) == MutexWaiters(s.mutexes)
      else MutexWaiters(s.mutexes) == MutexWaiters(t.mutexes) + multiset{m.waiters[0]}
  {
    hide MutexWaiters, Find;
    var m := s.mutexes[i];
    WaitersUpdate(s.mutexes, i, Released(m));
    if m.waiters != [] {
      WaitersTakeHead(MutexWaiters(s.mutexes), MutexWaiters(Release(s, i).mutexes), m.waiters);
    } else {
      CancelAll(MutexWaiters(Release(s, i).mutexes), MutexWaiters(s.mutexes), multiset(m.waiters));
    }
  }

  lemma ReleaseKeeps(s: State, i: nat)
    requires Core(s) && i < |s.mutexes| && s.mutexes[i].taken
    ensures s.mutexes[i].waiters != [] ==> Has(s.blocked, s.mutexes[i].waiters[0])
    ensures var t := Release(s, i);
      && Core(t) && Live(t) == Live(s) && LivePids(t) == LivePids(s) && SameElsewhere(s, t) && t.joins == s.joins
      && t.mutexes == s.mutexes[i := Released(s.mutexes[i])]
      && t.mutexes[i].tid != s.mutexes[i].tid
  {
    hide Live, LivePids, JoinsOk, AtMostOnce, MutexOk, MutexesOk, MutexWaiters, Ids, Pids, IoWaiters, JoinWaiters;
    var m := s.mutexes[i];
    var t := Release(s, i);
    ReleasedMutexesOk(s, i);
    ReleaseWaits(s, i);
    if m.waiters != [] {
      WaitingAdds(t, s, m.waiters[0]);
      CoreAfterWake(s, t, m.waiters[0]);
    } else {
      WaitingSame(s, t);
      SameListsSameLive(s, t);
      CoreCarriesOver(s, t);
    }
  }

  lemma SameListsSameLive(s: State, t: State)
    requires t.ready == s.ready && t.blocked == s.blocked && t.running == s.running
    ensures Live(t) == Live(s) && LivePids(t) == LivePids(s)
  {
  }

  lemma WaitingSame(s: State, t: State)
    requires t.joins == s.joins && t.ioQueue == s.ioQueue && t.dumps == s.dumps
    requires MutexWaiters(t.mutexes) == MutexWaiters(s.mutexes)
    ensures Waiting(t) == Waiting(s)
  {
  }

  lemma WaitersTakeHead(before: multiset<ThreadId>, after: multiset<ThreadId>, queue: seq<ThreadId>)
    requires queue != [] && after + multiset(queue) == before + multiset(queue[1..])
    ensures before == after + multiset{queue[0]}
  {
    assert queue == [queue[0]] + queue[1..];
    CancelAll(before, after + multiset{queue[0]}, multiset(queue[1..]));
  }

  lemma {:induction false} FindMutexUnique(mutexes: seq<Mutex>, i: nat, live: multiset<ThreadId>)
    requires i < |mutexes| && MutexesOk(mutexes, live)
    ensures FindMutex(mutexes, mutexes[i].name) == i
  {
  }

  lemma {:induction false} ReleaseFromKeeps(s: State, i: nat, tid: nat)
    requires Core(s) && i <= |s.mutexes|
    requires forall j :: 0 <= j < i ==> !HeldBy(s.mutexes[j], tid)
    ensures var t := ReleaseFrom(s, i, tid);
      && Core(t) && Live(t) == Live(s) && LivePids(t) == LivePids(s) && SameElsewhere(s, t) && t.joins == s.joins
      && (forall j :: 0 <= j < |t.mutexes| ==> !HeldBy(t.mutexes[j], tid))
    decreases |s.mutexes| - i
  {
    hide Live, LivePids, MutexOk, JoinsOk, AtMostOnce, Waiting;
    if i < |s.mutexes| {
      if HeldBy(s.mutexes[i], tid) {
        FindMutexUnique(s.mutexes, i, Live(s));
        ReleaseKeeps(s, i);
        ReleaseFromKeeps(Release(s, i), i + 1, tid);
      } else {
        ReleaseFromKeeps(s, i + 1, tid);
      }
    }
  }

  lemma HandoverKeeps(s: State, x: ThreadId)
    requires Core(s)
    ensures var t := Handover(s, x);
      && Core(t) && Live(t) == Live(s) && LivePids(t) == LivePids(s) && SameElsewhere(s, t)
      && !Awaited(t, x) && (forall j :: 0 <= j < |t.mutexes| ==> !HeldBy(t.mutexes[j], x.tid))
  {
    hide Core, Live, LivePids;
    UnlockJoinsKeeps(s, 0, x);
    ReleaseFromKeeps(UnlockJoinsFrom(s, 0, x), 0, x.tid);
  }

  // The running thread leaving, and new threads arriving

  lemma MutexesOkWithout(mutexes: seq<Mutex>, live: multiset<ThreadId>, rest: multiset<ThreadId>, x: ThreadId)
    requires MutexesOk(mutexes, live) && live == rest + multiset{x}
    requires forall i :: 0 <= i < |mutexes| ==> !(HeldBy(mutexes[i], x.tid) && mutexes[i].pid == x.pid)
    ensures MutexesOk(mutexes, rest)
  {
    forall i | 0 <= i < |mutexes| ensures MutexOk(mutexes[i], rest) {
      assert MutexOk(mutexes[i], live);
    }
  }

  lemma AtMostOnceAdd(m: multiset<ThreadId>, x: ThreadId)
    ensures AtMostOnce(m + multiset{x}) <==> AtMostOnce(m) && x !in m
  {
    forall y ensures (m + multiset{x})[y] == m[y] + if x == y then 1 else 0 {
    }
    if AtMostOnce(m + multiset{x}) {
      forall y ensures m[y] <= 1 {
        assert (m + multiset{x})[y] <= 1;
      }
      assert (m + multiset{x})[x] <= 1;
    }
  }

  lemma LiveWithoutRunning(s: State)
    requires s.running.Some?
    ensures Live(s) == Live(s.(running := None)) + multiset{s.running.value.id}
    ensures LivePids(s) == LivePids(s.(running := None)) + multiset{s.running.value.id.pid}
  {
  }

  lemma LeaveRunning(s: State)
    requires Core(s) && s.running.Some?
    requires !Awaited(s, s.running.value.id) && !Owns(s, s.running.value.id)
    ensures Core(s.(running := None))
    ensures Live(s) == Live(s.(running := None)) + multiset{s.running.value.id}
    ensures LivePids(s) == LivePids(s.(running := None)) + multiset{s.running.value.id.pid}
  {
    hide Live, LivePids, MutexesOk, Waiting, Ids, AtMostOnce;
    var t := s.(running := None);
    LiveWithoutRunning(s);
    AtMostOnceAdd(Live(t), s.running.value.id);
    MutexesOkWithout(s.mutexes, Live(s), Live(t), s.running.value.id);
    assert Waiting(t) == Waiting(s) by { WaitingSame(s, t); }
    assert JoinsOk(t.joins, Live(t)) by {
      forall i | 0 <= i < |t.joins|
        ensures t.joins[i].blocking in Live(t) && t.joins[i].blocking.pid == t.joins[i].blocked.pid
      {
        assert s.joins[i].blocking != s.running.value.id;
      }
    }
  }

  lemma MakeReadyAdds(s: State, t: Tcb)
    ensures Live(MakeReady(s, t)) == Live(s) + multiset{t.id}
    ensures LivePids(MakeReady(s, t)) == LivePids(s) + multiset{t.id.pid}
  {
    ListAppend(s.ready, t);
  }

  /** Waits and ownerships still refer to live threads when more threads are live. */
  lemma MoreLive(s: State, live: multiset<ThreadId>)
    requires JoinsOk(s.joins, Live(s)) && MutexesOk(s.mutexes, Live(s)) && Live(s) <= live
    ensures JoinsOk(s.joins, live) && MutexesOk(s.mutexes, live)
  {
    hide Live;
    forall i | 0 <= i < |s.mutexes| ensures MutexOk(s.mutexes[i], live) {
      assert MutexOk(s.mutexes[i], Live(s));
    }
  }

  lemma SpawnAdds(s: State, pid: nat, count: nat, priority: nat)
    requires Core(s) && Counted(s) && count == (if pid in s.active then s.active[pid] else 0)
    ensures Live(Spawn(s, pid, count, priority)) == Live(s) + multiset{ThreadId(pid, count)}
    ensures Counted(Spawn(s, pid, count, priority))
    ensures Core(Spawn(s, pid, count, priority)) <==> ThreadId(pid, count) !in Live(s)
    ensures LivePids(Spawn(s, pid, count, priority)) == LivePids(s) + multiset{pid}
  {
    hide Live, LivePids, JoinsOk, MutexesOk, AtMostOnce, Ids, Pids, Waiting;
    var x := ThreadId(pid, count);
    var t := Spawn(s, pid, count, priority);
    MakeReadyAdds(s, Tcb(x, priority));
    SameListsSameLive(MakeReady(s, Tcb(x, priority)), t);
    MoreLive(s, Live(t));
    AtMostOnceAdd(Live(s), x);
    WaitingSame(s, t);
  }

  lemma NotAdmittedMeansNotLive(s: State, x: ThreadId)
    requires Counted(s) && x.pid !in s.active
    ensures x !in Live(s)
  {
    KnownMeansLive(s, x);
    assert LivePids(s)[x.pid] == 0;
    if Has(s.ready, x) {
      ListRemoveAt(s.ready, Find(s.ready, x));
      assert false;
    } else if Has(s.blocked, x) {
      ListRemoveAt(s.blocked, Find(s.blocked, x));
      assert false;
    }
  }

  // The steps, one by one

  /** Cancelling wakes joiners and ends nobody. */
  lemma CancelKeeps(s: State, tid: nat)
    requires Inv(s) && s.running.Some?
    ensures Inv(DoCancel(s, tid)) && Live(DoCancel(s, tid)) == Live(s)
    ensures LivePids(DoCancel(s, tid)) == LivePids(s)
  {
    hide Core, Live, LivePids, UnlockJoinsFrom;
    UnlockJoinsKeeps(s, 0, ThreadId(s.running.value.id.pid, tid));
  }

  lemma DispatchLive(s: State, policy: Policy)
    requires s.running.None? && s.ready != [] && s.semThreads > 0
    ensures Live(DoDispatch(s, policy)) == Live(s) && LivePids(DoDispatch(s, policy)) == LivePids(s)
  {
    ListRemoveAt(s.ready, Pick(policy, s.ready));
  }

  lemma PreemptLive(s: State)
    requires s.running.Some?
    ensures Live(DoPreempt(s)) == Live(s) && LivePids(DoPreempt(s)) == LivePids(s)
  {
    ListAppend(s.ready, s.running.value);
  }

  lemma DispatchKeeps(s: State, policy: Policy)
    requires Inv(s) && s.running.None? && s.ready != []
    ensures Inv(DoDispatch(s, policy)) && Live(DoDispatch(s, policy)) == Live(s)
    ensures LivePids(DoDispatch(s, policy)) == LivePids(s)
  {
    var t := DoDispatch(s, policy);
    DispatchLive(s, policy);
    hide Live, LivePids, JoinsOk, MutexesOk, AtMostOnce, Ids;
    WaitingSame(s, t);
    CoreCarriesOver(s, t);
    CountedCarriesOver(s, t);
  }

  lemma PreemptKeeps(s: State)
    requires Inv(s) && s.running.Some?
    ensures Inv(DoPreempt(s)) && Live(DoPreempt(s)) == Live(s)
    ensures LivePids(DoPreempt(s)) == LivePids(s)
  {
    var t := DoPreempt(s);
    PreemptLive(s);
    hide Live, LivePids, JoinsOk, MutexesOk, AtMostOnce, Ids;
    WaitingSame(s, t);
    CoreCarriesOver(s, t);
    CountedCarriesOver(s, t);
  }

  lemma JoinsAppend(joins: seq<Join>, j: Join, live: multiset<ThreadId>)
    ensures multiset(JoinWaiters(joins + [j])) == multiset(JoinWaiters(joins)) + multiset{j.blocked}
    ensures JoinsOk(joins, live) && j.blocking in live && j.blocking.pid == j.blocked.pid ==> JoinsOk(joins + [j], live)
  {
    assert JoinWaiters(joins + [j]) == JoinWaiters(joins) + [j.blocked];
  }

  lemma JoinKeeps(s: State, tid: nat)
    requires Inv(s) && s.running.Some?
    ensures Inv(DoJoin(s, tid)) && Live(DoJoin(s, tid)) == Live(s)
    ensures LivePids(DoJoin(s, tid)) == LivePids(s)
  {
    hide Live, LivePids, JoinsOk, MutexesOk, AtMostOnce, Ids, Has, Waiting;
    var me := s.running.value.id;
    var target := ThreadId(me.pid, tid);
    if Has(s.blocked, target) || Has(s.ready, target) {
      KnownMeansLive(s, target);
      var t := DoJoin(s, tid);
      JoinsAppend(s.joins, Join(me, target), Live(s));
      WaitingAdds(s, t, me);
      CoreAfterBlock(s, t);
      CountedCarriesOver(s, t);
    }
  }

  lemma RequestIoKeeps(s: State, time: nat)
    requires Inv(s) && s.running.Some?
    ensures Inv(DoRequestIo(s, time)) && Live(DoRequestIo(s, time)) == Live(s)
    ensures LivePids(DoRequestIo(s, time)) == LivePids(s)
  {
    hide Live, LivePids, JoinsOk, MutexesOk, AtMostOnce, Ids, Waiting;
    var t := DoRequestIo(s, time);
    assert IoWaiters(t.ioQueue) == IoWaiters(s.ioQueue) + [s.running.value.id];
    WaitingAdds(s, t, s.running.value.id);
    CoreAfterBlock(s, t);
    CountedCarriesOver(s, t);
  }

  lemma RequestDumpKeeps(s: State)
    requires Inv(s) && s.running.Some?
    ensures Inv(DoRequestDump(s)) && Live(DoRequestDump(s)) == Live(s)
    ensures LivePids(DoRequestDump(s)) == LivePids(s)
  {
    hide Live, LivePids, JoinsOk, MutexesOk, AtMostOnce, Ids, Waiting;
    var t := DoRequestDump(s);
    WaitingAdds(s, t, s.running.value.id);
    CoreAfterBlock(s, t);
    CountedCarriesOver(s, t);
  }

  lemma IoTakesHead(queue: seq<IoRequest>)
    requires queue != []
    ensures multiset(IoWaiters(queue)) == multiset(IoWaiters(queue[1..])) + multiset{queue[0].id}
  {
    assert IoWaiters(queue) == [queue[0].id] + IoWaiters(queue[1..]);
  }

  /** An IO completion always finds its thread BLOCKED. */
  lemma CompleteIoKeeps(s: State)
    requires Inv(s) && s.ioQueue != []
    ensures s.semIo > 0 && Has(s.blocked, s.ioQueue[0].id)
    ensures Inv(DoCompleteIo(s)) && Live(DoCompleteIo(s)) == Live(s)
    ensures LivePids(DoCompleteIo(s)) == LivePids(s)
  {
    hide Live, LivePids, JoinsOk, MutexesOk, AtMostOnce, Ids, Pids, Has, Find, Waiting, IoWaiters, JoinWaiters,
      MutexWaiters;
    var x := s.ioQueue[0].id;
    var t := WakeAndPost(s.(ioQueue := s.ioQueue[1..], semIo := s.semIo - 1), x);
    IoTakesHead(s.ioQueue);
    WaitingAdds(t, s, x);
    CoreAfterWake(s, t, x);
    CountedCarriesOver(s, t);
  }

  /** A finished dump always finds its thread BLOCKED. */
  lemma CompleteDumpKeeps(s: State, index: nat)
    requires Inv(s) && index < |s.dumps|
    ensures Has(s.blocked, s.dumps[index])
    ensures Inv(DoCompleteDump(s, index)) && Live(DoCompleteDump(s, index)) == Live(s)
    ensures LivePids(DoCompleteDump(s, index)) == LivePids(s)
  {
    hide Live, LivePids, JoinsOk, MutexesOk, AtMostOnce, Ids, Has, Waiting;
    var t := DoCompleteDump(s, index);
    RemoveAtMultiset(s.dumps, index);
    WaitingAdds(t, s, s.dumps[index]);
    CoreAfterWake(s, t, s.dumps[index]);
    CountedCarriesOver(s, t);
  }

  lemma UnlockKeeps(s: State, name: string, tid: nat)
    requires Inv(s)
    ensures Inv(Unlock(s, name, tid)) && Live(Unlock(s, name, tid)) == Live(s)
    ensures LivePids(Unlock(s, name, tid)) == LivePids(s)
  {
    hide Core, Live, LivePids, Release, Counted;
    var i := FindMutex(s.mutexes, name);
    if i < |s.mutexes| && HeldBy(s.mutexes[i], tid) {
      ReleaseKeeps(s, i);
      CountedCarriesOver(s, Release(s, i));
    }
  }

  lemma {:induction false} AppendedMutexesOk(mutexes: seq<Mutex>, m: Mutex, live: multiset<ThreadId>)
    requires MutexesOk(mutexes, live) && MutexOk(m, live) && FindMutex(mutexes, m.name) == |mutexes|
    ensures MutexesOk(mutexes + [m], live)
  {
    hide MutexOk;
  }

  lemma CreateMutexKeeps(s: State, name: string)
    requires Inv(s) && s.running.Some?
    ensures Inv(DoCreateMutex(s, name)) && Live(DoCreateMutex(s, name)) == Live(s)
    ensures LivePids(DoCreateMutex(s, name)) == LivePids(s)
  {
    hide Live, LivePids, JoinsOk, MutexesOk, AtMostOnce, Ids, Waiting, FindMutex;
    var t := DoCreateMutex(s, name);
    if FindMutex(s.mutexes, name) == |s.mutexes| {
      var m := Mutex(name, s.running.value.id.pid, false, -1, [], 0);
      WaitersAppend(s.mutexes, m);
      assert multiset(m.waiters) == multiset{};
      SameListsSameLive(s, t);
      AppendedMutexesOk(s.mutexes, m, Live(s));
      WaitingSame(s, t);
      CoreCarriesOver(s, t);
      CountedCarriesOver(s, t);
    }
  }

  lemma LockTaken(s: State, i: nat)
    requires Core(s) && s.running.Some? && i < |s.mutexes| && s.mutexes[i].taken
    requires s.mutexes[i].pid == s.running.value.id.pid && s.mutexes[i].tid != s.running.value.id.tid
    ensures var m := s.mutexes[i]; var me := s.running.value.id;
      MutexesOk(s.mutexes[i := m.(waiters := m.waiters + [me], blockedCount := m.blockedCount + 1)], Live(s))
  {
    hide Live, JoinsOk, AtMostOnce, Waiting;
    var m := s.mutexes[i];
    var me := s.running.value.id;
    assert MutexOk(m, Live(s));
    MutexesOkUpdate(s.mutexes, i, m.(waiters := m.waiters + [me], blockedCount := m.blockedCount + 1), Live(s));
  }

  lemma LockFree(s: State, i: nat)
    requires Core(s) && s.running.Some? && i < |s.mutexes|
    requires !s.mutexes[i].taken || s.mutexes[i].tid == s.running.value.id.tid
    requires s.mutexes[i].pid == s.running.value.id.pid
    ensures MutexesOk(s.mutexes[i := s.mutexes[i].(taken := true, tid := s.running.value.id.tid)], Live(s))
  {
    var m := s.mutexes[i];
    var me := s.running.value.id;
    assert me in Live(s);
    hide Live, JoinsOk, AtMostOnce, Waiting;
    assert MutexOk(m, Live(s));
    MutexesOkUpdate(s.mutexes, i, m.(taken := true, tid := me.tid), Live(s));
  }

  /** Locking an existing mutex of the thread's own process. */
  lemma {:induction false} LockKeeps(s: State, name: string)
    requires Inv(s) && s.running.Some? && FindMutex(s.mutexes, name) < |s.mutexes|
    requires s.mutexes[FindMutex(s.mutexes, name)].pid == s.running.value.id.pid
    ensures Inv(DoLock(s, name)) && Live(DoLock(s, name)) == Live(s)
    ensures LivePids(DoLock(s, name)) == LivePids(s)
  {
    hide Live, LivePids, JoinsOk, MutexesOk, AtMostOnce, Ids, Pids, Waiting, IoWaiters, JoinWaiters, MutexWaiters;
    var i := FindMutex(s.mutexes, name);
    var t := DoLock(s, name);
    WaitersUpdate(s.mutexes, i, t.mutexes[i]);
    if !s.mutexes[i].taken || s.mutexes[i].tid == s.running.value.id.tid {
      LockFree(s, i);
      CancelAll(MutexWaiters(t.mutexes), MutexWaiters(s.mutexes), multiset(s.mutexes[i].waiters));
      SameListsSameLive(s, t);
      WaitingSame(s, t);
      CoreCarriesOver(s, t);
    } else {
      LockTaken(s, i);
      WaitersTakeLast(MutexWaiters(s.mutexes), MutexWaiters(t.mutexes), s.mutexes[i].waiters, s.running.value.id);
      WaitingAdds(s, t, s.running.value.id);
      CoreAfterBlock(s, t);
    }
    CountedCarriesOver(s, t);
  }

  lemma WaitersTakeLast(before: multiset<ThreadId>, after: multiset<ThreadId>, queue: seq<ThreadId>, x: ThreadId)
    requires after + multiset(queue) == before + multiset(queue + [x])
    ensures after == before + multiset{x}
  {
    CancelAll(after, before + multiset{x}, multiset(queue));
  }

  /** THREAD_CREATE keeps the invariant exactly when the TID it will reuse is not in use. */
  lemma CreateThreadKeepsIff(s: State, priority: nat)
    requires Inv(s) && s.running.Some? && s.running.value.id.pid in s.active
    ensures Inv(DoCreateThread(s, priority)) <==> FreshTid(s, s.running.value.id.pid)
    ensures var pid := s.running.value.id.pid;
      Live(DoCreateThread(s, priority)) == Live(s) + multiset{ThreadId(pid, s.active[pid])}
    ensures LivePids(DoCreateThread(s, priority)) == LivePids(s) + multiset{s.running.value.id.pid}
  {
    hide Core, Live, Counted, Known;
    var pid := s.running.value.id.pid;
    KnownMeansLive(s, ThreadId(pid, s.active[pid]));
    SpawnAdds(s, pid, s.active[pid], priority);
  }

  lemma AdmitHeadKeeps(s: State)
    requires Inv(s) && s.pending != []
    ensures Inv(DoAdmitHead(s)) && Live(DoAdmitHead(s)) == Live(s) + multiset{ThreadId(s.pending[0].pid, 0)}
    ensures LivePids(DoAdmitHead(s)) == LivePids(s) + multiset{s.pending[0].pid}
  {
    hide Live, LivePids, JoinsOk, MutexesOk, AtMostOnce, Ids, Waiting;
    var pid := s.pending[0].pid;
    NotAdmittedMeansNotLive(s, ThreadId(pid, 0));
    SpawnAdds(s, pid, 0, s.firstThreads[0].priority);
    var r := Spawn(s, pid, 0, s.firstThreads[0].priority);
    var t := DoAdmitHead(s);
    SameListsSameLive(r, t);
    WaitingSame(r, t);
    CoreCarriesOver(r, t);
    CountedCarriesOver(r, t);
  }

  lemma CreateProcessKeeps(s: State, size: nat, priority: nat)
    requires Inv(s)
    ensures Inv(DoCreateProcess(s, size, priority)) && Live(DoCreateProcess(s, size, priority)) == Live(s)
    ensures LivePids(DoCreateProcess(s, size, priority)) == LivePids(s)
  {
    hide Live, LivePids, JoinsOk, MutexesOk, AtMostOnce, Ids, Waiting;
    var t := DoCreateProcess(s, size, priority);
    SameListsSameLive(s, t);
    WaitingSame(s, t);
    CoreCarriesOver(s, t);
    CountedCarriesOver(s, t);
  }

  /** Marking the running thread as exited, and any change to the counts, leaves the lists alone. */
  lemma CoreIgnoresExit(s: State, t: State)
    requires Core(s) && t == s.(exited := t.exited, active := t.active)
    ensures Core(t) && Live(t) == Live(s) && LivePids(t) == LivePids(s)
  {
    hide Live, LivePids, JoinsOk, MutexesOk, AtMostOnce, Ids, Waiting;
    SameListsSameLive(s, t);
    WaitingSame(s, t);
    CoreCarriesOver(s, t);
  }

  lemma ExitThreadKeeps(s: State)
    requires Inv(s) && s.running.Some?
    ensures Inv(DoExitThread(s))
    ensures Live(s) == Live(DoExitThread(s)) + multiset{s.running.value.id}
    ensures DoExitThread(s).exited == s.exited + [s.running.value]
    ensures LivePids(s) == LivePids(DoExitThread(s)) + multiset{s.running.value.id.pid}
  {
    hide Core, Live, LivePids, Handover;
    var x := s.running.value.id;
    LiveWithoutRunning(s);
    assert LivePids(s)[x.pid] > 0;
    assert x.pid in s.active;
    var r := s.(exited := s.exited + [s.running.value], active := s.active[x.pid := Decremented(s.active[x.pid])]);
    CoreIgnoresExit(s, r);
    HandoverKeeps(r, x);
    LeaveRunning(Handover(r, x));
    assert DoExitThread(s) == Handover(r, x).(running := None);
  }

  predicate AloneInProcess(s: State, x: ThreadId) {
    && (forall i :: 0 <= i < |s.ready| ==> s.ready[i].id.pid != x.pid)
    && (forall i :: 0 <= i < |s.blocked| ==> s.blocked[i].id.pid != x.pid)
  }

  lemma NoLivePid(list: seq<Tcb>, pid: nat)
    requires forall i :: 0 <= i < |list| ==> list[i].id.pid != pid
    ensures multiset(Pids(list))[pid] == 0
  {
    assert pid !in Pids(list);
  }

  lemma AloneMeansNotAwaited(s: State, x: ThreadId)
    requires Core(s) && AloneInProcess(s, x)
    ensures !Awaited(s, x)
  {
    hide AtMostOnce, MutexesOk, Live;
    forall j | 0 <= j < |s.joins| ensures s.joins[j].blocking != x {
      var w := s.joins[j].blocked;
      assert JoinWaiters(s.joins)[j] == w;
      assert w in multiset(JoinWaiters(s.joins));
      assert w in Waiting(s);
      HasMeansMember(s.blocked, w);
      assert s.blocked[Find(s.blocked, w)].id.pid != x.pid;
    }
  }

  lemma AloneAfter(s: State, t: State)
    requires s.running.Some? && AloneInProcess(s, s.running.value.id)
    requires LivePids(s) == LivePids(t) + multiset{s.running.value.id.pid}
    ensures LivePids(t)[s.running.value.id.pid] == 0
  {
    NoLivePid(s.ready, s.running.value.id.pid);
    NoLivePid(s.blocked, s.running.value.id.pid);
    assert LivePids(s)[s.running.value.id.pid] == 1;
  }

  /** With a thread count of one, no other thread of the process is alive. */
  lemma LastMeansAlone(s: State)
    requires Counted(s) && LastThread(s)
    ensures AloneInProcess(s, s.running.value.id)
  {
    var pid := s.running.value.id.pid;
    assert LivePids(s)[pid] <= 1;
    forall i | 0 <= i < |s.ready| ensures s.ready[i].id.pid != pid {
      assert Pids(s.ready)[i] == s.ready[i].id.pid;
      assert s.ready[i].id.pid in multiset(Pids(s.ready));
    }
    forall i | 0 <= i < |s.blocked| ensures s.blocked[i].id.pid != pid {
      assert Pids(s.blocked)[i] == s.blocked[i].id.pid;
      assert s.blocked[i].id.pid in multiset(Pids(s.blocked));
    }
  }

  lemma ExitProcessKeeps(s: State)
    requires Inv(s) && LastThread(s)
    ensures Inv(DoExitProcess(s))
    ensures Live(s) == Live(DoExitProcess(s)) + multiset{s.running.value.id}
    ensures DoExitProcess(s).exited == s.exited + [s.running.value]
    ensures LivePids(s) == LivePids(DoExitProcess(s)) + multiset{s.running.value.id.pid}
  {
    hide Core, Counted, Live, LivePids, AloneInProcess, ReleaseFrom;
    ExitProcessCore(s);
    CountedWithout(s, DoExitProcess(s), s.running.value.id.pid);
  }

  lemma CountedWithout(s: State, t: State, pid: nat)
    requires Counted(s) && t.active == s.active - {pid} && LivePids(t)[pid] == 0
    requires forall p :: p != pid ==> LivePids(t)[p] <= LivePids(s)[p]
    ensures Counted(t)
  {
    hide LivePids;
  }

  lemma ExitProcessCore(s: State)
    requires Core(s) && Counted(s) && LastThread(s)
    ensures var t := DoExitProcess(s);
      && Core(t) && Live(s) == Live(t) + multiset{s.running.value.id} && t.exited == s.exited + [s.running.value]
      && t.active == s.active - {s.running.value.id.pid} && LivePids(t)[s.running.value.id.pid] == 0
      && LivePids(s) == LivePids(t) + multiset{s.running.value.id.pid}
      && t.pending == s.pending && t.firstThreads == s.firstThreads && t.nextPid == s.nextPid
  {
    hide Core, Counted, Live, LivePids, AloneInProcess, ReleaseFrom;
    var x := s.running.value.id;
    LastMeansAlone(s);
    var r := s.(exited := s.exited + [s.running.value]);
    CoreIgnoresExit(s, r);
    ReleaseFromKeeps(r, 0, x.tid);
    var h := ReleaseFrom(r, 0, x.tid);
    AloneMeansNotAwaited(s, x);
    LeaveRunning(h);
    var t := DoExitProcess(s);
    assert t == h.(running := None).(active := s.active - {x.pid});
    CoreIgnoresExit(h.(running := None), t);
    AloneAfter(s, t);
  }

  /** A thread that locks a mutex nobody created goes to EXIT without waking its joiners or
      releasing what it holds; the invariant survives exactly when it has neither. */
  lemma {:induction false} LockMissingKeepsIff(s: State, name: string)
    requires Inv(s) && s.running.Some? && FindMutex(s.mutexes, name) == |s.mutexes|
    ensures Inv(DoLock(s, name)) <==> !Awaited(s, s.running.value.id) && !Owns(s, s.running.value.id)
    ensures Live(s) == Live(DoLock(s, name)) + multiset{s.running.value.id}
    ensures LivePids(s) == LivePids(DoLock(s, name)) + multiset{s.running.value.id.pid}
  {
    hide Live, LivePids, Waiting, Ids, Pids, JoinsOk, MutexesOk, AtMostOnce, FindMutex, Core, Awaited, Owns;
    var x := s.running.value.id;
    var t := DoLock(s, name);
    LiveWithoutRunning(s);
    SameListsSameLive(s.(running := None), t);
    RunningOnce(s);
    if Awaited(s, x) {
      AwaitedBreaks(s, t, x);
    } else if Owns(s, x) {
      OwnerBreaks(s, t, x);
    } else {
      LeaveRunning(s);
      CoreIgnoresExit(s.(running := None), t);
    }
  }

  lemma RunningOnce(s: State)
    requires Inv(s) && s.running.Some?
    ensures Live(s)[s.running.value.id] <= 1
  {
    hide Live, JoinsOk, MutexesOk, Waiting, Counted, PendingOk;
  }

  lemma AwaitedBreaks(s: State, t: State, x: ThreadId)
    requires Awaited(s, x) && t.joins == s.joins && x !in Live(t)
    ensures !Inv(t)
  {
    hide Live, Waiting, MutexesOk, Counted, PendingOk;
    var j :| 0 <= j < |s.joins| && s.joins[j].blocking == x;
    assert t.joins[j].blocking !in Live(t);
  }

  lemma OwnerBreaks(s: State, t: State, x: ThreadId)
    requires Owns(s, x) && t.mutexes == s.mutexes && x !in Live(t)
    ensures !Inv(t)
  {
    hide Live, Waiting, JoinsOk, Counted, PendingOk;
    var i :| 0 <= i < |s.mutexes| && HeldBy(s.mutexes[i], x.tid) && s.mutexes[i].pid == x.pid;
    assert !MutexOk(t.mutexes[i], Live(t));
  }
}
