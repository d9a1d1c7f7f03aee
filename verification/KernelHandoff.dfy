/** Who gets what when a thread finishes or unlocks: joins, releases, and first-come hand-off. */
module KernelHandoff {
  import opened Lists
  import opened KernelState
  import opened KernelInvariant
  import opened KernelRuns

  // Joins

  /** The threads waiting for x, in the order they joined. */
  function Joiners(joins: seq<Join>, x: ThreadId): seq<ThreadId> {
    if joins == [] then []
    else (if joins[0].blocking == x then [joins[0].blocked] else []) + Joiners(joins[1..], x)
  }

  /** The records that wait for somebody else, in order. */
  function OtherJoins(joins: seq<Join>, x: ThreadId): seq<Join> {
    if joins == [] then []
    else (if joins[0].blocking == x then [] else [joins[0]]) + OtherJoins(joins[1..], x)
  }

  lemma WakeJoinerPosts(s: State, i: nat)
    requires i < |s.joins|
    ensures WakeJoiner(s, i).joins == RemoveAt(s.joins, i)
    ensures WakeJoiner(s, i).semThreads == s.semThreads + 1
  {
  }

  /** The removal-while-iterating loop leaves exactly the non-matching records in order, and
      appends every matching waiter to READY in join order, with one post each. */
  lemma {:induction false} UnlockJoinsEffect(s: State, i: nat, x: ThreadId)
    requires Core(s) && i <= |s.joins|
    ensures var t := UnlockJoinsFrom(s, i, x); var woken := Joiners(s.joins[i..], x);
      && t.joins == s.joins[..i] + OtherJoins(s.joins[i..], x)
      && Ids(t.ready) == Ids(s.ready) + woken
      && t.semThreads == s.semThreads + |woken|
    decreases |s.joins| - i
  {
    hide Core, Live, LivePids, Ids, WakeJoiner, Find, Joiners, OtherJoins;
    if i < |s.joins| {
      var j := s.joins[i];
      assert s.joins[i..] == [j] + s.joins[i + 1..];
      JoinersCons(j, s.joins[i + 1..], x);
      if j.blocking == x {
        WakeJoinerKeeps(s, i);
        WakeJoinerPosts(s, i);
        var t := WakeJoiner(s, i);
        UnlockJoinsEffect(t, i, x);
        assert t.joins[..i] == s.joins[..i] && t.joins[i..] == s.joins[i + 1..];
      } else {
        UnlockJoinsEffect(s, i + 1, x);
        assert s.joins[..i + 1] == s.joins[..i] + [j];
      }
    } else {
      assert s.joins[..i] == s.joins && s.joins[i..] == [];
      NoJoiners(x);
    }
  }

  lemma {:induction false} NoJoiners(x: ThreadId)
    ensures Joiners([], x) == [] && OtherJoins([], x) == []
  {
  }

  lemma {:induction false} JoinersCons(j: Join, rest: seq<Join>, x: ThreadId)
    ensures Joiners([j] + rest, x) == (if j.blocking == x then [j.blocked] else []) + Joiners(rest, x)
    ensures OtherJoins([j] + rest, x) == (if j.blocking == x then [] else [j]) + OtherJoins(rest, x)
  {
    assert ([j] + rest)[1..] == rest;
  }

  // Releasing everything a thread holds

  /** First waiters of the mutexes held under that TID, in creation order. */
  function Heirs(mutexes: seq<Mutex>, tid: nat): seq<ThreadId> {
    if mutexes == [] then []
    else (if HeldBy(mutexes[0], tid) && mutexes[0].waiters != [] then [mutexes[0].waiters[0]] else [])
         + Heirs(mutexes[1..], tid)
  }

  function AfterExit(m: Mutex, tid: nat): Mutex {
    if HeldBy(m, tid) then Released(m) else m
  }

  lemma {:induction false} NoHeirs(tid: nat)
    ensures Heirs([], tid) == []
  {
  }

  lemma {:induction false} HeirsCons(m: Mutex, rest: seq<Mutex>, tid: nat)
    ensures Heirs([m] + rest, tid)
      == (if HeldBy(m, tid) && m.waiters != [] then [m.waiters[0]] else []) + Heirs(rest, tid)
  {
  }

  /** Each held mutex passes to its first waiter or becomes free, all others are untouched, and
      READY grows by exactly the new owners in creation order, with one post each. */
  lemma {:induction false} ReleaseFromEffect(s: State, i: nat, tid: nat)
    requires Core(s) && i <= |s.mutexes|
    ensures var t := ReleaseFrom(s, i, tid); var heirs := Heirs(s.mutexes[i..], tid);
      && |t.mutexes| == |s.mutexes|
      && (forall j :: 0 <= j < i ==> t.mutexes[j] == s.mutexes[j])
      && (forall j :: i <= j < |s.mutexes| ==> t.mutexes[j] == AfterExit(s.mutexes[j], tid))
      && Ids(t.ready) == Ids(s.ready) + heirs
      && t.semThreads == s.semThreads + |heirs|
    decreases |s.mutexes| - i
  {
    hide Core, Live, LivePids, Find, FindMutex, Unlock, Release, Released, Heirs, Ids;
    if i == |s.mutexes| {
      assert s.mutexes[i..] == [];
      NoHeirs(tid);
    } else {
      var m := s.mutexes[i];
      assert s.mutexes[i..] == [m] + s.mutexes[i + 1..];
      HeirsCons(m, s.mutexes[i + 1..], tid);
      if HeldBy(m, tid) {
        UnlockHeld(s, i, tid);
        ReleaseKeeps(s, i);
        ReleaseWakes(s, i);
        ReleaseFromEffect(Release(s, i), i + 1, tid);
        assert Release(s, i).mutexes[i + 1..] == s.mutexes[i + 1..];
      } else {
        ReleaseFromEffect(s, i + 1, tid);
      }
    }
  }

  /** Looking the mutex up by name again finds the same one, because names are unique. */
  lemma UnlockHeld(s: State, i: nat, tid: nat)
    requires Core(s) && i < |s.mutexes| && HeldBy(s.mutexes[i], tid)
    ensures Unlock(s, s.mutexes[i].name, tid) == Release(s, i)
  {
    hide Release, Live, MutexOk, JoinsOk, AtMostOnce, Waiting;
    FindMutexUnique(s.mutexes, i, Live(s));
  }

  lemma ReleaseWakes(s: State, i: nat)
    requires Core(s) && i < |s.mutexes| && s.mutexes[i].taken
    ensures var heir := if s.mutexes[i].waiters == [] then [] else [s.mutexes[i].waiters[0]];
      && Ids(Release(s, i).ready) == Ids(s.ready) + heir
      && Release(s, i).semThreads == s.semThreads + |heir|
  {
    hide MutexWaiters, MutexOk, JoinsOk, AtMostOnce, Waiting, Core;
    if s.mutexes[i].waiters != [] {
      ReleaseKeeps(s, i);
      HasMeansMember(s.blocked, s.mutexes[i].waiters[0]);
      WakeMovesOne(s, s.mutexes[i].waiters[0]);
    }
  }

  /** THREAD_EXIT as a whole: its joiners become ready in join order, then the new owners of its
      mutexes in creation order; nobody else does; it owns nothing and is awaited by nobody. */
  lemma ExitThreadEffect(s: State)
    requires Inv(s) && s.running.Some?
    ensures var me := s.running.value.id; var t := DoExitThread(s);
      && t.joins == OtherJoins(s.joins, me)
      && |t.mutexes| == |s.mutexes|
      && (forall j :: 0 <= j < |s.mutexes| ==> t.mutexes[j] == AfterExit(s.mutexes[j], me.tid))
      && Ids(t.ready) == Ids(s.ready) + Joiners(s.joins, me) + Heirs(s.mutexes, me.tid)
      && t.semThreads == s.semThreads + |Joiners(s.joins, me)| + |Heirs(s.mutexes, me.tid)|
      && !Awaited(t, me) && (forall j :: 0 <= j < |t.mutexes| ==> !HeldBy(t.mutexes[j], me.tid))
  {
    hide Core, Live, LivePids, UnlockJoinsFrom, ReleaseFrom;
    var x := s.running.value.id;
    LiveWithoutRunning(s);
    var counts := if x.pid in s.active then s.active[x.pid := Decremented(s.active[x.pid])] else s.active;
    var r := s.(exited := s.exited + [s.running.value], active := counts);
    CoreIgnoresExit(s, r);
    UnlockJoinsKeeps(r, 0, x);
    UnlockJoinsEffect(r, 0, x);
    var u := UnlockJoinsFrom(r, 0, x);
    ReleaseFromKeeps(u, 0, x.tid);
    ReleaseFromEffect(u, 0, x.tid);
    assert s.joins[0..] == s.joins && u.mutexes[0..] == s.mutexes;
    assert DoExitThread(s) == ReleaseFrom(u, 0, x.tid).(running := None);
  }

  // First come, first served

  /** How often a step takes the mutex of that name away from its holder. */
  function Releases(s: State, step: Step, name: string): nat
    requires Enabled(s, step)
  {
    var i := FindMutex(s.mutexes, name);
    if i == |s.mutexes| then 0
    else
      match step
      case UnlockMutex(n) => if n == name && HeldBy(s.mutexes[i], s.running.value.id.tid) then 1 else 0
      case ExitThread => if HeldBy(s.mutexes[i], s.running.value.id.tid) then 1 else 0
      case ExitProcess => if HeldBy(s.mutexes[i], s.running.value.id.tid) then 1 else 0
      case SegmentationFault => if HeldBy(s.mutexes[i], s.running.value.id.tid) then 1 else 0
      case _ => 0
  }

  function ReleasesIn(s: State, steps: seq<Step>, name: string): nat
    requires CanRun(s, steps)
    decreases |steps|
  {
    if steps == [] then 0
    else Releases(s, steps[0], name) + ReleasesIn(Apply(s, steps[0]), steps[1..], name)
  }

  lemma {:induction false} SameNamesSamePlace(before: seq<Mutex>, after: seq<Mutex>, name: string)
    requires FindMutex(before, name) < |before| <= |after|
    requires forall j :: 0 <= j < |before| ==> after[j].name == before[j].name
    ensures FindMutex(after, name) == FindMutex(before, name)
  {
  }

  lemma ExitThreadMutexes(s: State)
    requires Inv(s) && s.running.Some?
    ensures var t := DoExitThread(s);
      && |t.mutexes| == |s.mutexes|
      && (forall j :: 0 <= j < |s.mutexes| ==>
            t.mutexes[j].name == s.mutexes[j].name && t.mutexes[j] == AfterExit(s.mutexes[j], s.running.value.id.tid))
  {
    hide Core, DoExitThread;
    ExitThreadEffect(s);
  }

  lemma ExitProcessMutexes(s: State)
    requires Inv(s) && LastThread(s)
    ensures var t := DoExitProcess(s);
      && |t.mutexes| == |s.mutexes|
      && (forall j :: 0 <= j < |s.mutexes| ==>
            t.mutexes[j].name == s.mutexes[j].name && t.mutexes[j] == AfterExit(s.mutexes[j], s.running.value.id.tid))
  {
    hide Core, Live, LivePids, ReleaseFrom;
    var r := s.(exited := s.exited + [s.running.value]);
    CoreIgnoresExit(s, r);
    ReleaseFromEffect(r, 0, s.running.value.id.tid);
    assert r.mutexes[0..] == s.mutexes;
  }

  /** A step releases a mutex, or leaves its queue alone, or appends the running thread to it. */
  lemma {:induction false} QueueStep(s: State, step: Step, name: string)
    requires Inv(s) && Enabled(s, step) && FindMutex(s.mutexes, name) < |s.mutexes|
    ensures var i := FindMutex(s.mutexes, name); var t := Apply(s, step);
      && i == FindMutex(t.mutexes, name) < |t.mutexes|
      && (if Releases(s, step, name) == 1 then t.mutexes[i] == Released(s.mutexes[i])
          else s.mutexes[i].waiters <= t.mutexes[i].waiters)
  {
    hide Core, Counted, PendingOk, DoDispatch, DoCreateProcess, DoAdmitHead, DoExitProcess, DoCreateThread, DoJoin,
      DoExitThread, DoCreateMutex, DoLock, Unlock, DoRequestIo, DoCompleteIo, DoRequestDump, DoCompleteDump, DoPreempt,
      FindMutex, Released, Awaited, Owns;
    var t := Apply(s, step);
    if step.ExitThread? {
      ExitThreadMutexes(s);
    } else if step.ExitProcess? || step.SegmentationFault? {
      ExitProcessMutexes(s);
    } else if step.CancelThread? {
      CancelMutexes(s, step.tid);
    } else if step.UnlockMutex? {
      UnlockQueue(s, step.name, name);
    } else {
      QueueFrame(s, step);
    }
    SameNamesSamePlace(s.mutexes, t.mutexes, name);
  }

  lemma CancelMutexes(s: State, tid: nat)
    requires Inv(s) && s.running.Some?
    ensures DoCancel(s, tid).mutexes == s.mutexes
  {
    hide Core, Live, LivePids, UnlockJoinsFrom;
    UnlockJoinsKeeps(s, 0, ThreadId(s.running.value.id.pid, tid));
  }

  /** No other step touches a mutex, except by adding one or queueing the running thread. */
  lemma QueueFrame(s: State, step: Step)
    requires Enabled(s, step) && !step.ExitThread? && !step.ExitProcess? && !step.SegmentationFault?
    requires !step.UnlockMutex? && !step.CancelThread?
    ensures var t := Apply(s, step);
      && |s.mutexes| <= |t.mutexes|
      && forall j :: 0 <= j < |s.mutexes| ==>
           t.mutexes[j].name == s.mutexes[j].name && s.mutexes[j].waiters <= t.mutexes[j].waiters
  {
    hide Find, FindMutex, Pick, FreshTid;
  }

  lemma {:induction false} UnlockQueue(s: State, n: string, name: string)
    requires Inv(s) && s.running.Some?
    requires FindMutex(s.mutexes, n) < |s.mutexes| && FindMutex(s.mutexes, name) < |s.mutexes|
    ensures var i := FindMutex(s.mutexes, name); var t := Unlock(s, n, s.running.value.id.tid);
      && |t.mutexes| == |s.mutexes|
      && (forall j :: 0 <= j < |s.mutexes| ==> t.mutexes[j].name == s.mutexes[j].name)
      && t.mutexes[i] == (if n == name && HeldBy(s.mutexes[i], s.running.value.id.tid) then Released(s.mutexes[i])
                          else s.mutexes[i])
  {
    hide Core, Release;
    var k := FindMutex(s.mutexes, n);
    if HeldBy(s.mutexes[k], s.running.value.id.tid) {
      ReleaseKeeps(s, k);
    }
  }

  /** Over any run, a waiter advances one place per release of its mutex and never loses its place. */
  lemma {:induction false} WaiterAdvances(s: State, steps: seq<Step>, name: string, p: nat)
    requires Inv(s) && CanRun(s, steps)
    requires FindMutex(s.mutexes, name) < |s.mutexes|
    requires p < |s.mutexes[FindMutex(s.mutexes, name)].waiters|
    requires ReleasesIn(s, steps, name) <= p
    ensures var t := Run(s, steps); var i := FindMutex(s.mutexes, name);
      && i == FindMutex(t.mutexes, name) < |t.mutexes|
      && p - ReleasesIn(s, steps, name) < |t.mutexes[i].waiters|
      && t.mutexes[i].waiters[p - ReleasesIn(s, steps, name)] == s.mutexes[i].waiters[p]
    decreases |steps|
  {
    hide Inv, Enabled, Apply, FindMutex, Releases;
    if steps != [] {
      var t := Apply(s, steps[0]);
      QueueStep(s, steps[0], name);
      StepKeeps(s, steps[0]);
      ReleasesAtMostOne(s, steps[0], name);
      WaiterAdvances(t, steps[1..], name, p - Releases(s, steps[0], name));
    }
  }

  lemma ReleasesAtMostOne(s: State, step: Step, name: string)
    requires Enabled(s, step)
    ensures Releases(s, step, name) <= 1
  {
  }

  /** The waiter at position p becomes the owner at exactly the (p+1)-th release: after p releases
      it heads the queue, and the next step that releases the mutex hands it over and readies it. */
  lemma {:induction false} WaiterInherits(s: State, steps: seq<Step>, last: Step, name: string, p: nat)
    requires Inv(s) && CanRun(s, steps) && Enabled(Run(s, steps), last)
    requires FindMutex(s.mutexes, name) < |s.mutexes|
    requires p < |s.mutexes[FindMutex(s.mutexes, name)].waiters|
    requires ReleasesIn(s, steps, name) == p && Releases(Run(s, steps), last, name) == 1
    ensures var i := FindMutex(s.mutexes, name); var w := s.mutexes[i].waiters[p];
      var t := Apply(Run(s, steps), last);
      && i == FindMutex(t.mutexes, name) < |t.mutexes|
      && t.mutexes[i].taken && t.mutexes[i].tid >= 0 && ThreadId(t.mutexes[i].pid, t.mutexes[i].tid) == w
      && Has(t.ready, w)
  {
    hide Inv, CanRun, Run, ReleasesIn, Releases, Enabled, Apply, FindMutex, Has;
    WaiterAdvances(s, steps, name, p);
    RunKeeps(s, steps);
    HeadInherits(Run(s, steps), last, name);
  }

  lemma {:induction false} HeadInherits(s: State, step: Step, name: string)
    requires Inv(s) && Enabled(s, step) && FindMutex(s.mutexes, name) < |s.mutexes|
    requires s.mutexes[FindMutex(s.mutexes, name)].waiters != [] && Releases(s, step, name) == 1
    ensures var i := FindMutex(s.mutexes, name); var w := s.mutexes[i].waiters[0]; var t := Apply(s, step);
      && i == FindMutex(t.mutexes, name) < |t.mutexes|
      && t.mutexes[i].taken && t.mutexes[i].tid >= 0 && ThreadId(t.mutexes[i].pid, t.mutexes[i].tid) == w
      && Has(t.ready, w)
  {
    QueueStep(s, step, name);
    var i := FindMutex(s.mutexes, name);
    var m := s.mutexes[i];
    var w := m.waiters[0];
    var t := Apply(s, step);
    hide Enabled, Apply, FindMutex, Live, LivePids, Counted, PendingOk, Waiting, JoinsOk, AtMostOnce;
    assert MutexOk(m, Live(s));
    assert w.pid == m.pid;
    assert m.taken;
    hide Core, MutexOk, MutexesOk;
    HeirIsReady(s, step, name);
  }

  lemma {:induction false} HeirIn(mutexes: seq<Mutex>, i: nat, tid: nat)
    requires i < |mutexes| && HeldBy(mutexes[i], tid) && mutexes[i].waiters != []
    ensures mutexes[i].waiters[0] in Heirs(mutexes, tid)
  {
    if i > 0 {
      HeirIn(mutexes[1..], i - 1, tid);
    }
  }

  lemma {:induction false} HeirIsReady(s: State, step: Step, name: string)
    requires Inv(s) && Enabled(s, step) && FindMutex(s.mutexes, name) < |s.mutexes|
    requires s.mutexes[FindMutex(s.mutexes, name)].waiters != [] && Releases(s, step, name) == 1
    ensures Has(Apply(s, step).ready, s.mutexes[FindMutex(s.mutexes, name)].waiters[0])
  {
    hide Core, Counted, PendingOk, FreshTid, Find, Pick, FindMutex, UnlockJoinsFrom, ReleaseFrom, Release;
    var i := FindMutex(s.mutexes, name);
    var w := s.mutexes[i].waiters[0];
    var t := Apply(s, step);
    HasMeansMember(t.ready, w);
    match step
    case ExitThread =>
      ExitThreadEffect(s);
      HeirIn(s.mutexes, i, s.running.value.id.tid);
    case ExitProcess => ProcessHeirIsReady(s, i);
    case SegmentationFault => ProcessHeirIsReady(s, i);
    case UnlockMutex(n) =>
      ReleaseWakes(s, i);
  }

  lemma ProcessHeirIsReady(s: State, i: nat)
    requires Inv(s) && s.running.Some? && i < |s.mutexes| && s.mutexes[i].waiters != []
    requires HeldBy(s.mutexes[i], s.running.value.id.tid)
    ensures s.mutexes[i].waiters[0] in multiset(Ids(DoExitProcess(s).ready))
  {
    hide Core, Counted, PendingOk, ReleaseFrom;
    var r := s.(exited := s.exited + [s.running.value]);
    CoreIgnoresExit(s, r);
    ReleaseFromEffect(r, 0, s.running.value.id.tid);
    assert r.mutexes[0..] == s.mutexes;
    HeirIn(s.mutexes, i, s.running.value.id.tid);
  }

  // A release is by the owner, within one process

  predicate IsOwner(m: Mutex, x: ThreadId) {
    m.taken && m.pid == x.pid && m.tid == x.tid
  }

  /** Unlocking compares TIDs only. "It takes effect exactly when the caller is the owner" holds if
      and only if the caller is of the mutex's process or its TID is not the owner's. */
  lemma {:induction false} UnlockNeedsOwnerIff(s: State, name: string)
    requires Inv(s) && s.running.Some? && FindMutex(s.mutexes, name) < |s.mutexes|
    ensures var m := s.mutexes[FindMutex(s.mutexes, name)]; var me := s.running.value.id;
      ((Unlock(s, name, me.tid) != s) <==> IsOwner(m, me)) <==> (m.pid == me.pid || !HeldBy(m, me.tid))
  {
    var i := FindMutex(s.mutexes, name);
    hide Live, LivePids, Counted, PendingOk, Waiting, JoinsOk, AtMostOnce, FindMutex, Release;
    if HeldBy(s.mutexes[i], s.running.value.id.tid) {
      ReleaseKeeps(s, i);
      assert Release(s, i).mutexes[i].tid != s.mutexes[i].tid;
    }
  }

  /** The mutexes an exit takes away are exactly those the thread owns. */
  ghost predicate HandsOverItsOwn(s: State, t: State, x: ThreadId) {
    |t.mutexes| == |s.mutexes|
      && forall i :: 0 <= i < |s.mutexes| ==> (t.mutexes[i] != s.mutexes[i] <==> IsOwner(s.mutexes[i], x))
  }

  /** A mutex of another process is held under the thread's TID. */
  predicate HoldsForeign(s: State, x: ThreadId) {
    exists i :: 0 <= i < |s.mutexes| && HeldBy(s.mutexes[i], x.tid) && s.mutexes[i].pid != x.pid
  }

  lemma ReleasedDiffers(s: State, i: nat)
    requires Core(s) && i < |s.mutexes| && s.mutexes[i].taken
    ensures Released(s.mutexes[i]) != s.mutexes[i]
  {
    hide Core;
    ReleasedMutexesOk(s, i);
  }

  lemma AfterExitIff(s: State, t: State, x: ThreadId)
    requires Core(s) && |t.mutexes| == |s.mutexes|
    requires forall i :: 0 <= i < |s.mutexes| ==> t.mutexes[i] == AfterExit(s.mutexes[i], x.tid)
    ensures HandsOverItsOwn(s, t, x) <==> !HoldsForeign(s, x)
  {
    hide Core, Released;
    forall i | 0 <= i < |s.mutexes| ensures t.mutexes[i] != s.mutexes[i] <==> HeldBy(s.mutexes[i], x.tid) {
      if HeldBy(s.mutexes[i], x.tid) {
        ReleasedDiffers(s, i);
      }
    }
    if i :| 0 <= i < |s.mutexes| && HeldBy(s.mutexes[i], x.tid) && s.mutexes[i].pid != x.pid {
      assert t.mutexes[i] != s.mutexes[i] && !IsOwner(s.mutexes[i], x);
    }
  }

  /** THREAD_EXIT and PROCESS_EXIT compare TIDs only as well. An exit hands over exactly the mutexes
      the thread owns if and only if no mutex of another process is held under its TID. */
  lemma ExitNeedsOwnerIff(s: State)
    requires Inv(s) && s.running.Some?
    ensures var x := s.running.value.id;
      && (HandsOverItsOwn(s, DoExitThread(s), x) <==> !HoldsForeign(s, x))
      && (LastThread(s) ==> (HandsOverItsOwn(s, DoExitProcess(s), x) <==> !HoldsForeign(s, x)))
  {
    hide Core, DoExitThread, DoExitProcess, HandsOverItsOwn, HoldsForeign, AfterExit;
    assert Core(s) by { InvHasCore(s); }
    ExitThreadMutexes(s);
    AfterExitIff(s, DoExitThread(s), s.running.value.id);
    if LastThread(s) {
      ExitProcessMutexes(s);
      AfterExitIff(s, DoExitProcess(s), s.running.value.id);
    }
  }

  // Two processes, both with a thread 0

  /** Two admitted processes of one thread each, and perhaps a mutex of the first one. */
  function Pair(running: Option<Tcb>, ready: seq<Tcb>, mutexes: seq<Mutex>): State {
    Boot.(running := running, ready := ready, semThreads := |ready|, mutexes := mutexes,
          active := map[0 := 1, 1 := 1], nextPid := 2)
  }

  function Main(pid: nat): Tcb {
    Tcb(ThreadId(pid, 0), 0)
  }

  lemma {:induction false} TwoArrive(rest: seq<Step>)
    requires CanRun(Pair(None, [Main(0), Main(1)], []), rest)
    ensures var steps := [CreateProcess(8, 0)] + ([CreateProcess(8, 0)] + ([AdmitHead] + ([AdmitHead] + rest)));
      CanRun(Boot, steps) && Run(Boot, steps) == Run(Pair(None, [Main(0), Main(1)], []), rest)
  {
    hide CanRun, Run, Enabled, Apply, Pair;
    var s1 := Boot.(pending := [PendingPcb(0, 8)], firstThreads := [FirstThread(8, 0)], nextPid := 1);
    var s2 := Boot.(pending := [PendingPcb(0, 8), PendingPcb(1, 8)],
                    firstThreads := [FirstThread(8, 0), FirstThread(8, 0)], nextPid := 2);
    var s3 := Boot.(pending := [PendingPcb(1, 8)], firstThreads := [FirstThread(8, 0)], nextPid := 2,
                    ready := [Main(0)], semThreads := 1, active := map[0 := 1]);
    var s4 := Pair(None, [Main(0), Main(1)], []);
    TwoWait(s1, s2);
    TwoEnter(s2, s3);
    RunCons(s3, AdmitHead, s4, rest);
    RunCons(s2, AdmitHead, s3, [AdmitHead] + rest);
    RunCons(s1, CreateProcess(8, 0), s2, [AdmitHead] + ([AdmitHead] + rest));
    RunCons(Boot, CreateProcess(8, 0), s1, [CreateProcess(8, 0)] + ([AdmitHead] + ([AdmitHead] + rest)));
  }

  lemma TwoWait(s1: State, s2: State)
    requires s1 == Boot.(pending := [PendingPcb(0, 8)], firstThreads := [FirstThread(8, 0)], nextPid := 1)
    requires s2 == Boot.(pending := [PendingPcb(0, 8), PendingPcb(1, 8)],
                         firstThreads := [FirstThread(8, 0), FirstThread(8, 0)], nextPid := 2)
    ensures Enabled(Boot, CreateProcess(8, 0)) && Apply(Boot, CreateProcess(8, 0)) == s1
    ensures Enabled(s1, CreateProcess(8, 0)) && Apply(s1, CreateProcess(8, 0)) == s2
  {
    hide Find, FindMutex, FreshTid, Known, Awaited, Owns;
  }

  lemma TwoEnter(s2: State, s3: State)
    requires s2 == Boot.(pending := [PendingPcb(0, 8), PendingPcb(1, 8)],
                         firstThreads := [FirstThread(8, 0), FirstThread(8, 0)], nextPid := 2)
    requires s3 == Boot.(pending := [PendingPcb(1, 8)], firstThreads := [FirstThread(8, 0)], nextPid := 2,
                         ready := [Main(0)], semThreads := 1, active := map[0 := 1])
    ensures Enabled(s2, AdmitHead) && Apply(s2, AdmitHead) == s3
    ensures Enabled(s3, AdmitHead) && Apply(s3, AdmitHead) == Pair(None, [Main(0), Main(1)], [])
  {
    hide Find, FindMutex, FreshTid, Known, Awaited, Owns;
    assert s2.pending[1..] == s3.pending && s2.firstThreads[1..] == s3.firstThreads;
    assert map[][0 := 1] == map[0 := 1] && map[0 := 1][1 := 1] == map[0 := 1, 1 := 1];
  }

  lemma FirstTakesIt(free: Mutex, held: Mutex)
    requires free == Mutex("M", 0, false, -1, [], 0) && held == Mutex("M", 0, true, 0, [], 0)
    ensures var t0 := Pair(None, [Main(0), Main(1)], []); var t1 := Pair(Some(Main(0)), [Main(1)], []);
      var t2 := Pair(Some(Main(0)), [Main(1)], [free]); var t3 := Pair(Some(Main(0)), [Main(1)], [held]);
      && Enabled(t0, Dispatch(Fifo)) && Apply(t0, Dispatch(Fifo)) == t1
      && Enabled(t1, CreateMutex("M")) && Apply(t1, CreateMutex("M")) == t2
      && Enabled(t2, LockMutex("M")) && Apply(t2, LockMutex("M")) == t3
  {
    hide Find, FreshTid, Known, Awaited, Owns;
    assert FindMutex([free], "M") == 0;
  }

  lemma SecondRuns(held: Mutex)
    ensures var t3 := Pair(Some(Main(0)), [Main(1)], [held]); var t4 := Pair(None, [Main(1), Main(0)], [held]);
      && Enabled(t3, Preempt) && Apply(t3, Preempt) == t4
      && Enabled(t4, Dispatch(Fifo)) && Apply(t4, Dispatch(Fifo)) == Pair(Some(Main(1)), [Main(0)], [held])
  {
    hide Find, FindMutex, FreshTid, Known, Awaited, Owns;
  }

  /** A reachable state in which a thread frees a mutex that another process holds, by unlocking it or
      by exiting: process 0 locks it, and thread 0 of process 1 lets go of it. */
  lemma {:induction false} ForeignUnlockHappens() returns (steps: seq<Step>)
    ensures CanRun(Boot, steps)
    ensures var s := Run(Boot, steps);
      && s.running == Some(Main(1)) && FindMutex(s.mutexes, "M") == 0 < |s.mutexes|
      && IsOwner(s.mutexes[0], Main(0).id) && !IsOwner(s.mutexes[0], Main(1).id)
      && Enabled(s, UnlockMutex("M")) && !Apply(s, UnlockMutex("M")).mutexes[0].taken
      && Enabled(s, ExitThread) && |Apply(s, ExitThread).mutexes| == 1 && !Apply(s, ExitThread).mutexes[0].taken
      && Enabled(s, ExitProcess) && |Apply(s, ExitProcess).mutexes| == 1 && !Apply(s, ExitProcess).mutexes[0].taken
  {
    var free, held := Mutex("M", 0, false, -1, [], 0), Mutex("M", 0, true, 0, [], 0);
    FirstTakesIt(free, held);
    SecondRuns(held);
    var t5 := Pair(Some(Main(1)), [Main(0)], [held]);
    ForeignUnlock(t5, held);
    hide CanRun, Run, Enabled, Apply, Pair, FindMutex;
    NoSteps(t5);
    RunCons(Pair(None, [Main(1), Main(0)], [held]), Dispatch(Fifo), t5, []);
    RunCons(Pair(Some(Main(0)), [Main(1)], [held]), Preempt, Pair(None, [Main(1), Main(0)], [held]),
        [Dispatch(Fifo)] + []);
    var r2 := [Preempt] + ([Dispatch(Fifo)] + []);
    RunCons(Pair(Some(Main(0)), [Main(1)], [free]), LockMutex("M"), Pair(Some(Main(0)), [Main(1)], [held]), r2);
    var r3 := [LockMutex("M")] + r2;
    RunCons(Pair(Some(Main(0)), [Main(1)], []), CreateMutex("M"), Pair(Some(Main(0)), [Main(1)], [free]), r3);
    var r4 := [CreateMutex("M")] + r3;
    RunCons(Pair(None, [Main(0), Main(1)], []), Dispatch(Fifo), Pair(Some(Main(0)), [Main(1)], []), r4);
    var r5 := [Dispatch(Fifo)] + r4;
    TwoArrive(r5);
    BootOk();
    hide Inv;
    RunKeeps(Boot, [CreateProcess(8, 0)] + ([CreateProcess(8, 0)] + ([AdmitHead] + ([AdmitHead] + r5))));
    ForeignExit(t5, held);
    steps := [CreateProcess(8, 0)] + ([CreateProcess(8, 0)] + ([AdmitHead] + ([AdmitHead] + r5)));
    assert Run(Boot, steps) == t5;
  }

  lemma ForeignUnlock(s: State, held: Mutex)
    requires s == Pair(Some(Main(1)), [Main(0)], [held]) && held == Mutex("M", 0, true, 0, [], 0)
    ensures FindMutex(s.mutexes, "M") == 0 < |s.mutexes| && s.mutexes[0] == held && s.running == Some(Main(1))
    ensures Enabled(s, UnlockMutex("M")) && |Apply(s, UnlockMutex("M")).mutexes| == 1
    ensures !Apply(s, UnlockMutex("M")).mutexes[0].taken
  {
    hide Find;
  }

  lemma ForeignExit(s: State, held: Mutex)
    requires s == Pair(Some(Main(1)), [Main(0)], [held]) && held == Mutex("M", 0, true, 0, [], 0) && Inv(s)
    ensures Enabled(s, ExitThread) && |Apply(s, ExitThread).mutexes| == 1 && !Apply(s, ExitThread).mutexes[0].taken
    ensures Enabled(s, ExitProcess) && |Apply(s, ExitProcess).mutexes| == 1 && !Apply(s, ExitProcess).mutexes[0].taken
  {
    hide Core, DoExitThread, DoExitProcess, Find;
    ExitThreadMutexes(s);
    ExitProcessMutexes(s);
  }
}
