/** The loop of PROCESS_EXIT as the code runs it, for processes with any number of threads, with whatever else
    the kernel does meanwhile: what it keeps at every point, and why it hangs when the process is alone. */
module Teardown {
  import opened Lists
  import opened KernelState
  import opened KernelInvariant

  /** What can happen while the dispatcher is in the loop: its next turn, or one of the two completions
      that other threads of the kernel make and that post the thread semaphore. */
  datatype Move = Turn | FinishIo | FinishDump(index: nat)

  predicate CanMove(s: State, tcbs: seq<Tcb>, wait: bool, move: Move) {
    && tcbs != []
    && match move
       case Turn => wait ==> s.semThreads > 0
       case FinishIo => Enabled(s, CompleteIo)
       case FinishDump(index) => Enabled(s, CompleteDump(index))
  }

  function Moved(s: State, tcbs: seq<Tcb>, wait: bool, move: Move): State
    requires CanMove(s, tcbs, wait, move)
  {
    match move
    case Turn => TornOnce(s, tcbs[0], wait)
    case FinishIo => DoCompleteIo(s)
    case FinishDump(index) => DoCompleteDump(s, index)
  }

  function Left(tcbs: seq<Tcb>, move: Move): seq<Tcb>
    requires tcbs != []
  {
    if move.Turn? then tcbs[1..] else tcbs
  }

  /** A possible course of the loop: it may still be waiting at the end of it. */
  predicate CanGo(s: State, tcbs: seq<Tcb>, wait: bool, moves: seq<Move>)
    decreases |moves|
  {
    moves == []
    || (CanMove(s, tcbs, wait, moves[0])
        && CanGo(Moved(s, tcbs, wait, moves[0]), Left(tcbs, moves[0]), wait, moves[1..]))
  }

  function Go(s: State, tcbs: seq<Tcb>, wait: bool, moves: seq<Move>): State
    requires CanGo(s, tcbs, wait, moves)
    decreases |moves|
  {
    if moves == [] then s
    else Go(Moved(s, tcbs, wait, moves[0]), Left(tcbs, moves[0]), wait, moves[1..])
  }

  function Turns(moves: seq<Move>): nat {
    if moves == [] then 0 else (if moves[0].Turn? then 1 else 0) + Turns(moves[1..])
  }

  /** Every entry has had its turn. */
  predicate Finishes(s: State, tcbs: seq<Tcb>, moves: seq<Move>) {
    CanGo(s, tcbs, |tcbs| > 1, moves) && Turns(moves) == |tcbs|
  }

  /** The kernel after the loop and what follows it. */
  function TornDown(s: State, tcbs: seq<Tcb>, moves: seq<Move>): State
    requires s.running.Some? && Finishes(s, tcbs, moves)
  {
    Go(s, tcbs, |tcbs| > 1, moves).(running := None, active := s.active - {s.running.value.id.pid})
  }

  // The course without completions

  function AllTurns(n: nat): (moves: seq<Move>)
    ensures Turns(moves) == n
  {
    if n == 0 then [] else [Turn] + AllTurns(n - 1)
  }

  lemma {:induction false} UninterruptedIs(s: State, tcbs: seq<Tcb>, wait: bool)
    ensures CanTearDown(s, tcbs, wait) <==> CanGo(s, tcbs, wait, AllTurns(|tcbs|))
    ensures CanTearDown(s, tcbs, wait) ==> Go(s, tcbs, wait, AllTurns(|tcbs|)) == TearDown(s, tcbs, wait)
    decreases |tcbs|
  {
    hide TornOnce;
    if tcbs != [] {
      UninterruptedIs(TornOnce(s, tcbs[0], wait), tcbs[1..], wait);
      assert AllTurns(|tcbs|)[1..] == AllTurns(|tcbs[1..]|);
    }
  }

  /** What the loop does in one go is its course without completions. */
  lemma {:induction false} DoTeardownIs(s: State, tcbs: seq<Tcb>)
    requires s.running.Some?
    ensures CanTearDown(s, tcbs, |tcbs| > 1) <==> Finishes(s, tcbs, AllTurns(|tcbs|))
    ensures CanTearDown(s, tcbs, |tcbs| > 1) ==> TornDown(s, tcbs, AllTurns(|tcbs|)) == DoTeardown(s, tcbs)
  {
    hide CanTearDown, CanGo, Go, TearDown;
    UninterruptedIs(s, tcbs, |tcbs| > 1);
  }

  // What every course keeps

  /** The waits passed so far given back. */
  function Lent(s: State, k: nat): State {
    s.(semThreads := s.semThreads + k)
  }

  lemma LentNothing(s: State)
    ensures Lent(s, 0) == s
  {
  }

  lemma UnlockPostsAlike(s: State, k: nat, name: string, tid: nat)
    ensures var u := Unlock(s, name, tid);
      && u.semThreads >= s.semThreads && |u.mutexes| == |s.mutexes|
      && Unlock(s.(semThreads := k), name, tid) == u.(semThreads := k + u.semThreads - s.semThreads)
  {
    hide Find, FindMutex, RemoveAt;
  }

  lemma {:induction false} ReleasePostsAlike(s: State, k: nat, i: nat, tid: nat)
    requires i <= |s.mutexes|
    ensures var t := ReleaseFrom(s, i, tid);
      && t.semThreads >= s.semThreads
      && ReleaseFrom(s.(semThreads := k), i, tid) == t.(semThreads := k + t.semThreads - s.semThreads)
    decreases |s.mutexes| - i
  {
    hide Find, FindMutex;
    if i < |s.mutexes| {
      if HeldBy(s.mutexes[i], tid) {
        UnlockPostsAlike(s, k, s.mutexes[i].name, tid);
        var u := Unlock(s, s.mutexes[i].name, tid);
        ReleasePostsAlike(u, k + u.semThreads - s.semThreads, i + 1, tid);
      } else {
        ReleasePostsAlike(s, k, i + 1, tid);
      }
    }
  }

  lemma {:induction false} TurnLent(s: State, k: nat, t: Tcb, wait: bool)
    requires wait ==> s.semThreads > 0
    ensures Lent(TornOnce(s, t, wait), if wait then k + 1 else k) == TornOnce(Lent(s, k), t, false)
  {
    hide ReleaseFrom;
    var r := Lent(s, k).(exited := s.exited + [t]);
    ReleasePostsAlike(r, if wait then s.semThreads - 1 else s.semThreads, 0, t.id.tid);
  }

  lemma LiveLent(s: State, k: nat)
    ensures Live(Lent(s, k)) == Live(s) && LivePids(Lent(s, k)) == LivePids(s)
  {
  }

  lemma {:induction false} TurnKeeps(s: State, t: Tcb)
    requires Inv(s)
    ensures var u := TornOnce(s, t, false);
      && Inv(u) && Live(u) == Live(s) && u.running == s.running && u.active == s.active && u.exited == s.exited + [t]
  {
    hide Core, Counted, Live, LivePids, ReleaseFrom;
    var r := s.(exited := s.exited + [t]);
    CoreIgnoresExit(s, r);
    ReleaseFromKeeps(r, 0, t.id.tid);
    CountedCarriesOver(s, TornOnce(s, t, false));
  }

  lemma FinishLent(s: State, k: nat, tcbs: seq<Tcb>, wait: bool, move: Move)
    requires CanMove(s, tcbs, wait, move) && !move.Turn?
    ensures CanMove(Lent(s, k), tcbs, wait, move)
    ensures Moved(Lent(s, k), tcbs, wait, move) == Lent(Moved(s, tcbs, wait, move), k)
    ensures var t := Moved(s, tcbs, wait, move);
      t.running == s.running && t.active == s.active && t.exited == s.exited
  {
    hide Find, RemoveAt;
  }

  lemma {:induction false} MoveKeeps(s: State, k: nat, tcbs: seq<Tcb>, wait: bool, move: Move)
    requires Inv(Lent(s, k)) && CanMove(s, tcbs, wait, move)
    ensures var t := Moved(s, tcbs, wait, move);
      && Inv(Lent(t, if wait && move.Turn? then k + 1 else k))
      && Live(t) == Live(s) && t.running == s.running && t.active == s.active
      && t.exited == s.exited + if move.Turn? then [tcbs[0]] else []
  {
    hide Inv, Live, LivePids, TornOnce, DoCompleteIo, DoCompleteDump;
    var t := Moved(s, tcbs, wait, move);
    LiveLent(s, k);
    match move
    case Turn =>
      TurnLent(s, k, tcbs[0], wait);
      TurnKeeps(Lent(s, k), tcbs[0]);
      LiveLent(t, if wait then k + 1 else k);
    case FinishIo =>
      FinishLent(s, k, tcbs, wait, move);
      CompleteIoKeeps(Lent(s, k));
      LiveLent(t, k);
    case FinishDump(index) =>
      FinishLent(s, k, tcbs, wait, move);
      CompleteDumpKeeps(Lent(s, k), index);
      LiveLent(t, k);
  }

  /** Along any course everybody stays where the invariant wants them, except that the semaphore falls
      behind READY by the number of waits. */
  lemma {:induction false} GoKeeps(s: State, k: nat, tcbs: seq<Tcb>, wait: bool, moves: seq<Move>)
    requires Inv(Lent(s, k)) && CanGo(s, tcbs, wait, moves)
    ensures var t := Go(s, tcbs, wait, moves);
      && Inv(Lent(t, if wait then k + Turns(moves) else k))
      && Live(t) == Live(s) && t.running == s.running && t.active == s.active
    decreases |moves|
  {
    hide Inv, Live, Lent, Moved;
    if moves != [] {
      MoveKeeps(s, k, tcbs, wait, moves[0]);
      var j := if wait && moves[0].Turn? then k + 1 else k;
      GoKeeps(Moved(s, tcbs, wait, moves[0]), j, Left(tcbs, moves[0]), wait, moves[1..]);
    }
  }

  lemma ReadyCounts(t: State, k: nat)
    requires Inv(Lent(t, k))
    ensures t.semThreads + k == |t.ready| && (t.running.Some? ==> |t.ready| < |Live(t)|)
  {
    hide Counted, PendingOk, JoinsOk, MutexesOk, AtMostOnce, Waiting;
  }

  /** The semaphore and the waits passed together count READY, which the running thread is not in. */
  lemma {:induction false} WaitsCountReady(s: State, tcbs: seq<Tcb>, moves: seq<Move>)
    requires Inv(s) && CanGo(s, tcbs, true, moves)
    ensures var t := Go(s, tcbs, true, moves);
      && t.semThreads + Turns(moves) == |t.ready|
      && (s.running.Some? ==> |t.ready| < |Live(s)|)
  {
    hide Inv, Live, Lent, CanGo, Go, Turns;
    LentNothing(s);
    GoKeeps(s, 0, tcbs, true, moves);
    var t := Go(s, tcbs, true, moves);
    ReadyCounts(t, Turns(moves));
  }

  // The loop of a process that is alone

  /** Every live thread belongs to the running process. */
  predicate Alone(s: State) {
    && s.running.Some?
    && (forall i :: 0 <= i < |s.ready| ==> s.ready[i].id.pid == s.running.value.id.pid)
    && (forall i :: 0 <= i < |s.blocked| ==> s.blocked[i].id.pid == s.running.value.id.pid)
  }

  lemma {:induction false} Repeated(n: nat, pid: nat)
    ensures multiset(seq(n, i => pid))[pid] == n
  {
    if n > 0 {
      Repeated(n - 1, pid);
      assert seq(n, i => pid) == seq(n - 1, i => pid) + [pid];
    }
  }

  lemma OnePid(list: seq<Tcb>, pid: nat)
    requires forall i :: 0 <= i < |list| ==> list[i].id.pid == pid
    ensures multiset(Pids(list))[pid] == |list|
  {
    assert Pids(list) == seq(|list|, i => pid);
    Repeated(|list|, pid);
  }

  lemma AloneCounted(s: State)
    requires Inv(s) && Alone(s) && s.running.value.id.pid in s.active
    ensures |Live(s)| <= s.active[s.running.value.id.pid]
  {
    hide Core, PendingOk;
    OnePid(s.ready, s.running.value.id.pid);
    OnePid(s.blocked, s.running.value.id.pid);
  }

  /** If only one process has live threads, and more than one of them, its PROCESS_EXIT or segmentation
      fault never gets to the end of the loop, whatever completes meanwhile: the dispatcher waits for good. */
  lemma {:induction false} LoneProcessHangs(s: State, tcbs: seq<Tcb>, moves: seq<Move>)
    requires Inv(s) && Alone(s) && s.running.value.id.pid in s.active
    requires |tcbs| == s.active[s.running.value.id.pid] > 1
    requires CanGo(s, tcbs, true, moves)
    ensures Turns(moves) < |tcbs|
  {
    hide CanGo, Go, Turns;
    WaitsCountReady(s, tcbs, moves);
    AloneCounted(s);
  }
}
