/** Exactly when the loop of PROCESS_EXIT gets to its end. */
module TeardownEnds {
  import opened Lists
  import opened KernelState
  import opened KernelInvariant
  import opened Teardown

  lemma UnlockAlike(s: State, t: State, name: string, tid: nat)
    requires t.mutexes == s.mutexes
    ensures var u, v := Unlock(s, name, tid), Unlock(t, name, tid);
      && v.mutexes == u.mutexes && |u.mutexes| == |s.mutexes|
      && v.semThreads - t.semThreads == u.semThreads - s.semThreads
      && u.ioQueue == s.ioQueue && u.dumps == s.dumps
  {
    hide Find, FindMutex, RemoveAt;
  }

  /** What a release posts depends on the mutex list alone. */
  lemma {:induction false} ReleaseAlike(s: State, t: State, i: nat, tid: nat)
    requires t.mutexes == s.mutexes && i <= |s.mutexes|
    ensures var u, v := ReleaseFrom(s, i, tid), ReleaseFrom(t, i, tid);
      && v.mutexes == u.mutexes && v.semThreads - t.semThreads == u.semThreads - s.semThreads
      && u.ioQueue == s.ioQueue && u.dumps == s.dumps
    decreases |s.mutexes| - i
  {
    hide Find, FindMutex;
    if i < |s.mutexes| {
      if HeldBy(s.mutexes[i], tid) {
        var name := s.mutexes[i].name;
        UnlockAlike(s, t, name, tid);
        ReleaseAlike(Unlock(s, name, tid), Unlock(t, name, tid), i + 1, tid);
      } else {
        ReleaseAlike(s, t, i + 1, tid);
      }
    }
  }

  // What each wait needs

  /** How many threads inherit the mutexes held under the TIDs of these entries. */
  function Heirs(s: State, tcbs: seq<Tcb>): int {
    TearDown(s, tcbs, false).semThreads - s.semThreads
  }

  /** Every wait of the loop is covered by what the semaphore holds, what is still to come from elsewhere
      and what the turns before it have posted. */
  predicate Supplied(s: State, tcbs: seq<Tcb>, coming: nat) {
    forall i :: 0 <= i < |tcbs| ==> s.semThreads + coming + Heirs(s, tcbs[..i]) > i
  }

  lemma TurnAlike(s: State, t: State, x: Tcb, wait: bool)
    requires t.mutexes == s.mutexes && (wait ==> t.semThreads > 0)
    ensures var u, v := TornOnce(s, x, false), TornOnce(t, x, wait);
      && v.mutexes == u.mutexes && v.ioQueue == t.ioQueue && v.dumps == t.dumps
      && v.semThreads - t.semThreads == u.semThreads - s.semThreads - if wait then 1 else 0
  {
    hide ReleaseFrom;
    var r := t.(exited := t.exited + [x], semThreads := if wait then t.semThreads - 1 else t.semThreads);
    ReleaseAlike(r, s.(exited := s.exited + [x]), 0, x.id.tid);
  }

  lemma {:induction false} HeirsAlike(s: State, t: State, tcbs: seq<Tcb>)
    requires t.mutexes == s.mutexes
    ensures Heirs(t, tcbs) == Heirs(s, tcbs)
    decreases |tcbs|
  {
    hide TornOnce;
    if tcbs != [] {
      TurnAlike(s, t, tcbs[0], false);
      HeirsAlike(TornOnce(s, tcbs[0], false), TornOnce(t, tcbs[0], false), tcbs[1..]);
    }
  }

  lemma {:induction false} HeirsStep(s: State, tcbs: seq<Tcb>, i: nat)
    requires i < |tcbs| && s.semThreads > 0
    ensures var v := TornOnce(s, tcbs[0], true);
      v.semThreads + Heirs(v, tcbs[1..][..i]) + 1 == s.semThreads + Heirs(s, tcbs[..i + 1])
  {
    hide TornOnce;
    var u := TornOnce(s, tcbs[0], false);
    TurnAlike(s, s, tcbs[0], true);
    assert tcbs[..i + 1][1..] == tcbs[1..][..i];
    HeirsAlike(u, TornOnce(s, tcbs[0], true), tcbs[1..][..i]);
  }

  lemma HeirsOfNone(s: State, none: seq<Tcb>)
    requires none == []
    ensures Heirs(s, none) == 0
  {
  }

  lemma {:induction false} SuppliedTurn(s: State, tcbs: seq<Tcb>, coming: nat)
    requires tcbs != [] && s.semThreads > 0
    ensures Supplied(s, tcbs, coming) <==> Supplied(TornOnce(s, tcbs[0], true), tcbs[1..], coming)
  {
    hide TornOnce, Heirs;
    var v := TornOnce(s, tcbs[0], true);
    HeirsOfNone(s, tcbs[..0]);
    forall i | 0 <= i < |tcbs| - 1
      ensures v.semThreads + Heirs(v, tcbs[1..][..i]) + 1 == s.semThreads + Heirs(s, tcbs[..i + 1])
    {
      HeirsStep(s, tcbs, i);
    }
    if Supplied(v, tcbs[1..], coming) {
      forall i | 0 <= i < |tcbs| ensures s.semThreads + coming + Heirs(s, tcbs[..i]) > i {
        if i > 0 {
          assert v.semThreads + coming + Heirs(v, tcbs[1..][..i - 1]) > i - 1;
        }
      }
    }
    if Supplied(s, tcbs, coming) {
      forall i | 0 <= i < |tcbs[1..]| ensures v.semThreads + coming + Heirs(v, tcbs[1..][..i]) > i {
        assert s.semThreads + coming + Heirs(s, tcbs[..i + 1]) > i + 1;
      }
    }
  }

  lemma SuppliedEnds(s: State, tcbs: seq<Tcb>, coming: nat)
    ensures tcbs == [] ==> Supplied(s, tcbs, coming)
    ensures tcbs != [] && Supplied(s, tcbs, coming) ==> s.semThreads + coming > 0
  {
    hide Heirs;
    if tcbs != [] {
      HeirsOfNone(s, tcbs[..0]);
    }
  }

  lemma {:induction false} NoHeirs(s: State, tcbs: seq<Tcb>)
    requires s.mutexes == []
    ensures Heirs(s, tcbs) == 0
    decreases |tcbs|
  {
    if tcbs != [] {
      NoHeirs(TornOnce(s, tcbs[0], false), tcbs[1..]);
    }
  }

  lemma SuppliedWithout(s: State, tcbs: seq<Tcb>, coming: nat)
    requires s.mutexes == [] && tcbs != []
    ensures Supplied(s, tcbs, coming) <==> s.semThreads + coming >= |tcbs|
  {
    hide Heirs;
    forall i | 0 <= i < |tcbs| ensures Heirs(s, tcbs[..i]) == 0 {
      NoHeirs(s, tcbs[..i]);
    }
    if Supplied(s, tcbs, coming) {
      assert s.semThreads + coming + Heirs(s, tcbs[..|tcbs| - 1]) > |tcbs| - 1;
    }
  }

  // Without completions

  /** With no completion meanwhile, the loop gets to its end if and only if the semaphore and the loop's own
      posts cover each turn; where there are no mutexes, if and only if the semaphore covers all. */
  lemma {:induction false} FinishesAloneIff(s: State, tcbs: seq<Tcb>)
    ensures CanTearDown(s, tcbs, true) <==> Supplied(s, tcbs, 0)
    ensures s.mutexes == [] ==> (CanTearDown(s, tcbs, true) <==> s.semThreads >= |tcbs|)
    decreases |tcbs|
  {
    hide TornOnce, Heirs, Supplied;
    if s.mutexes == [] && tcbs != [] {
      SuppliedWithout(s, tcbs, 0);
    }
    if tcbs == [] {
      SuppliedEnds(s, tcbs, 0);
    } else if s.semThreads == 0 {
      SuppliedEnds(s, tcbs, 0);
    } else {
      SuppliedTurn(s, tcbs, 0);
      FinishesAloneIff(TornOnce(s, tcbs[0], true), tcbs[1..]);
    }
  }

  // With completions

  /** The posts that completions can still bring. */
  function Coming(s: State): nat {
    |s.ioQueue| + |s.dumps|
  }

  lemma FinishPosts(s: State, k: nat, tcbs: seq<Tcb>, move: Move)
    requires Inv(Lent(s, k)) && CanMove(s, tcbs, true, move) && !move.Turn?
    ensures var t := Moved(s, tcbs, true, move);
      t.semThreads == s.semThreads + 1 && Coming(t) + 1 == Coming(s) && t.mutexes == s.mutexes
  {
    hide Inv, Find, RemoveAt;
    if move.FinishIo? {
      CompleteIoKeeps(Lent(s, k));
    }
  }

  lemma FinishSupplies(s: State, k: nat, tcbs: seq<Tcb>, move: Move)
    requires Inv(Lent(s, k)) && CanMove(s, tcbs, true, move) && !move.Turn?
    ensures var t := Moved(s, tcbs, true, move);
      && t.semThreads == s.semThreads + 1 && Coming(t) + 1 == Coming(s)
      && (Supplied(s, tcbs, Coming(s)) <==> Supplied(t, tcbs, Coming(t)))
  {
    hide Inv, Heirs, Moved, Coming, Lent;
    FinishPosts(s, k, tcbs, move);
    var t := Moved(s, tcbs, true, move);
    forall i | 0 <= i < |tcbs| ensures Heirs(t, tcbs[..i]) == Heirs(s, tcbs[..i]) {
      HeirsAlike(s, t, tcbs[..i]);
    }
  }

  lemma {:induction false} FinishedWasSupplied(s: State, k: nat, tcbs: seq<Tcb>, moves: seq<Move>)
    requires Inv(Lent(s, k)) && CanGo(s, tcbs, true, moves) && Turns(moves) == |tcbs|
    ensures Supplied(s, tcbs, Coming(s))
    decreases |moves|
  {
    hide Inv, Live, Lent, Supplied, TornOnce, DoCompleteIo, DoCompleteDump, Enabled;
    if moves == [] {
      SuppliedEnds(s, tcbs, Coming(s));
    } else {
      var t := Moved(s, tcbs, true, moves[0]);
      MoveKeeps(s, k, tcbs, true, moves[0]);
      if moves[0].Turn? {
        FinishedWasSupplied(t, k + 1, tcbs[1..], moves[1..]);
        SuppliedTurn(s, tcbs, Coming(s));
        TurnAlike(s, s, tcbs[0], true);
      } else {
        FinishedWasSupplied(t, k, tcbs, moves[1..]);
        FinishSupplies(s, k, tcbs, moves[0]);
      }
    }
  }

  lemma SemIoCounts(s: State, k: nat)
    requires Inv(Lent(s, k))
    ensures s.semIo == |s.ioQueue|
  {
    hide Counted, PendingOk, JoinsOk, MutexesOk, AtMostOnce, Waiting, Live;
  }

  lemma {:induction false} MovesCons(s: State, tcbs: seq<Tcb>, move: Move, moves: seq<Move>)
    requires CanMove(s, tcbs, true, move)
    requires CanGo(Moved(s, tcbs, true, move), Left(tcbs, move), true, moves)
    ensures CanGo(s, tcbs, true, [move] + moves)
    ensures Turns([move] + moves) == Turns(moves) + if move.Turn? then 1 else 0
  {
    hide CanMove, Moved, Left;
    assert ([move] + moves)[1..] == moves;
  }

  lemma {:induction false} SuppliedFinishes(s: State, k: nat, tcbs: seq<Tcb>) returns (moves: seq<Move>)
    requires Inv(Lent(s, k)) && Supplied(s, tcbs, Coming(s))
    ensures CanGo(s, tcbs, true, moves) && Turns(moves) == |tcbs|
    decreases |tcbs|, Coming(s)
  {
    hide Inv, Live, Lent, Supplied, TornOnce, DoCompleteIo, DoCompleteDump;
    moves := [];
    if tcbs != [] {
      var move := if s.semThreads > 0 then Turn else if s.ioQueue != [] then FinishIo else FinishDump(0);
      SuppliedEnds(s, tcbs, Coming(s));
      SemIoCounts(s, k);
      MoveKeeps(s, k, tcbs, true, move);
      var t := Moved(s, tcbs, true, move);
      if move.Turn? {
        SuppliedTurn(s, tcbs, Coming(s));
        TurnAlike(s, s, tcbs[0], true);
        moves := SuppliedFinishes(t, k + 1, tcbs[1..]);
      } else {
        FinishSupplies(s, k, tcbs, move);
        moves := SuppliedFinishes(t, k, tcbs);
      }
      MovesCons(s, tcbs, move, moves);
      moves := [move] + moves;
    }
  }

  /** With more than one thread, the loop can get to its end if and only if the semaphore, the completions
      still to come and the heirs of the entries before it cover each turn; where there are no mutexes, if
      and only if the threads in READY, in IO and in dumps are as many as the turns. */
  lemma {:induction false} FinishesIff(s: State, tcbs: seq<Tcb>)
    requires Inv(s) && |tcbs| > 1
    ensures (exists moves :: Finishes(s, tcbs, moves)) <==> Supplied(s, tcbs, Coming(s))
    ensures s.mutexes == [] ==> (Supplied(s, tcbs, Coming(s)) <==> |s.ready| + |s.ioQueue| + |s.dumps| >= |tcbs|)
  {
    hide Inv, Lent, Supplied, CanGo, Turns;
    LentNothing(s);
    if Supplied(s, tcbs, Coming(s)) {
      var moves := SuppliedFinishes(s, 0, tcbs);
      assert Finishes(s, tcbs, moves);
    }
    if moves :| Finishes(s, tcbs, moves) {
      FinishedWasSupplied(s, 0, tcbs, moves);
    }
    if s.mutexes == [] {
      ReadyCounts(s, 0);
      SuppliedWithout(s, tcbs, Coming(s));
    }
  }
}
