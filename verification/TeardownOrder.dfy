/** What a finished loop of PROCESS_EXIT leaves behind, and three runs from start-up in which it does harm. */
module TeardownOrder {
  import opened Lists
  import opened KernelState
  import opened KernelInvariant
  import opened KernelRuns
  import opened Teardown

  /** No thread vanishes from the lists or appears in them twice. */
  ghost predicate KeepsOrder(s: State, t: State) {
    Inv(t) && Population(t) == Population(s)
  }

  lemma UnbalancedBreaks(t: State)
    requires t.semThreads != |t.ready|
    ensures !Inv(t)
  {
    hide Live, Waiting, JoinsOk, MutexesOk, AtMostOnce, Counted, PendingOk;
  }

  /** With more than one turn the semaphore ends below the length of READY. */
  lemma {:induction false} ManyThreadsBreak(s: State, tcbs: seq<Tcb>, moves: seq<Move>)
    requires Inv(s) && s.running.Some? && |tcbs| > 1 && Finishes(s, tcbs, moves)
    ensures !Inv(TornDown(s, tcbs, moves))
  {
    hide Inv, CanGo, Go, Turns;
    WaitsCountReady(s, tcbs, moves);
    UnbalancedBreaks(TornDown(s, tcbs, moves));
  }

  lemma {:induction false} NoTurnsNoMoves(s: State, tcbs: seq<Tcb>, wait: bool, moves: seq<Move>)
    requires tcbs == [] && CanGo(s, tcbs, wait, moves)
    ensures moves == [] && Go(s, tcbs, wait, moves) == s
  {
  }

  lemma {:induction false} OneTurnIs(s: State, t: Tcb, moves: seq<Move>)
    requires Inv(s) && s.running.Some? && moves != [] && moves[0].Turn? && Finishes(s, [t], moves)
    ensures var u := TornDown(s, [t], moves);
      u.exited == s.exited + [t] && Live(s) == Live(u) + multiset{s.running.value.id}
    ensures t == s.running.value ==> TornDown(s, [t], moves) == DoExitProcess(s)
  {
    hide Inv, Live, LivePids, ReleaseFrom;
    TurnKeeps(s, t);
    var h := TornOnce(s, t, false);
    assert Left([t], moves[0]) == [];
    NoTurnsNoMoves(h, Left([t], moves[0]), false, moves[1..]);
    LiveWithoutRunning(h);
    SameListsSameLive(h.(running := None), TornDown(s, [t], moves));
  }

  lemma OtherThreadLost(s: State, t: State, x: Tcb)
    requires s.running.Some? && x.id != s.running.value.id
    requires t.exited == s.exited + [x] && Live(s) == Live(t) + multiset{s.running.value.id}
    ensures Population(t) != Population(s)
  {
    hide Live;
    ListAppend(s.exited, x);
    assert Population(s)[x.id] == Live(t)[x.id] + multiset(Ids(s.exited))[x.id];
    assert Population(t)[x.id] == Live(t)[x.id] + multiset(Ids(s.exited))[x.id] + 1;
  }

  /** The first entry of the thread array is thread 0 of the running process, and the array has as many
      entries as the thread count. */
  predicate EntriesOf(s: State, tcbs: seq<Tcb>) {
    && s.running.Some?
    && var x := s.running.value;
       && x.id.pid in s.active && |tcbs| == s.active[x.id.pid]
       && (tcbs != [] ==> tcbs[0].id == ThreadId(x.id.pid, 0) && (tcbs[0].id == x.id ==> tcbs[0] == x))
  }

  lemma ThreadsCounted(s: State)
    requires Inv(s) && s.running.Some? && s.running.value.id.pid in s.active
    ensures s.active[s.running.value.id.pid] > 0
  {
    hide Core, PendingOk;
    LiveWithoutRunning(s);
    assert LivePids(s)[s.running.value.id.pid] > 0;
  }

  lemma FinishIsAStep(s: State, tcbs: seq<Tcb>, move: Move)
    requires Inv(s) && CanMove(s, tcbs, false, move) && !move.Turn?
    ensures var t := Moved(s, tcbs, false, move);
      Inv(t) && Population(t) == Population(s) && t.running == s.running && t.active == s.active
  {
    hide Inv, Population, DoCompleteIo, DoCompleteDump;
    FinishLent(s, 0, tcbs, false, move);
    var step := match move case FinishDump(index) => CompleteDump(index) case _ => CompleteIo;
    StepKeeps(s, step);
    assert Created(s, step) == multiset{};
  }

  lemma {:induction false} CourseKeepsOrderIff(s: State, tcbs: seq<Tcb>, moves: seq<Move>)
    requires Inv(s) && EntriesOf(s, tcbs) && Finishes(s, tcbs, moves)
    ensures KeepsOrder(s, TornDown(s, tcbs, moves)) <==> LastThread(s)
    decreases |moves|
  {
    hide Inv, Live, Population, TornOnce, DoExitProcess, DoCompleteIo, DoCompleteDump;
    ThreadsCounted(s);
    if |tcbs| > 1 {
      ManyThreadsBreak(s, tcbs, moves);
    } else if moves[0].Turn? {
      assert tcbs == [tcbs[0]];
      OneTurnIs(s, tcbs[0], moves);
      if tcbs[0].id == s.running.value.id {
        ExitProcessKeeps(s);
        ExitedGrows(s, TornDown(s, tcbs, moves), s.running.value);
      } else {
        OtherThreadLost(s, TornDown(s, tcbs, moves), tcbs[0]);
      }
    } else {
      var t := Moved(s, tcbs, false, moves[0]);
      FinishIsAStep(s, tcbs, moves[0]);
      CourseKeepsOrderIff(t, tcbs, moves[1..]);
    }
  }

  lemma {:induction false} OneEntryFinishes(s: State, tcbs: seq<Tcb>)
    requires |tcbs| == 1
    ensures Finishes(s, tcbs, [Turn])
  {
    hide TornOnce;
    assert [Turn][1..] == [];
    assert Turns([Turn][1..]) == 0;
  }

  /** PROCESS_EXIT, or a segmentation fault, gets to its end and leaves the kernel in order if and only if
      the thread count is one and the process's first thread is the one that asked for it; no course of the
      loop that gets to the end makes up for that. */
  lemma {:induction false} TeardownKeepsOrderIff(s: State, tcbs: seq<Tcb>)
    requires Inv(s) && EntriesOf(s, tcbs)
    ensures (exists moves :: Finishes(s, tcbs, moves) && KeepsOrder(s, TornDown(s, tcbs, moves))) <==> LastThread(s)
    ensures forall moves :: Finishes(s, tcbs, moves) ==> (KeepsOrder(s, TornDown(s, tcbs, moves)) <==> LastThread(s))
  {
    hide Inv, KeepsOrder, Finishes, TornDown;
    forall moves | Finishes(s, tcbs, moves) ensures KeepsOrder(s, TornDown(s, tcbs, moves)) <==> LastThread(s) {
      CourseKeepsOrderIff(s, tcbs, moves);
    }
    if LastThread(s) {
      OneEntryFinishes(s, tcbs);
      assert KeepsOrder(s, TornDown(s, tcbs, [Turn]));
    }
  }

  // A run that hangs

  lemma PairIs(s: State)
    requires s == Only(Some(Thread(0)), [Thread(1)], [], 2)
    ensures Alone(s) && EntriesOf(s, [Thread(0), Thread(1)])
    ensures s.running == Some(Thread(0)) && s.ready == [Thread(1)] && s.semThreads == 1
    ensures s.ioQueue == [] && s.dumps == [] && s.mutexes == []
  {
  }

  lemma {:induction false} NothingComes(s: State, tcbs: seq<Tcb>, moves: seq<Move>)
    requires s.semThreads == 0 && s.ioQueue == [] && s.dumps == [] && CanGo(s, tcbs, true, moves)
    ensures moves == []
  {
    hide Moved;
  }

  lemma {:induction false} OneTurnOfTwo(s: State, tcbs: seq<Tcb>)
    requires |tcbs| == 2 && s.semThreads == 1 && s.ioQueue == [] && s.dumps == [] && s.mutexes == []
    ensures CanGo(s, tcbs, true, [Turn]) && Go(s, tcbs, true, [Turn]).semThreads == 0
    ensures forall moves :: CanGo(s, tcbs, true, moves) ==> moves == [] || moves == [Turn]
  {
    assert [Turn][1..] == [];
    forall moves | CanGo(s, tcbs, true, moves) ensures moves == [] || moves == [Turn] {
      if moves != [] {
        assert moves[0] == Turn;
        NothingComes(Moved(s, tcbs, true, Turn), tcbs[1..], moves[1..]);
      }
    }
  }

  /** Thread 0 creates thread 1 and asks for PROCESS_EXIT: the loop passes one wait and no other, whatever
      the rest of the kernel does, with thread 1 READY and nobody to dispatch it. */
  lemma {:induction false} PairHangs() returns (steps: seq<Step>)
    ensures CanRun(Boot, steps)
    ensures var s := Run(Boot, steps); var tcbs := [Thread(0), Thread(1)];
      && Inv(s) && Alone(s) && EntriesOf(s, tcbs) && s.running == Some(Thread(0)) && s.ready == [Thread(1)]
      && CanGo(s, tcbs, true, [Turn]) && Go(s, tcbs, true, [Turn]).semThreads == 0
      && forall moves :: CanGo(s, tcbs, true, moves) ==> moves == [] || moves == [Turn]
  {
    hide CanRun, Run, Inv, Only, CanGo, Go;
    steps := [CreateProcess(8, 0)] + ([AdmitHead] + ([Dispatch(Fifo)] + ([CreateThread(0)] + [])));
    var s := Only(Some(Thread(0)), [Thread(1)], [], 2);
    NoSteps(s);
    PairSetup([]);
    BootOk();
    RunKeeps(Boot, steps);
    PairIs(s);
    OneTurnOfTwo(s, [Thread(0), Thread(1)]);
  }

  // A run that strands two threads

  /** A second process is admitted meanwhile: its thread's post lets the loop pass, and then it is READY
      beside thread 1 of the process that is gone, with a semaphore at zero. */
  function Neighbours(): State {
    Only(Some(Thread(0)), [Thread(1)], [], 2).(ready := [Thread(1), Tcb(ThreadId(1, 0), 0)], semThreads := 2,
      active := map[0 := 2, 1 := 1], nextPid := 2)
  }

  lemma NeighbourComes(s: State)
    requires s == Only(Some(Thread(0)), [Thread(1)], [], 2)
    ensures Enabled(s, CreateProcess(8, 0))
    ensures Apply(s, CreateProcess(8, 0))
      == s.(pending := [PendingPcb(1, 8)], firstThreads := [FirstThread(8, 0)], nextPid := 2)
  {
  }

  lemma NeighbourArrives()
    ensures var s4 := Only(Some(Thread(0)), [Thread(1)], [], 2);
      var s5 := s4.(pending := [PendingPcb(1, 8)], firstThreads := [FirstThread(8, 0)], nextPid := 2);
      Enabled(s5, AdmitHead) && Apply(s5, AdmitHead) == Neighbours()
  {
    hide Find, Pick;
    assert map[0 := 2][1 := 1] == map[0 := 2, 1 := 1];
  }

  lemma {:induction false} TwoTurns(s: State)
    requires s == Neighbours()
    ensures var tcbs := [Thread(0), Thread(1)];
      && EntriesOf(s, tcbs) && Finishes(s, tcbs, [Turn, Turn]) && !LastThread(s)
      && var t := TornDown(s, tcbs, [Turn, Turn]);
         && t.running == None && t.ready == [Thread(1), Tcb(ThreadId(1, 0), 0)]
         && t.exited == [Thread(0), Thread(1)] && t.semThreads == 0
  {
    var tcbs := [Thread(0), Thread(1)];
    assert [Turn, Turn][1..] == [Turn] && [Turn][1..] == [];
    assert tcbs[1..] == [Thread(1)];
    assert Turns([Turn]) == 1 && Turns([Turn, Turn]) == 2;
    var t := Moved(s, tcbs, true, Turn);
    assert t.exited == [Thread(0)] && t.semThreads == 1 && t.mutexes == [];
    var u := Moved(t, tcbs[1..], true, Turn);
    assert u.exited == [Thread(0), Thread(1)] && u.semThreads == 0;
    assert CanGo(t, tcbs[1..], true, [Turn]) && Go(t, tcbs[1..], true, [Turn]) == u;
  }

  lemma {:induction false} NeighbourStarves() returns (steps: seq<Step>)
    ensures CanRun(Boot, steps)
    ensures var s := Run(Boot, steps); var tcbs := [Thread(0), Thread(1)];
      && Inv(s) && EntriesOf(s, tcbs) && Finishes(s, tcbs, [Turn, Turn])
      && var t := TornDown(s, tcbs, [Turn, Turn]);
         && !KeepsOrder(s, t) && t.running == None && t.ready == [Thread(1), Tcb(ThreadId(1, 0), 0)]
         && t.exited == [Thread(0), Thread(1)] && t.semThreads == 0
  {
    hide CanRun, Run, Enabled, Apply, Inv, Only, KeepsOrder, Neighbours, CanGo, Go, Turns;
    var s4 := Only(Some(Thread(0)), [Thread(1)], [], 2);
    var s5 := s4.(pending := [PendingPcb(1, 8)], firstThreads := [FirstThread(8, 0)], nextPid := 2);
    var rest := [CreateProcess(8, 0)] + ([AdmitHead] + []);
    steps := [CreateProcess(8, 0)] + ([AdmitHead] + ([Dispatch(Fifo)] + ([CreateThread(0)] + rest)));
    NeighbourComes(s4);
    NeighbourArrives();
    NoSteps(Neighbours());
    RunCons(s5, AdmitHead, Neighbours(), []);
    RunCons(s4, CreateProcess(8, 0), s5, [AdmitHead] + []);
    PairSetup(rest);
    BootOk();
    RunKeeps(Boot, steps);
    TwoTurns(Neighbours());
    CourseKeepsOrderIff(Neighbours(), [Thread(0), Thread(1)], [Turn, Turn]);
  }

  // A run that loses one

  lemma FirstLeaves()
    ensures var s4 := Only(Some(Thread(0)), [Thread(1)], [], 2); var s5 := Only(None, [Thread(1)], [Thread(0)], 1);
      && Enabled(s4, ExitThread) && Apply(s4, ExitThread) == s5
      && Enabled(s5, Dispatch(Fifo)) && Apply(s5, Dispatch(Fifo)) == Only(Some(Thread(1)), [], [Thread(0)], 1)
  {
    hide Find;
    assert map[0 := 2][0 := 1] == map[0 := 1];
  }

  lemma {:induction false} SurvivorTorn(s: State)
    requires s == Only(Some(Thread(1)), [], [Thread(0)], 1) && Finishes(s, [Thread(0)], [Turn])
    ensures s.running == Some(Thread(1)) && EntriesOf(s, [Thread(0)]) && !LastThread(s)
    ensures var t := TornDown(s, [Thread(0)], [Turn]);
      Live(t) == multiset{} && t.exited == [Thread(0), Thread(0)]
  {
    assert [Turn][1..] == [];
    var u := Moved(s, [Thread(0)], false, Turn);
    assert u.exited == [Thread(0), Thread(0)] && u.ready == [] && u.blocked == [];
  }

  /** Thread 0 exits and thread 1 asks for PROCESS_EXIT: the only entry the loop takes is the one of thread 0,
      which goes to EXIT again, and thread 1 is nowhere. */
  lemma {:induction false} SurvivorIsLost() returns (steps: seq<Step>)
    ensures CanRun(Boot, steps)
    ensures var s := Run(Boot, steps); var tcbs := [Thread(0)];
      && Inv(s) && EntriesOf(s, tcbs) && s.running == Some(Thread(1)) && Finishes(s, tcbs, [Turn])
      && var t := TornDown(s, tcbs, [Turn]);
         && !KeepsOrder(s, t) && Live(t) == multiset{} && t.exited == [Thread(0), Thread(0)]
  {
    hide CanRun, Run, Enabled, Apply, Inv, Only, KeepsOrder, CanGo, Go, Turns;
    var s4 := Only(Some(Thread(0)), [Thread(1)], [], 2);
    var s5 := Only(None, [Thread(1)], [Thread(0)], 1);
    var s6 := Only(Some(Thread(1)), [], [Thread(0)], 1);
    var rest := [ExitThread] + ([Dispatch(Fifo)] + []);
    steps := [CreateProcess(8, 0)] + ([AdmitHead] + ([Dispatch(Fifo)] + ([CreateThread(0)] + rest)));
    FirstLeaves();
    NoSteps(s6);
    RunCons(s5, Dispatch(Fifo), s6, []);
    RunCons(s4, ExitThread, s5, [Dispatch(Fifo)] + []);
    PairSetup(rest);
    BootOk();
    RunKeeps(Boot, steps);
    OneEntryFinishes(s6, [Thread(0)]);
    SurvivorTorn(s6);
    CourseKeepsOrderIff(s6, [Thread(0)], [Turn]);
  }
}
