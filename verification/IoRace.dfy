/** request_io pushes and posts its request before the thread is in BLOCKED; the device may finish
    a request in between. */
module IoRace {
  import opened KernelState
  import opened KernelInvariant

  /** The first half of request_io: the request is queued and posted, the thread not yet blocked. */
  function Posted(s: State, time: nat): State
    requires s.running.Some?
  {
    s.(ioQueue := s.ioQueue + [IoRequest(s.running.value.id, time)], semIo := s.semIo + 1)
  }

  /** The device completes one request between the two halves. */
  function Interleaved(s: State, time: nat): State
    requires s.running.Some?
  {
    Block(DoCompleteIo(Posted(s, time)))
  }

  lemma RunningNotBlocked(s: State)
    requires Inv(s) && s.running.Some?
    ensures !Has(s.blocked, s.running.value.id) && s.running.value.id !in Waiting(s)
  {
    hide Find, Has, Waiting, JoinsOk, MutexesOk, Counted, PendingOk;
    var x := s.running.value.id;
    HasMeansMember(s.blocked, x);
    assert multiset(RunningIds(s))[x] == 1;
    assert Live(s)[x] <= 1;
  }

  /** Behind another request, the turn in between is the same as one before. */
  lemma BehindAnother(s: State, time: nat)
    requires s.running.Some? && s.ioQueue != [] && s.semIo > 0
    ensures Interleaved(s, time) == DoRequestIo(DoCompleteIo(s), time)
  {
    hide Find, Has;
    assert (s.ioQueue + [IoRequest(s.running.value.id, time)])[1..]
      == s.ioQueue[1..] + [IoRequest(s.running.value.id, time)];
  }

  /** Alone in the queue, the request is dropped because its thread is not BLOCKED yet; the thread
      then blocks with nobody left to wake it. */
  lemma FirstInLine(s: State, time: nat)
    requires Inv(s) && s.running.Some? && s.ioQueue == []
    ensures var t := Interleaved(s, time); var x := s.running.value.id;
      t == Block(s) && x in multiset(Ids(t.blocked)) && x !in Waiting(t) && !Inv(t)
  {
    hide Find, Has, JoinsOk, MutexesOk, Counted, PendingOk, AtMostOnce, Live, Ids;
    RunningNotBlocked(s);
    ListAppend(s.blocked, s.running.value);
    assert ([IoRequest(s.running.value.id, time)])[1..] == [];
    assert Posted(s, time).ioQueue[1..] == s.ioQueue;
    assert s.semIo == |s.ioQueue|;
  }

  /** A completion between the two halves keeps the kernel's invariant if and only if another
      request was already queued. */
  lemma CompletionBetweenHalvesIff(s: State, time: nat)
    requires Inv(s) && s.running.Some?
    ensures Inv(Interleaved(s, time)) <==> s.ioQueue != []
  {
    if s.ioQueue == [] {
      FirstInLine(s, time);
    } else {
      hide Live, Counted, PendingOk, Interleaved, DoRequestIo, DoCompleteIo, AtMostOnce, JoinsOk, MutexesOk, Waiting;
      assert s.semIo == |s.ioQueue|;
      BehindAnother(s, time);
      hide Core, Inv;
      CompleteIoKeeps(s);
      StillRunning(s);
      RequestIoKeeps(DoCompleteIo(s), time);
    }
  }

  lemma StillRunning(s: State)
    requires s.ioQueue != [] && s.semIo > 0
    ensures DoCompleteIo(s).running == s.running
  {
    hide Find, Has;
  }
}
