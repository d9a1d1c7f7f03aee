/** How long a ready thread can be passed over under PRIORIDADES and CMN. */
module Scheduling {
  import opened Lists
  import opened KernelState

  function CountBelow(list: seq<Tcb>, bound: nat): nat {
    if list == [] then 0 else (if list[0].priority < bound then 1 else 0) + CountBelow(list[1..], bound)
  }

  /** READY entries the scheduler prefers to position p: better, or as good and earlier. */
  function Ahead(ready: seq<Tcb>, p: nat): nat
    requires p < |ready|
  {
    CountBelow(ready[..p], ready[p].priority + 1) + CountBelow(ready[p + 1..], ready[p].priority)
  }

  lemma {:induction false} CountConcat(a: seq<Tcb>, b: seq<Tcb>, bound: nat)
    ensures CountBelow(a + b, bound) == CountBelow(a, bound) + CountBelow(b, bound)
  {
    if a == [] {
      assert a + b == b;
    } else {
      assert (a + b)[1..] == a[1..] + b;
      CountConcat(a[1..], b, bound);
    }
  }

  lemma {:induction false} CountRemoveAt(list: seq<Tcb>, i: nat, bound: nat)
    requires i < |list| && list[i].priority < bound
    ensures CountBelow(RemoveAt(list, i), bound) == CountBelow(list, bound) - 1
  {
    assert list == list[..i] + ([list[i]] + list[i + 1..]);
    CountConcat(list[..i], [list[i]] + list[i + 1..], bound);
    CountConcat([list[i]], list[i + 1..], bound);
    CountConcat(list[..i], list[i + 1..], bound);
  }

  /** Where position p ends up when position i is taken out. */
  function Shifted(p: nat, i: nat): nat
    requires i != p
  {
    if i < p then p - 1 else p
  }

  lemma TakenBefore(ready: seq<Tcb>, i: nat, p: nat)
    requires i < p < |ready| && ready[i].priority <= ready[p].priority
    ensures RemoveAt(ready, i)[p - 1] == ready[p]
    ensures Ahead(RemoveAt(ready, i), p - 1) == Ahead(ready, p) - 1
  {
    hide CountBelow;
    var rest := RemoveAt(ready, i);
    assert rest[p - 1] == ready[p];
    assert rest[..p - 1] == RemoveAt(ready[..p], i);
    assert rest[p..] == ready[p + 1..];
    CountRemoveAt(ready[..p], i, ready[p].priority + 1);
  }

  lemma TakenAfter(ready: seq<Tcb>, i: nat, p: nat)
    requires p < i < |ready| && ready[i].priority < ready[p].priority
    ensures RemoveAt(ready, i)[p] == ready[p]
    ensures Ahead(RemoveAt(ready, i), p) == Ahead(ready, p) - 1
  {
    hide CountBelow;
    var rest := RemoveAt(ready, i);
    assert rest[..p] == ready[..p];
    assert rest[p + 1..] == RemoveAt(ready[p + 1..], i - p - 1);
    CountRemoveAt(ready[p + 1..], i - p - 1, ready[p].priority);
  }

  /** A decision takes the thread at p, or someone ahead of it, who is then no longer ahead. */
  lemma {:induction false} DecisionAdvances(ready: seq<Tcb>, p: nat)
    requires p < |ready|
    ensures Ahead(ready, p) == 0 ==> Pick(Priorities, ready) == p
    ensures var i := Pick(Priorities, ready);
      i != p ==> (
        && Shifted(p, i) < |ready| - 1 && RemoveAt(ready, i)[Shifted(p, i)] == ready[p]
        && Ahead(RemoveAt(ready, i), Shifted(p, i)) == Ahead(ready, p) - 1)
  {
    hide Ahead, RemoveAt;
    var i := Pick(Priorities, ready);
    if i < p {
      TakenBefore(ready, i, p);
    } else if i > p {
      TakenAfter(ready, i, p);
    }
  }

  lemma {:induction false} NoneBelow(list: seq<Tcb>, bound: nat)
    requires forall j :: 0 <= j < |list| ==> list[j].priority >= bound
    ensures CountBelow(list, bound) == 0
  {
    if list != [] {
      NoneBelow(list[1..], bound);
    }
  }

  /** Arrivals at the tail that are not strictly better leave the count as it is. */
  lemma ArrivalsKeepRank(ready: seq<Tcb>, tail: seq<Tcb>, p: nat)
    requires p < |ready| && forall j :: 0 <= j < |tail| ==> tail[j].priority >= ready[p].priority
    ensures Ahead(ready + tail, p) == Ahead(ready, p)
  {
    assert (ready + tail)[..p] == ready[..p] && (ready + tail)[p + 1..] == ready[p + 1..] + tail;
    CountConcat(ready[p + 1..], tail, ready[p].priority);
    NoneBelow(tail, ready[p].priority);
  }

  // READY only grows at its tail, except when the dispatcher takes a thread

  lemma {:induction false} UnlockJoinsAppends(s: State, i: nat, x: ThreadId)
    ensures s.ready <= UnlockJoinsFrom(s, i, x).ready
    decreases |s.joins| - i
  {
    hide Find;
    if i < |s.joins| {
      if s.joins[i].blocking == x {
        UnlockJoinsAppends(WakeJoiner(s, i), i, x);
      } else {
        UnlockJoinsAppends(s, i + 1, x);
      }
    }
  }

  lemma {:induction false} ReleaseFromAppends(s: State, i: nat, tid: nat)
    requires i <= |s.mutexes|
    ensures s.ready <= ReleaseFrom(s, i, tid).ready
    decreases |s.mutexes| - i
  {
    hide Find, FindMutex;
    if i < |s.mutexes| {
      if HeldBy(s.mutexes[i], tid) {
        ReleaseFromAppends(Unlock(s, s.mutexes[i].name, tid), i + 1, tid);
      } else {
        ReleaseFromAppends(s, i + 1, tid);
      }
    }
  }

  lemma ReadyAppends(s: State, step: Step)
    requires Enabled(s, step) && !step.Dispatch?
    ensures s.ready <= Apply(s, step).ready
  {
    hide Find, FindMutex, Pick, FreshTid, Known, Awaited, Owns, UnlockJoinsFrom, ReleaseFrom;
    if step.ExitThread? {
      var me := s.running.value;
      var counts := if me.id.pid in s.active then s.active[me.id.pid := Decremented(s.active[me.id.pid])] else s.active;
      var r := s.(exited := s.exited + [me], active := counts);
      UnlockJoinsAppends(r, 0, me.id);
      ReleaseFromAppends(UnlockJoinsFrom(r, 0, me.id), 0, me.id.tid);
    } else if step.CancelThread? {
      UnlockJoinsAppends(s, 0, ThreadId(s.running.value.id.pid, step.tid));
    } else if step.ExitProcess? || step.SegmentationFault? {
      var me := s.running.value;
      ReleaseFromAppends(s.(exited := s.exited + [me]), 0, me.id.tid);
    }
  }

  // Bounded waiting over runs

  /** Every dispatch decides by priority, and nobody strictly better than the bound is readied. */
  predicate NobodyBetterArrives(s: State, steps: seq<Step>, priority: nat)
    requires CanRun(s, steps)
    decreases |steps|
  {
    steps == [] ||
    (var t := Apply(s, steps[0]);
     && (if steps[0].Dispatch? then steps[0].policy.Priorities?
         else forall j :: |s.ready| <= j < |t.ready| ==> t.ready[j].priority >= priority)
     && NobodyBetterArrives(t, steps[1..], priority))
  }

  function Decisions(steps: seq<Step>): nat {
    if steps == [] then 0 else (if steps[0].Dispatch? then 1 else 0) + Decisions(steps[1..])
  }

  /** The thread is made the running one at some point of the run. */
  predicate GetsToRun(s: State, steps: seq<Step>, x: Tcb)
    requires CanRun(s, steps)
    decreases |steps|
  {
    s.running == Some(x) || (steps != [] && GetsToRun(Apply(s, steps[0]), steps[1..], x))
  }

  /** A READY thread with r entries ahead of it runs within the next r + 1 scheduling decisions,
      provided no strictly better thread becomes ready meanwhile. */
  lemma {:induction false} BoundedWaiting(s: State, steps: seq<Step>, p: nat)
    requires CanRun(s, steps) && p < |s.ready|
    requires NobodyBetterArrives(s, steps, s.ready[p].priority)
    requires Decisions(steps) > Ahead(s.ready, p)
    ensures GetsToRun(s, steps, s.ready[p])
    decreases |steps|
  {
    hide Pick, Ahead;
    var t := Apply(s, steps[0]);
    if steps[0].Dispatch? {
      var i := Pick(Priorities, s.ready);
      DecisionAdvances(s.ready, p);
      assert t == DoDispatch(s, Priorities);
      if i != p {
        BoundedWaiting(t, steps[1..], Shifted(p, i));
      } else {
        assert t.running == Some(s.ready[p]);
      }
    } else {
      ReadyAppends(s, steps[0]);
      var tail := t.ready[|s.ready|..];
      assert t.ready == s.ready + tail;
      ArrivalsKeepRank(s.ready, tail, p);
      hide Apply, Enabled;
      BoundedWaiting(t, steps[1..], p);
    }
  }
}
