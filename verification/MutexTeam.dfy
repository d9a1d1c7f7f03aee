/** Any number of threads of one process running the shipped mutex script, among whatever else the
    system is doing: what they keep true. */
module MutexTeam {
  import opened Lists
  import opened Words
  import opened Cpu
  import opened Contexts
  import opened KernelInvariant
  import opened KernelRuns
  import opened WholeSystem
  import opened MutexScript
  import opened MutexFrame
  import K = KernelState

  /** The process, the loop count, where the process lies, the shared word's first value, and the
      TIDs whose threads run the script. */
  datatype Setting = Setting(pid: nat, c: u32, bounds: Bounds, start: u32, tids: seq<nat>)

  function Members(st: Setting): Group {
    Team(st.pid, st.tids)
  }

  function Shared(st: Setting): nat {
    st.bounds.base + OFFSET
  }

  ghost predicate Sane(st: Setting) {
    st.c >= 1 && forall i, j :: 0 <= i < j < |st.tids| ==> st.tids[i] != st.tids[j]
  }

  ghost predicate RunScript(program: Scripts, st: Setting) {
    forall x :: In(Members(st), x) ==> program(x) == Script(st.c)
  }

  // Counting over the team

  function Count(what: Measure, live: multiset<K.ThreadId>, regs: RegisterFile, st: Setting, tid: nat): int {
    var x := K.ThreadId(st.pid, tid);
    if x in live && x in regs then Score(what, regs[x], st.c) else 0
  }

  function Total(what: Measure, live: multiset<K.ThreadId>, regs: RegisterFile, st: Setting, tids: seq<nat>): int {
    if tids == [] then 0 else Count(what, live, regs, st, tids[0]) + Total(what, live, regs, st, tids[1..])
  }

  /** What the members that have exited count for. */
  function Past(what: Measure, st: Setting, exited: seq<K.Tcb>): int {
    if exited == [] then 0
    else
      var last := |exited| - 1;
      Past(what, st, exited[..last]) + if In(Members(st), exited[last].id) then Final(what, st.c) else 0
  }

  /** How many members have exited. */
  function Finished(st: Setting, exited: seq<K.Tcb>): nat {
    if exited == [] then 0
    else
      var last := |exited| - 1;
      Finished(st, exited[..last]) + if In(Members(st), exited[last].id) then 1 else 0
  }

  function Tally(what: Measure, st: Setting, k: K.State, regs: RegisterFile): int {
    Total(what, Live(k), regs, st, st.tids) + Past(what, st, k.exited)
  }

  lemma {:induction false} TotalSame(what: Measure, live: multiset<K.ThreadId>, regs: RegisterFile,
                                     live': multiset<K.ThreadId>, regs': RegisterFile, st: Setting, tids: seq<nat>)
    requires forall t :: t in tids ==> Count(what, live, regs, st, t) == Count(what, live', regs', st, t)
    ensures Total(what, live, regs, st, tids) == Total(what, live', regs', st, tids)
  {
    hide Count;
    if tids != [] {
      TotalSame(what, live, regs, live', regs', st, tids[1..]);
    }
  }

  /** Changing what one member counts for changes the total by that much. */
  lemma {:induction false} TotalChanges(what: Measure, live: multiset<K.ThreadId>, regs: RegisterFile,
                                        live': multiset<K.ThreadId>, regs': RegisterFile,
                                        st: Setting, tids: seq<nat>, tid: nat, more: int)
    requires tid in tids && forall i, j :: 0 <= i < j < |tids| ==> tids[i] != tids[j]
    requires forall t :: t in tids && t != tid ==> Count(what, live, regs, st, t) == Count(what, live', regs', st, t)
    requires Count(what, live', regs', st, tid) == Count(what, live, regs, st, tid) + more
    ensures Total(what, live', regs', st, tids) == Total(what, live, regs, st, tids) + more
  {
    hide Count;
    if tids[0] == tid {
      TotalSame(what, live, regs, live', regs', st, tids[1..]);
    } else {
      TotalChanges(what, live, regs, live', regs', st, tids[1..], tid, more);
    }
  }

  lemma {:induction false} TotalOfNobody(what: Measure, live: multiset<K.ThreadId>, regs: RegisterFile, st: Setting,
                                         tids: seq<nat>)
    requires forall t :: t in tids ==> K.ThreadId(st.pid, t) !in live
    ensures Total(what, live, regs, st, tids) == 0
  {
    if tids != [] {
      TotalOfNobody(what, live, regs, st, tids[1..]);
    }
  }

  lemma {:induction false} PastIsGone(what: Measure, st: Setting, exited: seq<K.Tcb>)
    ensures Past(what, st, exited) == Finished(st, exited) * Final(what, st.c)
  {
    if exited != [] {
      PastIsGone(what, st, exited[..|exited| - 1]);
    }
  }

  lemma {:induction false} PastElsewhere(what: Measure, st: Setting, before: seq<K.Tcb>, after: seq<K.Tcb>)
    requires ExitsElsewhere(Members(st), before, after)
    ensures Past(what, st, after) == Past(what, st, before) && Finished(st, after) == Finished(st, before)
  {
    if |after| == |before| {
      assert after == before;
    } else {
      var init := after[..|after| - 1];
      assert init[..|before|] == before;
      assert !In(Members(st), after[|after| - 1].id);
      PastElsewhere(what, st, before, init);
    }
  }

  lemma {:induction false} PastAppend(what: Measure, st: Setting, exited: seq<K.Tcb>, t: K.Tcb)
    ensures Past(what, st, exited + [t])
      == Past(what, st, exited) + (if In(Members(st), t.id) then Final(what, st.c) else 0)
    ensures Finished(st, exited + [t]) == Finished(st, exited) + (if In(Members(st), t.id) then 1 else 0)
  {
    assert (exited + [t])[..|exited|] == exited;
  }

  // The invariant

  /** A waiting member stands right after the lock; the holder is whoever else is inside; and what
      the holder has read of the shared word is still true. */
  predicate Placed(m: K.Mutex, r: Registers, x: K.ThreadId, word: u32) {
    && (x in m.waiters ==> r.pc == 6)
    && (K.HeldBy(m, x.tid) <==> Inside(r) && x !in m.waiters)
    && (r.pc == 7 ==> r.dx == word)
    && (r.pc == 8 ==> r.dx == (word + 1) % 0x1_0000_0000)
  }

  ghost predicate Orderly(st: Setting, live: multiset<K.ThreadId>, m: K.Mutex, regs: RegisterFile, word: u32) {
    forall x :: x in live && In(Members(st), x) ==> x in regs && AtLine(regs[x], st.c) && Placed(m, regs[x], x, word)
  }

  /** Only members hold the mutex or wait for it. */
  predicate TeamOnly(st: Setting, m: K.Mutex) {
    && m.pid == st.pid
    && (m.taken ==> m.tid in st.tids)
    && (forall i :: 0 <= i < |m.waiters| ==> In(Members(st), m.waiters[i]))
  }

  /** A blocked member waits for the mutex. */
  predicate Queued(st: Setting, k: K.State, m: K.Mutex) {
    forall x :: In(Members(st), x) && x in Ids(k.blocked) ==> x in m.waiters
  }

  predicate Homed(st: Setting, v: Threads) {
    Settled(v.m) && (st.pid in v.k.active ==> HomeOf(v.m, st.pid) == Some(st.bounds))
  }

  ghost predicate Fine(st: Setting, v: Threads, writes: nat, steps: nat) {
    && Sane(st) && Fits(st.bounds, v.bytes)
    && Inv(v.k) && Away(st.pid, v.k) && Homed(st, v)
    && LockOf(v.k).Some? && TeamOnly(st, LockOf(v.k).value) && Queued(st, v.k, LockOf(v.k).value)
    && Orderly(st, Live(v.k), LockOf(v.k).value, v.regs, ReadWord(v.bytes, Shared(st)))
    && Tally(Writes, st, v.k, v.regs) == writes
    && Tally(Instructions, st, v.k, v.regs) == steps
    && (st.pid in v.k.active ==> ReadWord(v.bytes, Shared(st)) == (st.start + writes) % 0x1_0000_0000)
  }

  // What others do

  lemma {:induction false} FrameTally(what: Measure, st: Setting, v: Threads, t: Threads)
    requires Frame(Members(st), v, t)
    requires forall x :: In(Members(st), x) && x in Live(v.k) ==> x in v.regs
    ensures Tally(what, st, t.k, t.regs) == Tally(what, st, v.k, v.regs)
    ensures Finished(st, t.k.exited) == Finished(st, v.k.exited)
  {
    hide Inv, Live, Ids, LockOf, HomeOf, ReadWord, Settled, Score, Past, Finished, Total;
    PastElsewhere(what, st, v.k.exited, t.k.exited);
    forall i | i in st.tids
      ensures Count(what, Live(v.k), v.regs, st, i) == Count(what, Live(t.k), t.regs, st, i)
    {
      assert In(Members(st), K.ThreadId(st.pid, i));
    }
    TotalSame(what, Live(v.k), v.regs, Live(t.k), t.regs, st, st.tids);
  }

  lemma LiveIsActive(k: K.State, x: K.ThreadId)
    requires Inv(k) && x in Live(k)
    ensures x.pid in k.active
  {
    hide Core;
    if x.pid !in k.active {
      NotAdmittedMeansNotLive(k, x);
    }
  }

  lemma {:induction false} OrderlyFrame(st: Setting, v: Threads, t: Threads, writes: nat, steps: nat)
    requires Fine(st, v, writes, steps) && Frame(Members(st), v, t)
    ensures Fits(st.bounds, t.bytes)
    ensures Orderly(st, Live(t.k), LockOf(v.k).value, t.regs, ReadWord(t.bytes, Shared(st)))
  {
    hide Inv, Live, Ids, LockOf, HomeOf, ReadWord, Settled, AtLine, Placed, Tally, TeamOnly, Queued;
    forall x | x in Live(t.k) && In(Members(st), x)
      ensures x in t.regs && AtLine(t.regs[x], st.c)
      ensures Placed(LockOf(v.k).value, t.regs[x], x, ReadWord(t.bytes, Shared(st)))
    {
      LiveIsActive(t.k, x);
      assert x in Live(v.k);
    }
  }

  lemma {:induction false} PlacesFrame(st: Setting, v: Threads, t: Threads, m: K.Mutex)
    requires Queued(st, v.k, m) && Homed(st, v) && Frame(Members(st), v, t)
    ensures Queued(st, t.k, m) && Homed(st, t)
  {
    hide Inv, Live, Ids, LockOf, HomeOf, ReadWord, Settled, In;
  }

  lemma {:induction false} WordFrame(st: Setting, v: Threads, t: Threads)
    requires Homed(st, v) && Fits(st.bounds, v.bytes) && Frame(Members(st), v, t) && st.pid in t.k.active
    ensures st.pid in v.k.active && Fits(st.bounds, t.bytes)
    ensures ReadWord(t.bytes, Shared(st)) == ReadWord(v.bytes, Shared(st))
  {
    hide Inv, Live, Ids, LockOf, HomeOf, ReadWord, Settled, In;
  }

  /** Whatever leaves the group alone leaves the team's invariant alone. */
  lemma {:induction false} FineFrame(st: Setting, v: Threads, t: Threads, writes: nat, steps: nat)
    requires Fine(st, v, writes, steps) && Frame(Members(st), v, t)
    ensures Fine(st, t, writes, steps)
  {
    hide Inv, Live, LockOf, HomeOf, ReadWord, Tally, TeamOnly, In, DataFrame, Queued, Homed, Fits, Away, ExitsElsewhere;
    OrderlyFrame(st, v, t, writes, steps);
    FrameTally(Writes, st, v, t);
    FrameTally(Instructions, st, v, t);
    PlacesFrame(st, v, t, LockOf(v.k).value);
    if st.pid in t.k.active {
      WordFrame(st, v, t);
    }
  }

  /** What the kernel's invariant says about the mutex. */
  lemma {:induction false} LockFacts(k: K.State)
    requires Inv(k) && LockOf(k).Some?
    ensures var m := LockOf(k).value;
      && (m.taken ==> m.tid >= 0 && K.ThreadId(m.pid, m.tid) in Live(k) && K.ThreadId(m.pid, m.tid) !in m.waiters)
      && (!m.taken ==> m.waiters == [])
      && (forall x :: x in m.waiters ==> x in Live(k) && x in Ids(k.blocked) && x.pid == m.pid)
      && (k.running.Some? ==> k.running.value.id !in m.waiters)
      && (m.waiters != [] ==> m.waiters[0] !in m.waiters[1..])
  {
    hide Counted, PendingOk, JoinsOk, K.FindMutex, MutexWaiters, JoinWaiters, IoWaiters;
    var i := K.FindMutex(k.mutexes, MUTEX);
    var m := k.mutexes[i];
    assert MutexOk(m, Live(k));
    WaitersOfOne(k.mutexes, i);
    if m.waiters != [] {
      WaiterOnce(k, i);
    }
    forall x | x in m.waiters ensures x in Live(k) && x in Ids(k.blocked) && x.pid == m.pid {
      assert x in multiset(m.waiters);
      assert x in MutexWaiters(k.mutexes);
      assert x in KernelInvariant.Waiting(k);
      assert x in multiset(Ids(k.blocked));
    }
    if k.running.Some? {
      var x := k.running.value.id;
      assert Live(k)[x] <= 1;
      assert multiset(RunningIds(k))[x] == 1;
      assert multiset(Ids(k.blocked))[x] == 0;
    }
  }

  /** A thread created with a team's TID joins the team at the first line. */
  lemma {:induction false} BirthKeeps(st: Setting, v: Threads, call: K.Step, writes: nat, steps: nat)
    requires Fine(st, v, writes, steps) && v.k.running.Some? && K.Enabled(v.k, call) && call.CreateThread?
    requires !In(Members(st), v.k.running.value.id)
    requires In(Members(st), K.ThreadId(v.k.running.value.id.pid, v.k.active[v.k.running.value.id.pid]))
    ensures Fine(st, ServeThreads(v, call).value, writes, steps)
    ensures var t := ServeThreads(v, call).value; forall what ::
      Tally(what, st, t.k, t.regs) == Tally(what, st, v.k, v.regs) + Score(what, Fresh, st.c)
      && Finished(st, t.k.exited) == Finished(st, v.k.exited)
  {
    hide Inv, Live, K.Apply, LockOf, HomeOf, ReadWord, Settled, Ids, Total, Past, Finished, K.FreshTid;
    var born := K.ThreadId(v.k.running.value.id.pid, v.k.active[v.k.running.value.id.pid]);
    NewThread(v.k, call);
    LiveAfter(v.k, call);
    hide K.Enabled;
    LockFrame(v.k, call);
    BlockedBy(v.k, call);
    StaysAway(st.pid, v.k, call);
    ActiveAfter(v.k, call);
    LockFacts(v.k);
    var t := ServeThreads(v, call).value;
    BirthOrder(st, v, t, born, ReadWord(v.bytes, Shared(st)));
    forall what
      ensures Tally(what, st, t.k, t.regs) == Tally(what, st, v.k, v.regs) + Score(what, Fresh, st.c)
    {
      TotalChanges(what, Live(v.k), v.regs, Live(t.k), t.regs, st, st.tids, born.tid, Score(what, Fresh, st.c));
    }
  }

  lemma {:induction false} BirthOrder(st: Setting, v: Threads, t: Threads, born: K.ThreadId, word: u32)
    requires LockOf(v.k).Some? && Orderly(st, Live(v.k), LockOf(v.k).value, v.regs, word) && st.c >= 1
    requires Live(t.k) == Live(v.k) + multiset{born} && t.regs == v.regs[born := Fresh] && born !in Live(v.k)
    requires var m := LockOf(v.k).value;
      && born.pid == m.pid && (m.taken ==> m.tid >= 0 && K.ThreadId(m.pid, m.tid) in Live(v.k))
      && (forall x :: x in m.waiters ==> x in Live(v.k))
    ensures Orderly(st, Live(t.k), LockOf(v.k).value, t.regs, word)
  {
    hide Live, LockOf;
    var m := LockOf(v.k).value;
    forall x | x in Live(t.k) && In(Members(st), x)
      ensures x in t.regs && AtLine(t.regs[x], st.c) && Placed(m, t.regs[x], x, word)
    {
      if x != born {
        assert x in Live(v.k);
      }
    }
  }

  // What a member does

  /** A member executes a line that is not a syscall. */
  lemma {:induction false} PlainKeeps(st: Setting, v: Threads, writes: nat, steps: nat)
    requires Fine(st, v, writes, steps) && v.k.running.Some? && In(Members(st), v.k.running.value.id)
    requires v.k.running.value.id in v.regs && !IsCall(v.regs[v.k.running.value.id].pc)
    ensures var x := v.k.running.value.id;
      var o := Cycle(Script(st.c), Context(v.regs[x], st.bounds.base, st.bounds.limite), v.bytes);
      && o.Next? && |o.mem| == |v.bytes|
      && Fine(st, v.(regs := v.regs[x := o.context.regs], bytes := o.mem),
              writes + (if v.regs[x].pc == 8 then 1 else 0), steps + 1)
  {
    hide Inv, Live, LockOf, HomeOf, Settled, Ids, Cycle, Score, Total, Past, WriteWord, ReadWord, AtLine;
    var x := v.k.running.value.id;
    var r := v.regs[x];
    var live := Live(v.k);
    RunningIsLive(v.k);
    LockFacts(v.k);
    PlainLine(st.c, st.bounds, r, v.bytes);
    var o := Cycle(Script(st.c), Context(r, st.bounds.base, st.bounds.limite), v.bytes);
    var regs := v.regs[x := o.context.regs];
    TotalChanges(Writes, live, v.regs, live, regs, st, st.tids, x.tid, if r.pc == 8 then 1 else 0);
    TotalChanges(Instructions, live, v.regs, live, regs, st, st.tids, x.tid, 1);
    if r.pc == 8 {
      ReadAfterWrite(v.bytes, Shared(st), r.dx);
      Increment(st.start, writes);
      LiveIsActive(v.k, x);
      assert Placed(LockOf(v.k).value, r, x, ReadWord(v.bytes, Shared(st)));
    }
    OrderlyAfterPlain(st, live, LockOf(v.k).value, v.regs, x, o.context.regs, ReadWord(v.bytes, Shared(st)),
                      ReadWord(o.mem, Shared(st)));
  }

  lemma Increment(start: u32, writes: nat)
    ensures ((start + writes) % 0x1_0000_0000 + 1) % 0x1_0000_0000 == (start + (writes + 1)) % 0x1_0000_0000
  {
  }

  lemma {:induction false} OrderlyAfterPlain(st: Setting, live: multiset<K.ThreadId>, m: K.Mutex, regs: RegisterFile,
                                             x: K.ThreadId, r: Registers, word: u32, word': u32)
    requires Orderly(st, live, m, regs, word) && x in live && In(Members(st), x)
    requires x !in m.waiters && AtLine(r, st.c) && Inside(r) == Inside(regs[x])
    requires if regs[x].pc == 8 then r.pc == 9 && word' == regs[x].dx else word' == word
    requires regs[x].pc == 6 ==> r.pc == 7 && r.dx == word
    requires regs[x].pc == 7 ==> r.pc == 8 && r.dx == (regs[x].dx + 1) % 0x1_0000_0000
    requires r.pc == 7 || r.pc == 8 ==> regs[x].pc == 6 || regs[x].pc == 7
    ensures Orderly(st, live, m, regs[x := r], word')
  {
    hide AtLine;
    assert Placed(m, regs[x], x, word);
    forall y | y in live && In(Members(st), y)
      ensures y in regs[x := r] && AtLine(regs[x := r][y], st.c) && Placed(m, regs[x := r][y], y, word')
    {
      assert Placed(m, regs[y], y, word);
    }
  }

  lemma {:induction false} NamedUpdate(mutexes: seq<K.Mutex>, m: K.Mutex)
    requires Named(mutexes).Some? && m.name == MUTEX
    ensures Named(mutexes[K.FindMutex(mutexes, MUTEX) := m]) == Some(m)
  {
    var i := K.FindMutex(mutexes, MUTEX);
    var after := mutexes[i := m];
    assert after[i].name == MUTEX;
    assert forall j :: 0 <= j < i ==> after[j] == mutexes[j];
  }

  function Queueing(m: K.Mutex, x: K.ThreadId): K.Mutex {
    if m.taken then m.(waiters := m.waiters + [x], blockedCount := m.blockedCount + 1)
    else m.(taken := true, tid := x.tid)
  }

  /** MUTEX_LOCK: the mutex is taken, or the thread joins the queue and blocks. */
  lemma {:induction false} LockEffect(k: K.State, x: K.ThreadId)
    requires LockOf(k).Some? && k.running.Some? && k.running.value.id == x && x.pid == LockOf(k).value.pid
    requires !K.HeldBy(LockOf(k).value, x.tid)
    ensures K.Enabled(k, K.LockMutex(MUTEX))
    ensures var t := K.Apply(k, K.LockMutex(MUTEX)); var m := LockOf(k).value;
      && t.exited == k.exited && t.active == k.active
      && LockOf(t) == Some(Queueing(m, x))
      && (forall y :: y in Ids(t.blocked) ==> y in Ids(k.blocked) || (m.taken && y == x))
  {
    hide K.FindMutex, Ids;
    NamedUpdate(k.mutexes, Queueing(LockOf(k).value, x));
    BlocksOne(k.blocked, k.running.value);
  }

  /** MUTEX_UNLOCK by the holder: the first waiter becomes the holder, or the mutex is free. */
  lemma {:induction false} UnlockEffect(k: K.State, x: K.ThreadId)
    requires Inv(k) && LockOf(k).Some? && k.running.Some? && k.running.value.id == x && K.HeldBy(LockOf(k).value, x.tid)
    ensures K.Enabled(k, K.UnlockMutex(MUTEX))
    ensures var t := K.Apply(k, K.UnlockMutex(MUTEX)); var m := LockOf(k).value;
      && t.exited == k.exited && t.active == k.active
      && LockOf(t) == Some(Released(m))
      && (forall y :: y in Ids(t.blocked) ==> y in Ids(k.blocked) && (m.waiters != [] ==> y != m.waiters[0]))
  {
    hide K.FindMutex, K.Find, Ids, Inv, K.WakeAndPost;
    var m := LockOf(k).value;
    NamedUpdate(k.mutexes, Released(m));
    if m.waiters != [] {
      LockFacts(k);
      WokenLeaves(k, m.waiters[0]);
    }
  }

  /** Waking takes the thread out of BLOCKED, and nobody else. */
  lemma {:induction false} WokenLeaves(k: K.State, x: K.ThreadId)
    requires Inv(k) && x in Ids(k.blocked)
    ensures forall y :: y in Ids(K.WakeAndPost(k, x).blocked) ==> y in Ids(k.blocked) && y != x
    ensures SameElsewhere(k, K.WakeAndPost(k, x))
  {
    hide Inv, Ids, Live, LivePids, K.WakeAndPost;
    assert x in multiset(Ids(k.blocked));
    WakeMovesOne(k, x);
    BlockedOnce(k, x);
    forall y | y in Ids(K.WakeAndPost(k, x).blocked) ensures y in Ids(k.blocked) && y != x {
      assert y in multiset(Ids(K.WakeAndPost(k, x).blocked));
      assert y in multiset(Ids(k.blocked));
    }
  }

  lemma BlockedOnce(k: K.State, x: K.ThreadId)
    requires Inv(k)
    ensures multiset(Ids(k.blocked))[x] <= 1
  {
    hide JoinsOk, MutexesOk, Counted, PendingOk, KernelInvariant.Waiting;
    assert Live(k)[x] <= 1;
  }

  /** THREAD_EXIT by a thread that does not hold the mutex leaves it as it is. */
  lemma {:induction false} ExitEffect(k: K.State, x: K.ThreadId)
    requires Inv(k) && LockOf(k).Some? && k.running.Some? && k.running.value.id == x
    requires !K.HeldBy(LockOf(k).value, x.tid)
    ensures K.Enabled(k, K.Step.ExitThread)
    ensures var t := K.Apply(k, K.Step.ExitThread);
      && LockOf(t) == LockOf(k) && t.exited == k.exited + [k.running.value]
      && (forall y :: y in Ids(t.blocked) ==> y in Ids(k.blocked) || y == x)
  {
    hide Inv, LockOf, K.DoExitThread, Ids;
    LockFrame(k, K.Step.ExitThread);
    BlockedBy(k, K.Step.ExitThread);
    ExitThreadKeeps(k);
  }

  /** What a syscall line leaves of the registers. */
  function Moved(v: Threads, x: K.ThreadId): Threads
    requires x in v.regs && v.regs[x].pc <= 11
  {
    v.(regs := v.regs[x := v.regs[x].(pc := v.regs[x].pc + 1)])
  }

  lemma {:induction false} LockKeepsOrder(st: Setting, live: multiset<K.ThreadId>, m: K.Mutex, regs: RegisterFile,
                                          word: u32, x: K.ThreadId)
    requires Orderly(st, live, m, regs, word) && x in live && In(Members(st), x) && regs[x].pc == 5
    ensures Orderly(st, live, Queueing(m, x), regs[x := regs[x].(pc := 6)], word)
  {
    var regs' := regs[x := regs[x].(pc := 6)];
    assert Placed(m, regs[x], x, word);
    forall y | y in live && In(Members(st), y)
      ensures y in regs' && AtLine(regs'[y], st.c) && Placed(Queueing(m, x), regs'[y], y, word)
    {
      assert Placed(m, regs[y], y, word);
    }
  }

  lemma {:induction false} UnlockKeepsOrder(st: Setting, live: multiset<K.ThreadId>, m: K.Mutex, regs: RegisterFile,
                                            word: u32, x: K.ThreadId)
    requires Orderly(st, live, m, regs, word) && x in live && In(Members(st), x) && regs[x].pc == 9
    requires x !in m.waiters && K.HeldBy(m, x.tid)
    requires forall y :: y in m.waiters ==> y in live && In(Members(st), y)
    requires m.waiters != [] ==> m.waiters[0] !in m.waiters[1..]
    ensures Orderly(st, live, Released(m), regs[x := regs[x].(pc := 10)], word)
  {
    var regs' := regs[x := regs[x].(pc := 10)];
    assert Placed(m, regs[x], x, word);
    forall y | y in live && In(Members(st), y)
      ensures y in regs' && AtLine(regs'[y], st.c) && Placed(Released(m), regs'[y], y, word)
    {
      assert Placed(m, regs[y], y, word);
      if m.waiters != [] {
        assert m.waiters == [m.waiters[0]] + m.waiters[1..];
        assert Placed(m, regs[m.waiters[0]], m.waiters[0], word);
      }
    }
  }

  /** Locking and unlocking: the same threads live, and one more instruction counts. */
  lemma {:induction false} StaysAlive(st: Setting, v: Threads, x: K.ThreadId, writes: nat, steps: nat)
    requires Fine(st, v, writes, steps) && x in Live(v.k) && In(Members(st), x) && x in v.regs
    requires v.regs[x].pc == 5 || v.regs[x].pc == 9
    requires var call := CallAt(v.regs[x].pc); K.Enabled(v.k, call) && K.Apply(v.k, call).exited == v.k.exited
    ensures var t := K.Apply(v.k, CallAt(v.regs[x].pc)); var regs := Moved(v, x).regs;
      && Inv(t) && Live(t) == Live(v.k) && Away(st.pid, t)
      && Tally(Writes, st, t, regs) == writes
      && Tally(Instructions, st, t, regs) == steps + 1
      && Tally(Heads, st, t, regs) == Tally(Heads, st, v.k, v.regs)
  {
    hide Inv, Live, Total, Past, ReadWord, K.Enabled, K.Apply, Created, Orderly, LockOf, Fits, HomeOf, Settled,
      Queued, TeamOnly, Away;
    var call := CallAt(v.regs[x].pc);
    SteadyStep(v.k, call);
    StaysAway(st.pid, v.k, call);
    var live, regs := Live(v.k), Moved(v, x).regs;
    TotalChanges(Writes, live, v.regs, live, regs, st, st.tids, x.tid, 0);
    TotalChanges(Instructions, live, v.regs, live, regs, st, st.tids, x.tid, 1);
    TotalChanges(Heads, live, v.regs, live, regs, st, st.tids, x.tid, 0);
  }

  /** THREAD_EXIT: one member fewer lives, and it counts as finished. */
  lemma {:induction false} Leaves(st: Setting, v: Threads, x: K.ThreadId, writes: nat, steps: nat)
    requires Fine(st, v, writes, steps) && v.k.running.Some? && v.k.running.value.id == x && In(Members(st), x)
    requires x in v.regs && v.regs[x].pc == 11 && AtLine(v.regs[x], st.c) && K.Enabled(v.k, K.Step.ExitThread)
    requires K.Apply(v.k, K.Step.ExitThread).exited == v.k.exited + [v.k.running.value]
    ensures var t := K.Apply(v.k, K.Step.ExitThread); var regs := Moved(v, x).regs;
      && Inv(t) && Away(st.pid, t) && x !in Live(t)
      && Orderly(st, Live(t), LockOf(v.k).value, regs, ReadWord(v.bytes, Shared(st)))
      && Tally(Writes, st, t, regs) == writes
      && Tally(Instructions, st, t, regs) == steps + 1
      && Tally(Heads, st, t, regs) == Tally(Heads, st, v.k, v.regs) - 1
      && Finished(st, t.exited) == Finished(st, v.k.exited) + 1
  {
    hide Inv, Live, Total, Past, Finished, ReadWord, K.Enabled, K.Apply, LockOf, Fits, HomeOf, Settled, Queued,
      TeamOnly, Away;
    var t := K.Apply(v.k, K.Step.ExitThread);
    RunningIsLive(v.k);
    LiveAfter(v.k, K.Step.ExitThread);
    StaysAway(st.pid, v.k, K.Step.ExitThread);
    LiveOnce(v.k, x);
    var regs := Moved(v, x).regs;
    TotalChanges(Writes, Live(v.k), v.regs, Live(t), regs, st, st.tids, x.tid, -Final(Writes, st.c));
    TotalChanges(Instructions, Live(v.k), v.regs, Live(t), regs, st, st.tids, x.tid, 1 - Final(Instructions, st.c));
    TotalChanges(Heads, Live(v.k), v.regs, Live(t), regs, st, st.tids, x.tid, -1);
    PastAppend(Writes, st, v.k.exited, v.k.running.value);
    PastAppend(Instructions, st, v.k.exited, v.k.running.value);
    PastAppend(Heads, st, v.k.exited, v.k.running.value);
  }

  lemma PlaceOfCall(m: K.Mutex, r: Registers, x: K.ThreadId, word: u32)
    requires Placed(m, r, x, word) && IsCall(r.pc) && x !in m.waiters
    ensures K.HeldBy(m, x.tid) <==> r.pc == 9
  {
  }

  /** A member makes one of the script's three syscalls. */
  lemma {:induction false} CallKeeps(st: Setting, v: Threads, writes: nat, steps: nat)
    requires Fine(st, v, writes, steps) && v.k.running.Some? && In(Members(st), v.k.running.value.id)
    requires v.k.running.value.id in v.regs && IsCall(v.regs[v.k.running.value.id].pc)
    ensures var x := v.k.running.value.id; var call := CallAt(v.regs[x].pc);
      && K.Enabled(v.k, call)
      && Fine(st, Moved(v, x).(k := K.Apply(v.k, call)), writes, steps + 1)
  {
    hide Inv, Live, Tally, ReadWord, K.Enabled, K.Apply, Inside, AtLine, LockOf, HomeOf, Settled, Ids, Released, Away;
    var x := v.k.running.value.id;
    var live, m := Live(v.k), LockOf(v.k).value;
    RunningIsLive(v.k);
    LockFacts(v.k);
    var word := ReadWord(v.bytes, Shared(st));
    assert Placed(m, v.regs[x], x, word) && AtLine(v.regs[x], st.c);
    PlaceOfCall(m, v.regs[x], x, word);
    var call := CallAt(v.regs[x].pc);
    if v.regs[x].pc == 5 {
      LockEffect(v.k, x);
      LockKeepsOrder(st, live, m, v.regs, word, x);
      StaysAlive(st, v, x, writes, steps);
    } else if v.regs[x].pc == 9 {
      UnlockEffect(v.k, x);
      UnlockKeepsOrder(st, live, m, v.regs, word, x);
      StaysAlive(st, v, x, writes, steps);
      ReleasedStaysTeam(st, m);
    } else {
      ExitEffect(v.k, x);
      Leaves(st, v, x, writes, steps);
      ActiveAfter(v.k, call);
      ExitedNotBlocked(v.k, x);
    }
  }

  lemma ReleasedStaysTeam(st: Setting, m: K.Mutex)
    requires TeamOnly(st, m)
    ensures TeamOnly(st, Released(m))
    ensures forall x :: x in m.waiters && (m.waiters != [] ==> x != m.waiters[0]) ==> x in Released(m).waiters
  {
  }

  lemma BlockedIsLive(k: K.State, x: K.ThreadId)
    requires x in Ids(k.blocked)
    ensures x in Live(k)
  {
    assert x in multiset(Ids(k.blocked));
  }

  lemma ExitedNotBlocked(k: K.State, x: K.ThreadId)
    requires Inv(k) && k.running.Some? && k.running.value.id == x
    ensures x !in Ids(K.Apply(k, K.Step.ExitThread).blocked)
  {
    hide Inv, Live, K.DoExitThread, Ids;
    ExitThreadKeeps(k);
    LiveOnce(k, x);
    if x in Ids(K.DoExitThread(k).blocked) {
      BlockedIsLive(K.DoExitThread(k), x);
      assert false;
    }
  }
}
