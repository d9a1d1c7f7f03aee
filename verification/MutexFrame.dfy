/** What the rest of the system leaves alone: a group of threads, the mutex they share, where their
    process lies and the word they share. */
module MutexFrame {
  import opened Lists
  import opened Words
  import opened Cpu
  import opened Contexts
  import opened KernelInvariant
  import opened KernelRuns
  import opened KernelHandoff
  import opened WholeSystem
  import opened MutexScript
  import K = KernelState
  import M = Memory

  /** Some threads of a process by TID, or all of them. */
  datatype Group = Team(pid: nat, tids: seq<nat>) | Process(pid: nat)

  predicate In(g: Group, x: K.ThreadId) {
    x.pid == g.pid && (g.Team? ==> x.tid in g.tids)
  }

  function Named(mutexes: seq<K.Mutex>): Option<K.Mutex> {
    var i := K.FindMutex(mutexes, MUTEX);
    if i == |mutexes| then None else Some(mutexes[i])
  }

  /** The mutex of the shipped script, once somebody has created it. */
  function LockOf(k: K.State): Option<K.Mutex> {
    Named(k.mutexes)
  }

  predicate HeldUnder(k: K.State, tid: nat) {
    LockOf(k).Some? && K.HeldBy(LockOf(k).value, tid)
  }

  // Good behaviour

  /** A call under that TID that leaves the mutex alone. */
  predicate Quiet(k: K.State, tid: nat, call: K.Step) {
    match call
    case LockMutex(n) => n != MUTEX
    case UnlockMutex(n) => n != MUTEX
    case CreateMutex(n) => n == MUTEX ==> LockOf(k).Some?
    case ExitThread => !HeldUnder(k, tid)
    case ExitProcess => !HeldUnder(k, tid)
    case SegmentationFault => !HeldUnder(k, tid)
    case _ => true
  }

  function HomeOf(m: M.State, pid: nat): Option<Bounds> {
    match M.Lookup(m.procs, pid)
    case None => None
    case Some(p) => Some(Bounds(p.base % 0x1_0000_0000, p.limite % 0x1_0000_0000))
  }

  predicate Misses(home: Option<Bounds>, q: nat) {
    home.Some? ==> q + 4 <= home.value.base + OFFSET || home.value.base + OFFSET + 4 <= q
  }

  /** Neither the mutex nor the shared word is touched; an access past LIMITE ends the process. */
  predicate Spares(k: K.State, home: Option<Bounds>, tid: nat, c: Context, i: Instr) {
    match i
    case ReadMem(_, addr) => Translate(c, Get(c.regs, addr)) == SEG_FAULT ==> !HeldUnder(k, tid)
    case WriteMem(addr, _) =>
      var q := Translate(c, Get(c.regs, addr));
      if q == SEG_FAULT then !HeldUnder(k, tid) else Misses(home, q)
    case Syscall(call) => Quiet(k, tid, call)
    case _ => true
  }

  /** If the thread about to execute is not of the group, its instruction is harmless. */
  predicate PoliteAt(program: Scripts, g: Group, k: K.State, home: Option<Bounds>, c: Context, a: Action) {
    a.Execute? && k.running.Some? && !In(g, k.running.value.id) ==>
      var script := program(k.running.value.id);
      c.regs.pc < |script| ==> Spares(k, home, k.running.value.id.tid, c, script[c.regs.pc])
  }

  predicate Polite(program: Scripts, g: Group, s: System, a: Action) {
    PoliteAt(program, g, s.k, HomeOf(s.m, g.pid), s.cpu, a)
  }

  predicate AllPolite(program: Scripts, g: Group, s: System, actions: seq<Action>)
    decreases |actions|
  {
    actions == [] ||
    (Polite(program, g, s, actions[0])
     && match Act(program, s, actions[0])
        case None => true
        case Some(t) => AllPolite(program, g, t, actions[1..]))
  }

  // The mutex

  lemma {:induction false} SameNamed(before: seq<K.Mutex>, after: seq<K.Mutex>)
    requires |before| <= |after|
    requires forall j :: 0 <= j < |before| ==> after[j].name == before[j].name
    requires forall j :: 0 <= j < |before| && before[j].name == MUTEX ==> after[j] == before[j]
    requires forall j :: |before| <= j < |after| ==> after[j].name != MUTEX
    ensures Named(after) == Named(before)
  {
    var i, l := K.FindMutex(before, MUTEX), K.FindMutex(after, MUTEX);
    if i < |before| {
      assert after[i].name == MUTEX;
      assert l <= i && before[l].name == after[l].name;
    } else {
      assert l == |after|;
    }
  }

  predicate Untouched(before: seq<K.Mutex>, after: seq<K.Mutex>) {
    && |before| <= |after|
    && (forall j :: 0 <= j < |before| ==>
          after[j].name == before[j].name && (before[j].name == MUTEX ==> after[j] == before[j]))
    && (forall j :: |before| <= j < |after| ==> after[j].name != MUTEX)
  }

  lemma NamesDiffer(k: K.State)
    requires Inv(k)
    ensures forall i, j :: 0 <= i < j < |k.mutexes| ==> k.mutexes[i].name != k.mutexes[j].name
  {
  }

  lemma {:induction false} OnlyOneNamed(k: K.State, j: nat)
    requires Inv(k) && j < |k.mutexes| && k.mutexes[j].name == MUTEX
    ensures K.FindMutex(k.mutexes, MUTEX) == j && LockOf(k) == Some(k.mutexes[j])
  {
    hide Core, Counted, PendingOk;
    NamesDiffer(k);
  }

  lemma {:induction false} ExitsSpare(k: K.State, t: K.State, tid: nat)
    requires Inv(k) && |t.mutexes| == |k.mutexes| && !HeldUnder(k, tid)
    requires forall j :: 0 <= j < |k.mutexes| ==>
      t.mutexes[j].name == k.mutexes[j].name && t.mutexes[j] == AfterExit(k.mutexes[j], tid)
    ensures Untouched(k.mutexes, t.mutexes)
  {
    hide Inv;
    forall j | 0 <= j < |k.mutexes| && k.mutexes[j].name == MUTEX ensures t.mutexes[j] == k.mutexes[j] {
      OnlyOneNamed(k, j);
    }
  }

  lemma {:induction false} UnlockSpares(k: K.State, n: string)
    requires Inv(k) && k.running.Some? && n != MUTEX && K.FindMutex(k.mutexes, n) < |k.mutexes|
    ensures Untouched(k.mutexes, K.Unlock(k, n, k.running.value.id.tid).mutexes)
  {
    hide Core, K.Release;
    var i := K.FindMutex(k.mutexes, n);
    if K.HeldBy(k.mutexes[i], k.running.value.id.tid) {
      ReleaseKeeps(k, i);
    }
  }

  lemma {:induction false} OtherSteps(k: K.State, step: K.Step)
    requires K.Enabled(k, step) && (k.running.Some? ==> Quiet(k, k.running.value.id.tid, step))
    requires !step.ExitThread? && !step.ExitProcess? && !step.SegmentationFault?
    requires !step.UnlockMutex? && !step.CancelThread?
    ensures Untouched(k.mutexes, K.Apply(k, step).mutexes)
  {
    hide K.Find, K.Pick, K.FreshTid, K.Awaited, K.Owns, K.Known;
  }

  lemma {:induction false} LockFrame(k: K.State, step: K.Step)
    requires Inv(k) && K.Enabled(k, step) && (k.running.Some? ==> Quiet(k, k.running.value.id.tid, step))
    ensures LockOf(K.Apply(k, step)) == LockOf(k)
  {
    hide Inv, K.FindMutex, K.DoExitThread, K.DoExitProcess, K.DoCancel, K.Unlock, K.FreshTid, K.Awaited, K.Owns,
      HeldUnder,
      Named, AfterExit;
    var t := K.Apply(k, step);
    if step.ExitThread? {
      ExitThreadMutexes(k);
      ExitsSpare(k, t, k.running.value.id.tid);
    } else if step.ExitProcess? || step.SegmentationFault? {
      ExitProcessMutexes(k);
      ExitsSpare(k, t, k.running.value.id.tid);
    } else if step.UnlockMutex? {
      UnlockSpares(k, step.name);
    } else if step.CancelThread? {
      CancelMutexes(k, step.tid);
    } else {
      OtherSteps(k, step);
    }
    SameNamed(k.mutexes, t.mutexes);
  }

  // Who is blocked

  predicate Shrinks(s: K.State, t: K.State) {
    forall y :: y in Ids(t.blocked) ==> y in Ids(s.blocked)
  }

  lemma {:induction false} WakeShrinks(s: K.State, x: K.ThreadId)
    ensures Shrinks(s, K.WakeAndPost(s, x))
  {
    var i := K.Find(s.blocked, x);
    hide K.Find;
    if i < |s.blocked| {
      var left := RemoveAt(s.blocked, i);
      forall y | y in Ids(left) ensures y in Ids(s.blocked) {
        var j :| 0 <= j < |left| && Ids(left)[j] == y;
        assert left[j] == s.blocked[if j < i then j else j + 1];
        assert Ids(s.blocked)[if j < i then j else j + 1] == y;
      }
    }
  }

  lemma {:induction false} JoinsShrink(s: K.State, i: nat, x: K.ThreadId)
    ensures Shrinks(s, K.UnlockJoinsFrom(s, i, x))
    decreases |s.joins| - i
  {
    hide K.WakeAndPost, Ids;
    if i < |s.joins| {
      if s.joins[i].blocking == x {
        WakeShrinks(s, s.joins[i].blocked);
        JoinsShrink(K.WakeJoiner(s, i), i, x);
      } else {
        JoinsShrink(s, i + 1, x);
      }
    }
  }

  lemma {:induction false} UnlockShrinks(s: K.State, name: string, tid: nat)
    ensures Shrinks(s, K.Unlock(s, name, tid)) && |K.Unlock(s, name, tid).mutexes| == |s.mutexes|
  {
    hide K.WakeAndPost, Ids;
    var i := K.FindMutex(s.mutexes, name);
    if i < |s.mutexes| && s.mutexes[i].waiters != [] {
      WakeShrinks(s, s.mutexes[i].waiters[0]);
    }
  }

  lemma {:induction false} ReleasesShrink(s: K.State, i: nat, tid: nat)
    requires i <= |s.mutexes|
    ensures Shrinks(s, K.ReleaseFrom(s, i, tid))
    decreases |s.mutexes| - i
  {
    hide K.Unlock, Ids;
    if i < |s.mutexes| {
      if K.HeldBy(s.mutexes[i], tid) {
        UnlockShrinks(s, s.mutexes[i].name, tid);
        ReleasesShrink(K.Unlock(s, s.mutexes[i].name, tid), i + 1, tid);
      } else {
        ReleasesShrink(s, i + 1, tid);
      }
    }
  }

  /** Only the running thread is ever added to BLOCKED. */
  lemma {:induction false} BlockedBy(k: K.State, step: K.Step)
    requires K.Enabled(k, step)
    ensures forall y :: y in Ids(K.Apply(k, step).blocked) ==>
      y in Ids(k.blocked) || (ByRunning(step) && k.running.Some? && y == k.running.value.id)
  {
    hide K.Find, K.Pick, K.FindMutex, K.FreshTid, K.Awaited, K.Owns, K.Known, Ids, K.UnlockJoinsFrom, K.ReleaseFrom,
      K.WakeAndPost,
      K.Unlock;
    match step
    case ExitThread =>
      var me := k.running.value;
      var counts := if me.id.pid in k.active then k.active[me.id.pid := K.Decremented(k.active[me.id.pid])]
                    else k.active;
      var r := k.(exited := k.exited + [me], active := counts);
      JoinsShrink(r, 0, me.id);
      ReleasesShrink(K.UnlockJoinsFrom(r, 0, me.id), 0, me.id.tid);
    case ExitProcess => ReleasesShrink(k.(exited := k.exited + [k.running.value]), 0, k.running.value.id.tid);
    case SegmentationFault => ReleasesShrink(k.(exited := k.exited + [k.running.value]), 0, k.running.value.id.tid);
    case CancelThread(tid) => JoinsShrink(k, 0, K.ThreadId(k.running.value.id.pid, tid));
    case UnlockMutex(name) => UnlockShrinks(k, name, k.running.value.id.tid);
    case CompleteIo => WakeShrinks(k.(ioQueue := k.ioQueue[1..], semIo := k.semIo - 1), k.ioQueue[0].id);
    case CompleteDump(i) => WakeShrinks(k, k.dumps[i]);
    case _ =>
      if k.running.Some? {
        BlocksOne(k.blocked, k.running.value);
      }
  }

  lemma BlocksOne(list: seq<K.Tcb>, t: K.Tcb)
    ensures forall y :: y in Ids(list + [t]) ==> y in Ids(list) || y == t.id
  {
    ListAppend(list, t);
  }

  // Kernel steps

  /** Steps the running thread makes on its own behalf and that may concern it. */
  predicate ByRunning(step: K.Step) {
    && !step.Dispatch? && !step.AdmitHead? && !step.CompleteIo? && !step.CompleteDump? && !step.Preempt?
    && !step.CreateProcess?
  }

  /** The process has its PID and is not waiting for admission. */
  predicate Away(pid: nat, k: K.State) {
    pid < k.nextPid && forall i :: 0 <= i < |k.pending| ==> k.pending[i].pid != pid
  }

  predicate ExitsElsewhere(g: Group, before: seq<K.Tcb>, after: seq<K.Tcb>) {
    && |before| <= |after| && after[..|before|] == before
    && forall i :: |before| <= i < |after| ==> !In(g, after[i].id)
  }

  /** The group's threads are where they were, as far as anybody else can tell. */
  ghost predicate KernelFrame(g: Group, k: K.State, t: K.State) {
    && Inv(t) && LockOf(t) == LockOf(k) && Away(g.pid, t)
    && (forall x :: In(g, x) ==> (x in Live(t) <==> x in Live(k)))
    && (forall x :: In(g, x) && x in Ids(t.blocked) ==> x in Ids(k.blocked))
    && ExitsElsewhere(g, k.exited, t.exited)
    && (g.pid in t.active ==> g.pid in k.active)
  }

  ghost predicate BornElsewhere(g: Group, k: K.State, step: K.Step)
    requires K.Enabled(k, step)
  {
    forall x :: x in Created(k, step) ==> !In(g, x)
  }

  lemma {:induction false} StepFrame(g: Group, k: K.State, step: K.Step)
    requires Inv(k) && Away(g.pid, k) && K.Enabled(k, step)
    requires k.running.Some? ==> Quiet(k, k.running.value.id.tid, step)
    requires ByRunning(step) && k.running.Some? ==> !In(g, k.running.value.id)
    requires BornElsewhere(g, k, step)
    ensures KernelFrame(g, k, K.Apply(k, step))
  {
    hide Inv, Live, K.Enabled, K.Apply, Created, Quiet, Ids, LockOf;
    var t := K.Apply(k, step);
    LiveAfter(k, step);
    LockFrame(k, step);
    BlockedBy(k, step);
    ExitedOnlyGrows(k, step);
    StaysAway(g.pid, k, step);
    ActiveAfter(k, step);
    if t.exited != k.exited {
      ExitIsByRunning(k, step);
      LiveOnce(k, k.running.value.id);
    }
  }

  lemma ExitIsByRunning(k: K.State, step: K.Step)
    requires Inv(k) && K.Enabled(k, step) && K.Apply(k, step).exited != k.exited
    ensures ByRunning(step) && k.running.Some?
  {
    hide Inv, K.Apply;
    ExitedOnlyGrows(k, step);
  }

  lemma StaysAway(pid: nat, k: K.State, step: K.Step)
    requires Inv(k) && K.Enabled(k, step) && Away(pid, k)
    ensures Away(pid, K.Apply(k, step)) && (step.AdmitHead? ==> k.pending[0].pid != pid)
  {
    hide Core, Counted, K.Find, K.Pick, K.FindMutex, K.FreshTid, K.Owns, K.Awaited, Live, LivePids, K.UnlockJoinsFrom,
      K.ReleaseFrom;
    match step
    case ExitThread =>
      var x := k.running.value.id;
      var counts := if x.pid in k.active then k.active[x.pid := K.Decremented(k.active[x.pid])] else k.active;
      var r := k.(exited := k.exited + [k.running.value], active := counts);
      CoreIgnoresExit(k, r);
      HandoverKeeps(r, x);
    case ExitProcess => ExitedPending(k);
    case SegmentationFault => ExitedPending(k);
    case CancelThread(tid) =>
      UnlockJoinsKeeps(k, 0, K.ThreadId(k.running.value.id.pid, tid));
    case _ =>
  }

  lemma ExitedPending(k: K.State)
    requires Inv(k) && k.running.Some?
    ensures K.DoExitProcess(k).pending == k.pending && K.DoExitProcess(k).nextPid == k.nextPid
  {
    hide Core, Live, LivePids, K.ReleaseFrom;
    var r := k.(exited := k.exited + [k.running.value]);
    CoreIgnoresExit(k, r);
    ReleaseFromKeeps(r, 0, k.running.value.id.tid);
  }

  // What other processes cannot change in this one's bookkeeping

  /** The thread count is the same and nobody's join has been forgotten. */
  predicate Counts(pid: nat, k: K.State, t: K.State) {
    && (pid in t.active <==> pid in k.active)
    && (pid in k.active ==> t.active[pid] == k.active[pid])
    && (forall j :: j in k.joins && j.blocked.pid == pid ==> j in t.joins)
  }

  lemma {:induction false} OtherJoinsKept(joins: seq<K.Join>, x: K.ThreadId, j: K.Join)
    requires j in joins && j.blocking != x
    ensures j in OtherJoins(joins, x)
  {
    if joins[0] != j {
      OtherJoinsKept(joins[1..], x, j);
    }
  }

  lemma {:induction false} StepCounts(pid: nat, k: K.State, step: K.Step)
    requires Inv(k) && Away(pid, k) && K.Enabled(k, step)
    requires ByRunning(step) && k.running.Some? ==> k.running.value.id.pid != pid
    ensures Counts(pid, k, K.Apply(k, step))
  {
    hide Inv, Away, K.FreshTid, K.Owns, K.Awaited, K.Findable, K.DoExitThread, K.DoExitProcess, K.DoCancel, Counts,
      K.FindMutex;
    match step
    case ExitThread => ExitThreadCounts(pid, k);
    case ExitProcess => ExitProcessCounts(pid, k);
    case SegmentationFault => ExitProcessCounts(pid, k);
    case CancelThread(tid) => CancelCounts(pid, k, tid);
    case _ => SimpleCounts(pid, k, step);
  }

  lemma {:induction false} SimpleCounts(pid: nat, k: K.State, step: K.Step)
    requires K.Enabled(k, step) && Away(pid, k)
    requires !step.ExitThread? && !step.ExitProcess? && !step.SegmentationFault? && !step.CancelThread?
    requires ByRunning(step) && k.running.Some? ==> k.running.value.id.pid != pid
    ensures Counts(pid, k, K.Apply(k, step))
  {
    hide K.Find, K.Pick, K.FindMutex, K.FreshTid, K.Owns, K.Awaited, K.Known, RemoveAt, K.Findable;
  }

  lemma OwnProcessJoins(k: K.State)
    requires Inv(k)
    ensures forall j :: j in k.joins ==> j.blocking.pid == j.blocked.pid
  {
    hide Counted, PendingOk, MutexesOk, AtMostOnce;
  }

  lemma JoinsAfterExit(k: K.State)
    requires Inv(k) && k.running.Some?
    ensures K.DoExitThread(k).joins == OtherJoins(k.joins, k.running.value.id)
  {
    hide Inv, K.DoExitThread, OtherJoins;
    ExitThreadEffect(k);
  }

  lemma {:induction false} ExitThreadCounts(pid: nat, k: K.State)
    requires Inv(k) && k.running.Some? && k.running.value.id.pid != pid
    ensures Counts(pid, k, K.DoExitThread(k))
  {
    hide Core, Counted, PendingOk, Live, LivePids, K.Handover, OtherJoins;
    var x := k.running.value.id;
    var counts := if x.pid in k.active then k.active[x.pid := K.Decremented(k.active[x.pid])] else k.active;
    var r := k.(exited := k.exited + [k.running.value], active := counts);
    CoreIgnoresExit(k, r);
    HandoverKeeps(r, x);
    JoinsAfterExit(k);
    OwnProcessJoins(k);
    forall j | j in k.joins && j.blocked.pid == pid ensures j in OtherJoins(k.joins, x) {
      OtherJoinsKept(k.joins, x, j);
    }
  }

  lemma {:induction false} ExitProcessCounts(pid: nat, k: K.State)
    requires Inv(k) && k.running.Some? && k.running.value.id.pid != pid
    ensures Counts(pid, k, K.DoExitProcess(k))
  {
    hide Core, Counted, PendingOk, Live, LivePids, K.ReleaseFrom;
    var r := k.(exited := k.exited + [k.running.value]);
    CoreIgnoresExit(k, r);
    ReleaseFromKeeps(r, 0, k.running.value.id.tid);
  }

  lemma {:induction false} CancelCounts(pid: nat, k: K.State, tid: nat)
    requires Inv(k) && k.running.Some? && k.running.value.id.pid != pid
    ensures Counts(pid, k, K.DoCancel(k, tid))
  {
    hide Core, Counted, PendingOk, Live, LivePids, K.UnlockJoinsFrom, OtherJoins, Joiners;
    var target := K.ThreadId(k.running.value.id.pid, tid);
    UnlockJoinsKeeps(k, 0, target);
    UnlockJoinsEffect(k, 0, target);
    assert k.joins[0..] == k.joins && k.joins[..0] + OtherJoins(k.joins, target) == OtherJoins(k.joins, target);
    OwnProcessJoins(k);
    forall j | j in k.joins && j.blocked.pid == pid ensures j in OtherJoins(k.joins, target) {
      OtherJoinsKept(k.joins, target, j);
    }
  }

  // Whole machine states

  /** The group's registers, its process's place and the shared word. */
  predicate DataFrame(g: Group, v: Threads, t: Threads) {
    && Settled(t.m)
    && (g.pid in t.k.active ==> HomeOf(t.m, g.pid) == HomeOf(v.m, g.pid))
    && (forall x :: In(g, x) && x in v.regs ==> x in t.regs && t.regs[x] == v.regs[x])
    && |t.bytes| == |v.bytes|
    && (g.pid in t.k.active ==> WordKept(HomeOf(v.m, g.pid), v.bytes, t.bytes))
  }

  predicate WordKept(home: Option<Bounds>, before: seq<byte>, after: seq<byte>) {
    |after| == |before| &&
    (home.Some? && home.value.base + OFFSET + 4 <= |before| ==>
       ReadWord(after, home.value.base + OFFSET) == ReadWord(before, home.value.base + OFFSET))
  }

  ghost predicate Frame(g: Group, v: Threads, t: Threads) {
    KernelFrame(g, v.k, t.k) && DataFrame(g, v, t)
  }

  lemma {:induction false} FrameTrans(g: Group, a: Threads, b: Threads, c: Threads)
    requires Frame(g, a, b) && Frame(g, b, c)
    ensures Frame(g, a, c)
  {
    hide Inv, Live, Ids, LockOf, HomeOf, ReadWord, Settled, In;
    forall x | In(g, x) && x in Ids(c.k.blocked) ensures x in Ids(a.k.blocked) {
      assert x in Ids(b.k.blocked);
    }
    forall i | |a.k.exited| <= i < |c.k.exited| ensures !In(g, c.k.exited[i].id) {
      if i < |b.k.exited| {
        assert c.k.exited[..|b.k.exited|][i] == b.k.exited[i];
      }
    }
    assert c.k.exited[..|a.k.exited|] == c.k.exited[..|b.k.exited|][..|a.k.exited|];
  }

  /** A kernel step with nothing else. */
  lemma {:induction false} StepAlone(g: Group, v: Threads, step: K.Step)
    requires Inv(v.k) && Away(g.pid, v.k) && K.Enabled(v.k, step) && Settled(v.m)
    requires v.k.running.Some? ==> Quiet(v.k, v.k.running.value.id.tid, step)
    requires ByRunning(step) && v.k.running.Some? ==> !In(g, v.k.running.value.id)
    requires BornElsewhere(g, v.k, step)
    ensures Frame(g, v, v.(k := K.Apply(v.k, step)))
  {
    hide Inv, K.Enabled, K.Apply, HomeOf, ReadWord, Settled, KernelFrame, Quiet, BornElsewhere;
    StepFrame(g, v.k, step);
  }

  // Admission

  lemma {:induction false} AdmittedElsewhere(g: Group, v: Threads)
    requires Inv(v.k) && Away(g.pid, v.k) && Settled(v.m) && AttemptThreads(v).0
    ensures v.k.pending != [] && K.Enabled(v.k, K.AdmitHead)
    ensures Frame(g, v, AttemptThreads(v).1) && Counts(g.pid, v.k, AttemptThreads(v).1.k)
    ensures AttemptThreads(v).1.k == K.Apply(v.k, K.AdmitHead)
    ensures |AttemptThreads(v).1.k.pending| < |v.k.pending|
  {
    hide Inv, M.TryCreate, M.Lookup, Settled, KernelFrame, Counts;
    var head := v.k.pending[0];
    assert |K.DoAdmitHead(v.k).pending| < |v.k.pending|;
    hide K.DoAdmitHead;
    StepFrame(g, v.k, K.AdmitHead);
    StepCounts(g.pid, v.k, K.AdmitHead);
    EventOnOther(v.m, M.Create(head.pid, head.size), g.pid);
  }

  lemma {:induction false} AdmitFrame(g: Group, v: Threads)
    requires Inv(v.k) && Away(g.pid, v.k) && Settled(v.m)
    ensures Frame(g, v, AdmitThreads(v)) && Counts(g.pid, v.k, AdmitThreads(v).k)
    decreases |v.k.pending|
  {
    hide Inv, Settled, Frame, Counts, K.DoAdmitHead, M.TryCreate;
    if AttemptThreads(v).0 {
      var t := AttemptThreads(v).1;
      AdmittedElsewhere(g, v);
      FrameParts(g, v, t);
      AdmitFrame(g, t);
      FrameTrans(g, v, t, AdmitThreads(v));
      CountsTrans(g.pid, v.k, t.k, AdmitThreads(v).k);
    } else {
      NotAdmitted(v);
      FrameSelf(g, v);
    }
  }

  lemma NotAdmitted(v: Threads)
    requires Inv(v.k) && !AttemptThreads(v).0
    ensures AttemptThreads(v).1 == v
  {
    hide Core, Counted;
    WaitingUnknown(v.k);
  }

  lemma FrameParts(g: Group, v: Threads, t: Threads)
    requires Frame(g, v, t)
    ensures Inv(t.k) && Away(g.pid, t.k) && Settled(t.m)
  {
  }

  lemma FrameSelf(g: Group, v: Threads)
    requires Inv(v.k) && Away(g.pid, v.k) && Settled(v.m)
    ensures Frame(g, v, v) && Counts(g.pid, v.k, v.k)
  {
    hide Inv, Live, Ids, LockOf, HomeOf, ReadWord, Settled, In;
  }

  lemma CountsTrans(pid: nat, a: K.State, b: K.State, c: K.State)
    requires Counts(pid, a, b) && Counts(pid, b, c)
    ensures Counts(pid, a, c)
  {
  }

  // Calls of other threads

  /** The thread count and the joins of the group's process are safe from other processes. */
  predicate CountsUnlessOwn(g: Group, x: K.ThreadId, k: K.State, t: K.State) {
    x.pid != g.pid ==> Counts(g.pid, k, t)
  }

  lemma {:induction false} CallFrame(g: Group, v: Threads, call: K.Step)
    requires Inv(v.k) && Away(g.pid, v.k) && Settled(v.m) && v.k.running.Some? && K.Enabled(v.k, call)
    requires !In(g, v.k.running.value.id) && (IsSyscall(call) || call.SegmentationFault?)
    requires Quiet(v.k, v.k.running.value.id.tid, call) && BornElsewhere(g, v.k, call)
    ensures var t := ServeThreads(v, call).value;
      Frame(g, v, t) && CountsUnlessOwn(g, v.k.running.value.id, v.k, t.k)
  {
    hide Inv, K.Enabled, K.Apply, Settled, Frame, Quiet, Counts, AdmitThreads, M.Delete, Created;
    var x := v.k.running.value.id;
    StepAlone(g, v, call);
    var t := v.(k := K.Apply(v.k, call));
    if x.pid != g.pid {
      StepCounts(g.pid, v.k, call);
    }
    FrameParts(g, v, t);
    if call.CreateProcess? {
      AdmitFrame(g, t);
      FrameTrans(g, v, t, AdmitThreads(t));
      TransUnlessOwn(g, x, v.k, t.k, AdmitThreads(t).k);
    } else if call.ExitProcess? || call.SegmentationFault? {
      EndFrame(g, v, call);
      var u := t.(m := M.Delete(v.m, x.pid));
      FrameParts(g, v, u);
      if call.ExitProcess? {
        AdmitFrame(g, u);
        FrameTrans(g, v, u, AdmitThreads(u));
        TransUnlessOwn(g, x, v.k, u.k, AdmitThreads(u).k);
      }
    } else if call.CreateThread? {
      BirthFrame(g, v, call);
    } else {
      assert ServeThreads(v, call) == Some(t);
    }
  }

  lemma TransUnlessOwn(g: Group, x: K.ThreadId, a: K.State, b: K.State, c: K.State)
    requires CountsUnlessOwn(g, x, a, b) && Counts(g.pid, b, c)
    ensures CountsUnlessOwn(g, x, a, c)
  {
    if x.pid != g.pid {
      CountsTrans(g.pid, a, b, c);
    }
  }

  lemma {:induction false} EndFrame(g: Group, v: Threads, call: K.Step)
    requires Inv(v.k) && Settled(v.m) && v.k.running.Some? && K.Enabled(v.k, call)
    requires call.ExitProcess? || call.SegmentationFault?
    requires Frame(g, v, v.(k := K.Apply(v.k, call)))
    ensures Frame(g, v, v.(k := K.Apply(v.k, call), m := M.Delete(v.m, v.k.running.value.id.pid)))
  {
    hide Inv, K.Enabled, K.Apply, Settled, KernelFrame, M.Delete, M.Lookup;
    ActiveAfter(v.k, call);
    var x := v.k.running.value.id;
    if x.pid != g.pid {
      EventOnOther(v.m, M.Destroy(x.pid), g.pid);
    } else {
      EventOnOther(v.m, M.Destroy(x.pid), x.pid + 1);
    }
  }

  lemma {:induction false} BirthFrame(g: Group, v: Threads, call: K.Step)
    requires v.k.running.Some? && K.Enabled(v.k, call) && call.CreateThread? && BornElsewhere(g, v.k, call)
    requires Frame(g, v, v.(k := K.Apply(v.k, call)))
    ensures Frame(g, v, ServeThreads(v, call).value)
  {
    hide Inv, K.Apply, Settled, KernelFrame, K.FreshTid;
    var born := K.ThreadId(v.k.running.value.id.pid, v.k.active[v.k.running.value.id.pid]);
    assert born in Created(v.k, call);
  }

  // Everything that is not one of the group's own instructions

  lemma {:induction false} WriteFrame(g: Group, v: Threads, x: K.ThreadId, r: Registers, q: nat, w: u32)
    requires Inv(v.k) && Away(g.pid, v.k) && Settled(v.m) && !In(g, x)
    requires q + 4 <= |v.bytes| && Misses(HomeOf(v.m, g.pid), q)
    ensures Frame(g, v, v.(regs := v.regs[x := r], bytes := WriteWord(v.bytes, q, w)))
  {
    hide Inv, KernelFrame, HomeOf, ReadWord, WriteWord, Settled, In;
    FrameSelf(g, v);
    var home := HomeOf(v.m, g.pid);
    if home.Some? && home.value.base + OFFSET + 4 <= |v.bytes| {
      ReadElsewhere(v.bytes, q, w, home.value.base + OFFSET);
    }
  }

  lemma {:induction false} RegsFrame(g: Group, v: Threads, x: K.ThreadId, r: Registers)
    requires Inv(v.k) && Away(g.pid, v.k) && Settled(v.m) && !In(g, x)
    ensures Frame(g, v, v.(regs := v.regs[x := r]))
  {
    hide Inv, KernelFrame, HomeOf, ReadWord, Settled, In;
    FrameSelf(g, v);
  }

  lemma SameAddress(c: Context, reg: Reg)
    ensures Get(Fetched(c).regs, reg) == Get(c.regs, reg)
    ensures Translate(Fetched(c), Get(c.regs, reg)) == Translate(c, Get(c.regs, reg))
  {
  }

  /** What an instruction does to the user memory. */
  lemma CycleWrites(script: seq<Instr>, c: Context, bytes: seq<byte>)
    ensures var o := Cycle(script, c, bytes);
      !o.Undefined? ==>
        c.regs.pc < |script|
        && var i := script[c.regs.pc];
           (o.Trap? ==> i == Syscall(o.call))
           && (o.SegFault? ==> (i.ReadMem? || i.WriteMem?) && Translate(c, Get(c.regs, i.addr)) == SEG_FAULT)
           && if o.Next? && i.WriteMem? then
                var q := Translate(c, Get(c.regs, i.addr));
                q != SEG_FAULT && q + 4 <= |bytes| && o.mem == WriteWord(bytes, q, Get(c.regs, i.src))
              else o.mem == bytes
  {
    hide WriteWord, ReadWord, Translate, Put, Get;
    if c.regs.pc < |script| && (script[c.regs.pc].ReadMem? || script[c.regs.pc].WriteMem?) {
      SameAddress(c, script[c.regs.pc].addr);
    }
    if c.regs.pc < |script| && script[c.regs.pc].WriteMem? {
      SameAddress(c, script[c.regs.pc].src);
    }
  }

  lemma SparedIsQuiet(k: K.State, home: Option<Bounds>, tid: nat, c: Context, i: Instr, o: Outcome)
    requires Spares(k, home, tid, c, i)
    requires o.Trap? ==> i == Syscall(o.call)
    requires o.SegFault? ==> (i.ReadMem? || i.WriteMem?) && Translate(c, Get(c.regs, i.addr)) == SEG_FAULT
    ensures o.Trap? ==> Quiet(k, tid, o.call)
    ensures o.SegFault? ==> Quiet(k, tid, K.SegmentationFault)
  {
    hide Translate, Get, HeldUnder, Misses;
  }

  /** Another thread's instruction, if it is polite and starts no thread of the group. */
  lemma {:induction false} ExecuteFrame(program: Scripts, g: Group, v: Threads)
    requires Inv(v.k) && Away(g.pid, v.k) && Settled(v.m) && v.k.running.Some? && !In(g, v.k.running.value.id)
    requires ActThreads(program, v, Execute).Some?
    requires var x := v.k.running.value.id;
      && PoliteAt(program, g, v.k, HomeOf(v.m, g.pid), Own(v, x), Execute)
      && var o := Cycle(program(x), Own(v, x), v.bytes);
         o.Trap? && o.call.CreateThread? && K.Enabled(v.k, o.call) ==> BornElsewhere(g, v.k, o.call)
    ensures var t := ActThreads(program, v, Execute).value;
      Frame(g, v, t) && CountsUnlessOwn(g, v.k.running.value.id, v.k, t.k)
  {
    hide Inv, K.Enabled, Settled, Frame, Quiet, Counts, Cycle, M.Lookup, IsSyscall, ServeThreads, HomeOf, Translate,
      WriteWord, Get,
      BornElsewhere, Misses, HeldUnder;
    var x := v.k.running.value.id;
    var c := Own(v, x);
    var o := Cycle(program(x), c, v.bytes);
    CycleWrites(program(x), c, v.bytes);
    FrameSelf(g, v);
    var i := program(x)[c.regs.pc];
    if o.Next? && i.WriteMem? {
      WriteFrame(g, v, x, o.context.regs, Translate(c, Get(c.regs, i.addr)), Get(c.regs, i.src));
    } else {
      RegsFrame(g, v, x, o.context.regs);
      var r := v.(regs := v.regs[x := o.context.regs]);
      if !o.Next? {
        var call := if o.Trap? then o.call else K.SegmentationFault;
        assert ActThreads(program, v, Execute) == ServeThreads(r, call);
        SparedIsQuiet(v.k, HomeOf(v.m, g.pid), x.tid, c, i, o);
        CalledFrame(g, v, r, call);
      }
    }
  }

  lemma {:induction false} CalledFrame(g: Group, v: Threads, r: Threads, call: K.Step)
    requires Inv(v.k) && Away(g.pid, v.k) && Settled(v.m) && v.k.running.Some? && !In(g, v.k.running.value.id)
    requires Frame(g, v, r) && r.k == v.k && r.m == v.m && ServeThreads(r, call).Some?
    requires IsSyscall(call) || call.SegmentationFault?
    requires Quiet(v.k, v.k.running.value.id.tid, call)
    requires call.CreateThread? && K.Enabled(v.k, call) ==> BornElsewhere(g, v.k, call)
    ensures var t := ServeThreads(r, call).value;
      Frame(g, v, t) && CountsUnlessOwn(g, v.k.running.value.id, v.k, t.k)
  {
    hide Inv, K.Enabled, Settled, Frame, Quiet, Counts, IsSyscall;
    assert K.Enabled(r.k, call) by {
      if !K.Enabled(r.k, call) {
        NotServed(r, call);
        assert false;
      }
    }
    if !call.CreateThread? {
      assert BornElsewhere(g, v.k, call) by { NobodyBorn(g, v.k, call); }
    }
    hide ServeThreads, BornElsewhere;
    CallFrame(g, r, call);
    FrameTrans(g, v, r, ServeThreads(r, call).value);
  }

  lemma NobodyBorn(g: Group, k: K.State, call: K.Step)
    requires K.Enabled(k, call) && !call.CreateThread? && (IsSyscall(call) || call.SegmentationFault?)
    ensures BornElsewhere(g, k, call)
  {
    hide K.Enabled;
  }

  /** Interruptions, decisions of the scheduler and completions, whoever they concern. */
  lemma {:induction false} KernelOwnFrame(program: Scripts, g: Group, v: Threads, a: Action)
    requires Inv(v.k) && Away(g.pid, v.k) && Settled(v.m) && !a.Execute?
    requires ActThreads(program, v, a).Some?
    ensures var t := ActThreads(program, v, a).value;
      Frame(g, v, t) && Counts(g.pid, v.k, t.k) && t.regs == v.regs && t.bytes == v.bytes && t.m == v.m
      && Live(t.k) == Live(v.k)
  {
    hide Inv, Live, K.DoPreempt, K.DoDispatch, K.DoCompleteIo, K.DoCompleteDump, Settled, Frame, Counts;
    var step := match a
      case Interrupt => K.Preempt
      case Schedule(policy) => K.Dispatch(policy)
      case IoDone => K.CompleteIo
      case DumpDone(i) => K.CompleteDump(i);
    assert K.Enabled(v.k, step);
    assert ActThreads(program, v, a).value == v.(k := K.Apply(v.k, step));
    assert Created(v.k, step) == multiset{};
    assert BornElsewhere(g, v.k, step);
    assert v.k.running.Some? ==> Quiet(v.k, v.k.running.value.id.tid, step);
    hide K.Apply, K.Enabled, Quiet, BornElsewhere, Created, ActThreads;
    StepAlone(g, v, step);
    StepCounts(g.pid, v.k, step);
    RunningAfter(v.k, step);
    SteadyStep(v.k, step);
  }
}
