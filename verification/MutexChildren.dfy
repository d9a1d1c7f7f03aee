/** The parent among its children: what their steps and its own keep true from the creation of the
    mutex to the end of the process. */
module MutexChildren {
  import opened Lists
  import opened Words
  import opened Cpu
  import opened Contexts
  import opened KernelInvariant
  import opened KernelRuns
  import opened KernelHandoff
  import opened WholeSystem
  import opened MutexScript
  import opened MutexFrame
  import opened MutexTeam
  import opened MutexProgram
  import opened MutexFamily
  import opened MutexParent
  import K = KernelState
  import M = Memory

  // While the parent runs

  /** A running thread is in no join record. */
  lemma {:induction false} RunningJoinsNobody(k: K.State)
    requires Inv(k) && k.running.Some?
    ensures forall j :: j in k.joins ==> j.blocked != k.running.value.id
  {
    hide Counted, PendingOk, JoinsOk, MutexesOk, MutexWaiters, IoWaiters;
    forall j | j in k.joins ensures j.blocked != k.running.value.id {
      var i :| 0 <= i < |k.joins| && k.joins[i] == j;
      assert JoinWaiters(k.joins)[i] == j.blocked;
      assert j.blocked in multiset(JoinWaiters(k.joins));
      assert j.blocked in KernelInvariant.Waiting(k);
      assert multiset(Ids(k.blocked))[j.blocked] >= 1;
      assert Live(k)[j.blocked] <= 1;
      assert multiset(RunningIds(k))[k.running.value.id] == 1;
    }
  }

  /** The children whose joins are over are gone. */
  lemma {:induction false} JoinedAreGone(f: Family, b: Bounds, v: Threads)
    requires ParentOk(f, b, v) && Inv(v.k) && v.k.running.Some? && v.k.running.value.id == Parent(f)
    ensures forall t :: 1 <= t <= f.k && 5 + f.k + t <= v.regs[Parent(f)].pc ==> K.ThreadId(f.pid, t) !in Live(v.k)
  {
    hide Inv, Live, Tally, Finished, AtLaterLines;
    RunningJoinsNobody(v.k);
    forall t | 1 <= t <= f.k && 5 + f.k + t <= v.regs[Parent(f)].pc ensures K.ThreadId(f.pid, t) !in Live(v.k) {
      assert JoinHolds(f, v.k, v.regs[Parent(f)].pc, t);
    }
  }

  /** With every join over the parent is the last thread, and all increments are in the word. */
  lemma {:induction false} ParentIsLast(f: Family, b: Bounds, v: Threads, writes: nat, steps: nat)
    requires Grown(f, b, v, writes, steps) && v.k.running.Some? && v.k.running.value.id == Parent(f)
    requires v.regs[Parent(f)].pc >= 5 + 2 * f.k
    ensures Finished(SettingOf(f, b), v.k.exited) == f.k && writes == f.k * f.c
    ensures v.k.active[f.pid] == 1
    ensures forall x :: x in Live(v.k) && x.pid == f.pid ==> x == Parent(f)
  {
    hide Inv, Live, Fine, Tally, Finished, Away, Settled, AtLaterLines, Members;
    var st := SettingOf(f, b);
    FineBasics(st, v, writes, steps);
    NobodyLeft(f, b, v);
    NoHeads(st, v.k, v.regs);
    Totals(st, v, writes, steps);
  }

  lemma {:induction false} NobodyLeft(f: Family, b: Bounds, v: Threads)
    requires ParentOk(f, b, v) && Inv(v.k) && v.k.running.Some? && v.k.running.value.id == Parent(f)
    requires v.regs[Parent(f)].pc >= 5 + 2 * f.k
    ensures forall x :: In(Members(SettingOf(f, b)), x) ==> x !in Live(v.k)
    ensures forall x :: x in Live(v.k) && x.pid == f.pid ==> x == Parent(f)
  {
    hide Inv, Live, Tally, Finished, AtLaterLines;
    JoinedAreGone(f, b, v);
    forall x: K.ThreadId | x.pid == f.pid && 1 <= x.tid <= f.k ensures x !in Live(v.k) {
      assert x == K.ThreadId(f.pid, x.tid);
    }
  }

  lemma {:induction false} NoHeads(st: Setting, k: K.State, regs: RegisterFile)
    requires forall x :: In(Members(st), x) ==> x !in Live(k)
    ensures Tally(Heads, st, k, regs) == 0
  {
    hide Live;
    forall t | t in st.tids ensures K.ThreadId(st.pid, t) !in Live(k) {
      assert In(Members(st), K.ThreadId(st.pid, t));
    }
    TotalOfNobody(Heads, Live(k), regs, st, st.tids);
    HeadsDoNotStay(st, k.exited);
  }

  lemma {:induction false} HeadsDoNotStay(st: Setting, exited: seq<K.Tcb>)
    ensures Past(Heads, st, exited) == 0
  {
    if exited != [] {
      HeadsDoNotStay(st, exited[..|exited| - 1]);
    }
  }

  lemma {:induction false} ParentContext(f: Family, b: Bounds, v: Threads, writes: nat, steps: nat)
    requires Grown(f, b, v, writes, steps)
    ensures M.Lookup(v.m.procs, f.pid).Some? && Fits(b, v.bytes)
    ensures Own(v, Parent(f)) == Context(v.regs[Parent(f)], b.base, b.limite)
    ensures Inv(v.k) && Away(f.pid, v.k) && Settled(v.m)
  {
    hide Inv, Live, LockOf, ReadWord, Settled, Tally, TeamOnly, Queued, M.FindProc, Away, Orderly;
  }

  /** None of the parent's later lines disturbs the team. */
  lemma {:induction false} ParentPolite(program: Scripts, f: Family, b: Bounds, v: Threads, writes: nat, steps: nat)
    requires Grown(f, b, v, writes, steps) && program(Parent(f)) == ParentScript(f)
    requires v.k.running.Some? && v.k.running.value.id == Parent(f) && M.Lookup(v.m.procs, f.pid).Some?
    ensures PoliteAt(program, Members(SettingOf(f, b)), v.k, HomeOf(v.m, f.pid), Own(v, Parent(f)), Execute)
  {
    hide Inv, Live, LockOf, HomeOf, ReadWord, Settled, Tally, Queued, M.Lookup, Away, Orderly, ParentScript,
      Translate, Own, Finished;
    ParentContext(f, b, v, writes, steps);
    var r := v.regs[Parent(f)];
    ParentLines(f, r.pc);
    Addressed(b, r, v.bytes);
  }

  lemma {:induction false} TallySame(st: Setting, k: K.State, regs: RegisterFile, t: K.State, regs': RegisterFile)
    requires Live(t) == Live(k) && t.exited == k.exited
    requires forall x :: In(Members(st), x) && x in Live(k) ==> x in regs && x in regs'
    ensures Tally(Heads, st, t, regs') == Tally(Heads, st, k, regs)
  {
    hide Live, Past;
    forall i | i in st.tids ensures Count(Heads, Live(k), regs, st, i) == Count(Heads, Live(t), regs', st, i) {
      assert In(Members(st), K.ThreadId(st.pid, i));
    }
    TotalSame(Heads, Live(k), regs, Live(t), regs', st, st.tids);
  }

  // What a child does

  /** The same threads live, and the parent has not moved. */
  lemma {:induction false} SameLife(f: Family, b: Bounds, v: Threads, t: Threads, writes: nat, steps: nat)
    requires Grown(f, b, v, writes, steps)
    requires Live(t.k) == Live(v.k) && t.k.exited == v.k.exited && t.k.active == v.k.active && t.k.joins == v.k.joins
    requires Parent(f) in t.regs && t.regs[Parent(f)] == v.regs[Parent(f)]
    requires forall x :: x in v.regs ==> x in t.regs
    ensures ParentOk(f, b, t)
  {
    hide Inv, Live, Fine, Tally, Finished, Members, AtLaterLines;
    MembersHaveRegs(SettingOf(f, b), v, writes, steps);
    TallySame(SettingOf(f, b), v.k, v.regs, t.k, t.regs);
    forall i | 1 <= i <= f.k ensures JoinHolds(f, t.k, t.regs[Parent(f)].pc, i) {
      assert JoinHolds(f, v.k, v.regs[Parent(f)].pc, i);
    }
  }

  lemma {:induction false} LockingKeepsJoins(k: K.State, call: K.Step)
    requires K.Enabled(k, call) && (call == K.LockMutex(MUTEX) || call == K.UnlockMutex(MUTEX))
    ensures K.Apply(k, call).joins == k.joins
  {
    hide K.Find, K.FindMutex, K.Awaited, K.Owns;
  }

  lemma {:induction false} ExitCounts(k: K.State)
    requires Inv(k) && k.running.Some?
    ensures var t := K.DoExitThread(k); var pid := k.running.value.id.pid;
      && pid in k.active && k.active[pid] > 0 && t.active == k.active[pid := k.active[pid] - 1]
      && t.joins == OtherJoins(k.joins, k.running.value.id)
  {
    hide Core, Counted, PendingOk, Live, LivePids, K.Handover, OtherJoins;
    RunningActive(k);
    var x := k.running.value.id;
    var r := k.(exited := k.exited + [k.running.value], active := k.active[x.pid := k.active[x.pid] - 1]);
    CoreIgnoresExit(k, r);
    HandoverKeeps(r, x);
    JoinsAfterExit(k);
  }

  lemma {:induction false} ChildLeaves(f: Family, b: Bounds, v: Threads, t: Threads, writes: nat, steps: nat)
    requires Grown(f, b, v, writes, steps) && MemberRuns(SettingOf(f, b), v.k)
    requires var x := v.k.running.value.id; x in v.regs && v.regs[x].pc == 11 && AtLine(v.regs[x], f.c)
    requires K.Enabled(v.k, K.Step.ExitThread)
    requires t == Moved(v, v.k.running.value.id).(k := K.Apply(v.k, K.Step.ExitThread))
    ensures ParentOk(f, b, t)
  {
    hide Inv, Fine, Live, Finished, Tally, AtLaterLines, K.DoExitThread, OtherJoins;
    var st := SettingOf(f, b);
    var x := v.k.running.value.id;
    FineBasics(st, v, writes, steps);
    ExitThreadKeeps(v.k);
    Leaves(st, v, x, writes, steps);
    ExitCounts(v.k);
    assert x != Parent(f);
    hide K.Apply, K.Enabled;
    LiveIsActive(t.k, Parent(f));
    forall i | 1 <= i <= f.k ensures JoinHolds(f, t.k, t.regs[Parent(f)].pc, i) {
      assert JoinHolds(f, v.k, v.regs[Parent(f)].pc, i);
      var y := K.ThreadId(f.pid, i);
      if y in Live(t.k) && K.Join(Parent(f), y) in v.k.joins {
        OtherJoinsKept(v.k.joins, x, K.Join(Parent(f), y));
      }
    }
  }

  /** What a member's turn amounts to. */
  lemma {:induction false} MemberEffect(program: Scripts, st: Setting, v: Threads, writes: nat, steps: nat)
    requires Fine(st, v, writes, steps) && MemberRuns(st, v.k) && RunScript(program, st)
    ensures var x := v.k.running.value.id; var t := ActThreads(program, v, Execute);
      && x in v.regs && AtLine(v.regs[x], st.c) && v.regs[x].pc <= 11 && t.Some?
      && if IsCall(v.regs[x].pc) then
           var call := CallAt(v.regs[x].pc);
           K.Enabled(v.k, call) && t.value == Moved(v, x).(k := K.Apply(v.k, call))
         else t.value.k == v.k && x in t.value.regs && t.value.regs == v.regs[x := t.value.regs[x]]
  {
    hide Fine, Cycle, Script, AtLine, K.Enabled, K.Apply, M.Lookup, Inv, Live, In;
    MemberContext(st, v, writes, steps);
    var x := v.k.running.value.id;
    assert program(x) == Script(st.c);
    Bounded(v.regs[x], st.c);
    if IsCall(v.regs[x].pc) {
      CallLine(st.c, st.bounds, v.regs[x], v.bytes);
      CallKeeps(st, v, writes, steps);
      CallsAreSyscalls(v.regs[x].pc);
      assert ActThreads(program, v, Execute) == Some(Moved(v, x).(k := K.Apply(v.k, CallAt(v.regs[x].pc))));
    } else {
      PlainKeeps(st, v, writes, steps);
    }
  }

  lemma {:induction false} ChildKeeps(program: Scripts, f: Family, b: Bounds, v: Threads, writes: nat, steps: nat)
    requires Grown(f, b, v, writes, steps) && MemberRuns(SettingOf(f, b), v.k) && RunScript(program, SettingOf(f, b))
    ensures ActThreads(program, v, Execute).Some?
    ensures var t := ActThreads(program, v, Execute).value;
      && Grown(f, b, t, writes + (if AtWrite(SettingOf(f, b), v) then 1 else 0), steps + 1)
      && Parent(f) in t.regs && t.regs[Parent(f)] == v.regs[Parent(f)]
      && (forall x :: x in Live(t.k) ==> x in Live(v.k))
  {
    hide Fine, K.Enabled, K.Apply, Inv, Live, ActThreads, RunScript, Tally, Finished, AtLine, AtLaterLines, ParentWaits;
    var st := SettingOf(f, b);
    var x := v.k.running.value.id;
    MemberEffect(program, st, v, writes, steps);
    MemberExecutes(program, st, v, writes, steps);
    var t := ActThreads(program, v, Execute).value;
    assert x != Parent(f);
    FineBasics(st, v, writes, steps);
    if IsCall(v.regs[x].pc) {
      CallsAreSyscalls(v.regs[x].pc);
      ChildCallFewer(v.k, CallAt(v.regs[x].pc));
      ChildWaits(f, v, t);
    } else {
      assert ParentWaits(f, t) by { WaitsSame(f, v, t); }
    }
    if !IsCall(v.regs[x].pc) {
      SameLife(f, b, v, t, writes, steps);
    } else if v.regs[x].pc == 11 {
      ChildLeaves(f, b, v, t, writes, steps);
    } else {
      ChildLocks(f, b, v, t, writes, steps);
    }
  }

  lemma WaitsSame(f: Family, v: Threads, t: Threads)
    requires ParentWaits(f, v) && t.k == v.k && Parent(f) in v.regs && Parent(f) in t.regs
    requires t.regs[Parent(f)] == v.regs[Parent(f)]
    ensures ParentWaits(f, t)
  {
    hide Ids;
  }

  /** Nobody is born of a member's calls. */
  lemma {:induction false} ChildCallFewer(k: K.State, call: K.Step)
    requires Inv(k) && K.Enabled(k, call) && IsSyscall(call)
    requires !call.CreateThread? && !call.CreateProcess? && !call.ExitProcess?
    ensures forall x :: x in Live(K.Apply(k, call)) ==> x in Live(k)
  {
    hide Inv, Live, K.Enabled, K.Apply, Created;
    LiveAfter(k, call);
    assert Created(k, call) == multiset{} by { OnlyCreationsCreate(k, call); }
  }

  /** A member's call leaves a blocked parent waiting, or wakes it. */
  lemma {:induction false} ChildWaits(f: Family, v: Threads, t: Threads)
    requires Inv(v.k) && ParentWaits(f, v) && v.k.running.Some? && v.k.running.value.id != Parent(f)
    requires var x := v.k.running.value.id;
      && x in v.regs && IsCall(v.regs[x].pc) && Parent(f) in v.regs && K.Enabled(v.k, CallAt(v.regs[x].pc))
      && v.regs[x].pc <= 11 && t == Moved(v, x).(k := K.Apply(v.k, CallAt(v.regs[x].pc)))
    ensures ParentWaits(f, t)
  {
    hide Inv, Ids, K.Enabled, K.Apply, OtherJoins;
    var x := v.k.running.value.id;
    var call := CallAt(v.regs[x].pc);
    BlockedBy(v.k, call);
    if Parent(f) in Ids(t.k.blocked) {
      var j := K.Join(Parent(f), K.ThreadId(f.pid, v.regs[Parent(f)].pc - 5 - f.k));
      assert j in v.k.joins;
      if v.regs[x].pc == 11 {
        JoinOutlives(v.k, j);
      } else {
        LockingKeepsJoins(v.k, call);
      }
    }
  }

  /** After THREAD_EXIT a thread that is still blocked has its join, if it had one. */
  lemma {:induction false} JoinOutlives(k: K.State, j: K.Join)
    requires Inv(k) && k.running.Some? && K.Enabled(k, K.Step.ExitThread) && j in k.joins
    requires j.blocked in Ids(K.Apply(k, K.Step.ExitThread).blocked)
    ensures j in K.Apply(k, K.Step.ExitThread).joins
  {
    hide Inv, Ids, K.DoExitThread, OtherJoins, Joiners, Heirs, Live;
    var x := k.running.value.id;
    ExitThreadEffect(k);
    if j.blocking == x {
      JoinerIn(k.joins, x, j);
      ExitThreadKeeps(k);
      assert j.blocked in Ids(K.DoExitThread(k).ready);
      ReadyNotBlocked(K.DoExitThread(k), j.blocked);
    } else {
      OtherJoinsKept(k.joins, x, j);
    }
  }

  lemma {:induction false} JoinerIn(joins: seq<K.Join>, x: K.ThreadId, j: K.Join)
    requires j in joins && j.blocking == x
    ensures j.blocked in Joiners(joins, x)
  {
    if joins[0] != j {
      JoinerIn(joins[1..], x, j);
    }
  }

  lemma {:induction false} ReadyNotBlocked(k: K.State, x: K.ThreadId)
    requires Inv(k) && x in Ids(k.ready)
    ensures x !in Ids(k.blocked)
  {
    hide Counted, PendingOk, JoinsOk, MutexesOk, KernelInvariant.Waiting, Ids;
    assert Live(k)[x] <= 1;
    assert x in multiset(Ids(k.ready));
  }

  lemma {:induction false} ChildLocks(f: Family, b: Bounds, v: Threads, t: Threads, writes: nat, steps: nat)
    requires Grown(f, b, v, writes, steps) && MemberRuns(SettingOf(f, b), v.k)
    requires var x := v.k.running.value.id; x in v.regs && (v.regs[x].pc == 5 || v.regs[x].pc == 9)
    requires K.Enabled(v.k, CallAt(v.regs[v.k.running.value.id].pc))
    requires t == Moved(v, v.k.running.value.id).(k := K.Apply(v.k, CallAt(v.regs[v.k.running.value.id].pc)))
    ensures ParentOk(f, b, t)
  {
    hide K.Enabled, K.Apply, Inv, Live, Tally, Finished, AtLine, AtLaterLines, LockOf, HomeOf, ReadWord, Settled,
      Queued, TeamOnly, Away,
      ParentOk, Ids, Released;
    var st := SettingOf(f, b);
    var x := v.k.running.value.id;
    RunningIsLive(v.k);
    LockFacts(v.k);
    assert Placed(LockOf(v.k).value, v.regs[x], x, ReadWord(v.bytes, Shared(st)));
    PlaceOfCall(LockOf(v.k).value, v.regs[x], x, ReadWord(v.bytes, Shared(st)));
    assert x.pid == LockOf(v.k).value.pid by { TeamPid(st, LockOf(v.k).value); }
    hide Placed, Orderly;
    if v.regs[x].pc == 5 {
      LockEffect(v.k, x);
    } else {
      UnlockEffect(v.k, x);
    }
    StaysAlive(st, v, x, writes, steps);
    LockingKeepsJoins(v.k, CallAt(v.regs[x].pc));
    assert x != Parent(f);
    hide Fine;
    SameLife(f, b, v, t, writes, steps) by { assert Parent(f) in v.regs by { ParentHasRegs(f, b, v); } }
  }

  lemma TeamPid(st: Setting, m: K.Mutex)
    requires TeamOnly(st, m)
    ensures m.pid == st.pid
  {
  }

  lemma ParentHasRegs(f: Family, b: Bounds, v: Threads)
    requires ParentOk(f, b, v)
    ensures Parent(f) in v.regs
  {
  }

  // The parent's own lines

  lemma {:induction false} CreationEnabled(program: Scripts, f: Family, b: Bounds, v: Threads, writes: nat, steps: nat)
    requires Grown(f, b, v, writes, steps) && program(Parent(f)) == ParentScript(f)
    requires v.k.running.Some? && v.k.running.value.id == Parent(f) && v.regs[Parent(f)].pc < 5 + f.k
    requires ActThreads(program, v, Execute).Some?
    ensures K.Enabled(v.k, K.CreateThread(f.priority))
  {
    hide Fine, K.Enabled, Inv, Live, ActThreads, Tally, Finished, ParentScript, M.Lookup, Own, Away, Settled,
      ServeThreads;
    ParentContext(f, b, v, writes, steps);
    var pc := v.regs[Parent(f)].pc;
    ParentCalls(program, f, v, Own(v, Parent(f)), K.CreateThread(f.priority));
    var r := v.(regs := v.regs[Parent(f) := v.regs[Parent(f)].(pc := pc + 1)]);
    if !K.Enabled(r.k, K.CreateThread(f.priority)) {
      NotServed(r, K.CreateThread(f.priority));
    }
  }

  /** THREAD_CREATE: one more child. */
  lemma {:induction false} ParentCreates(program: Scripts, f: Family, b: Bounds, v: Threads, writes: nat, steps: nat)
    requires Grown(f, b, v, writes, steps) && program(Parent(f)) == ParentScript(f)
    requires v.k.running.Some? && v.k.running.value.id == Parent(f) && v.regs[Parent(f)].pc < 5 + f.k
    requires K.Enabled(v.k, K.CreateThread(f.priority))
    ensures ActThreads(program, v, Execute).Some?
    ensures var t := ActThreads(program, v, Execute).value;
      && Grown(f, b, t, writes, steps) && t.k.running == v.k.running
      && t.regs[Parent(f)].pc == v.regs[Parent(f)].pc + 1
      && f.pid in t.k.active && t.k.active[f.pid] == v.k.active[f.pid] + 1
      && Live(t.k) == Live(v.k) + multiset{K.ThreadId(f.pid, v.k.active[f.pid])}
  {
    hide Fine, K.Enabled, K.Apply, Inv, Live, ActThreads, Tally, Finished, ParentScript, M.Lookup, Own, Away, Settled,
      ServeThreads, ParentWaits;
    var st, x, call := SettingOf(f, b), Parent(f), K.CreateThread(f.priority);
    ParentContext(f, b, v, writes, steps);
    var pc := v.regs[x].pc;
    ParentCalls(program, f, v, Own(v, x), call);
    var r := v.(regs := v.regs[x := v.regs[x].(pc := pc + 1)]);
    assert !In(Members(st), x);
    RegsFrame(Members(st), v, x, v.regs[x].(pc := pc + 1));
    FineFrame(st, v, r, writes, steps);
    MembersHaveRegs(st, v, writes, steps);
    FrameTally(Heads, st, v, r);
    ChildIsBorn(f, b, v, r, writes, steps);
    var t := ServeThreads(r, call).value;
    FineBasics(st, t, writes, steps);
    assert ParentWaits(f, t) by { RunningWaits(f, t); }
  }

  lemma RunningWaits(f: Family, t: Threads)
    requires Inv(t.k) && t.k.running.Some? && t.k.running.value.id == Parent(f)
    ensures ParentWaits(f, t)
  {
    RunningNotBlocked(t.k);
  }

  lemma {:induction false} ChildIsBorn(f: Family, b: Bounds, v: Threads, r: Threads, writes: nat, steps: nat)
    requires ParentOk(f, b, v) && Fine(SettingOf(f, b), r, writes, steps)
    requires v.k.running.Some? && v.k.running.value.id == Parent(f) && v.regs[Parent(f)].pc < 5 + f.k
    requires r == v.(regs := v.regs[Parent(f) := v.regs[Parent(f)].(pc := v.regs[Parent(f)].pc + 1)])
    requires Tally(Heads, SettingOf(f, b), r.k, r.regs) == Tally(Heads, SettingOf(f, b), v.k, v.regs)
    requires K.Enabled(v.k, K.CreateThread(f.priority))
    ensures ServeThreads(r, K.CreateThread(f.priority)).Some?
    ensures var t := ServeThreads(r, K.CreateThread(f.priority)).value;
      && Fine(SettingOf(f, b), t, writes, steps) && ParentOk(f, b, t)
      && t.k.running == v.k.running && t.regs[Parent(f)] == r.regs[Parent(f)]
      && f.pid in t.k.active && t.k.active[f.pid] == v.k.active[f.pid] + 1
      && Live(t.k) == Live(v.k) + multiset{K.ThreadId(f.pid, v.k.active[f.pid])}
  {
    hide Fine, K.Enabled, Inv, Live, Tally, Finished, K.FreshTid;
    var st, x, call := SettingOf(f, b), Parent(f), K.CreateThread(f.priority);
    FineBasics(st, r, writes, steps);
    NewThread(r.k, call);
    LiveAfter(r.k, call);
    var born := K.ThreadId(f.pid, v.k.active[f.pid]);
    assert born.tid != 0;
    assert born.tid <= f.k by { ChildTid(f, b, v); }
    assert In(Members(st), born);
    BirthKeeps(st, r, call, writes, steps);
    var t := ServeThreads(r, call).value;
    assert t.k.active == v.k.active[f.pid := v.k.active[f.pid] + 1] && t.k.joins == v.k.joins
      && t.k.running == v.k.running;
    assert Tally(Heads, st, t.k, t.regs) == Tally(Heads, st, r.k, r.regs) + Score(Heads, Fresh, st.c);
    hide K.Apply;
  }

  lemma {:induction false} ChildTid(f: Family, b: Bounds, v: Threads)
    requires ParentOk(f, b, v) && v.regs[Parent(f)].pc < 5 + f.k
    ensures v.k.active[f.pid] <= f.k
  {
    hide Live, Tally, Finished;
  }

  /** THREAD_JOIN: the child is gone, or the parent waits for it. */
  lemma {:induction false} JoinLine(f: Family, b: Bounds, v: Threads, k: K.State, r: Registers, i: nat)
    requires ParentOk(f, b, v) && Inv(v.k) && v.k.running.Some? && v.k.running.value.id == Parent(f)
    requires 1 <= i <= f.k && v.regs[Parent(f)].pc == 4 + f.k + i && r == v.regs[Parent(f)].(pc := 5 + f.k + i)
    requires k == K.DoJoin(v.k, i)
    requires forall x :: In(Members(SettingOf(f, b)), x) && x in Live(v.k) ==> x in v.regs
    ensures ParentOk(f, b, v.(k := k, regs := v.regs[Parent(f) := r]))
  {
    hide Inv, Live, Tally, Finished, K.Has, Members;
    JoinKeeps(v.k, i);
    JoinedAreGone(f, b, v);
    var st := SettingOf(f, b);
    var regs := v.regs[Parent(f) := r];
    TallySame(st, v.k, v.regs, k, regs);
    KnownMeansLive(v.k, K.ThreadId(f.pid, i));
    var y := K.ThreadId(f.pid, i);
    assert y in Live(v.k) ==> K.Join(Parent(f), y) in k.joins;
    hide K.DoJoin, K.Known;
    forall t | 1 <= t <= f.k ensures JoinHolds(f, k, r.pc, t) {
    }
  }

  lemma {:induction false} ParentJoins(program: Scripts, f: Family, b: Bounds, v: Threads, writes: nat, steps: nat)
    requires Grown(f, b, v, writes, steps) && program(Parent(f)) == ParentScript(f)
    requires v.k.running.Some? && v.k.running.value.id == Parent(f)
    requires 5 + f.k <= v.regs[Parent(f)].pc < 5 + 2 * f.k
    ensures ActThreads(program, v, Execute).Some?
    ensures var t := ActThreads(program, v, Execute).value;
      && Grown(f, b, t, writes, steps) && t.regs[Parent(f)].pc == v.regs[Parent(f)].pc + 1 && Live(t.k) == Live(v.k)
  {
    hide Fine, Inv, Live, ActThreads, Tally, Finished, ParentScript, M.Lookup, Own, Away, Settled, PoliteAt, K.DoJoin,
      HomeOf, ParentWaits;
    var st, x := SettingOf(f, b), Parent(f);
    ParentContext(f, b, v, writes, steps);
    var i := v.regs[x].pc - 4 - f.k;
    var call := K.JoinThread(i);
    ParentCalls(program, f, v, Own(v, x), call);
    var r := v.regs[x].(pc := v.regs[x].pc + 1);
    var t := v.(k := K.DoJoin(v.k, i), regs := v.regs[x := r]);
    assert ServeThreads(v.(regs := v.regs[x := r]), call) == Some(t);
    ParentPolite(program, f, b, v, writes, steps);
    BystanderExecutes(program, st, v, writes, steps);
    MembersHaveRegs(st, v, writes, steps);
    JoinLine(f, b, v, K.DoJoin(v.k, i), r, i);
    JoinWaits(f, v, t, i);
    JoinKeeps(v.k, i);
  }

  lemma {:induction false} JoinWaits(f: Family, v: Threads, t: Threads, i: nat)
    requires Inv(v.k) && v.k.running.Some? && v.k.running.value.id == Parent(f) && Parent(f) in t.regs
    requires 1 <= i <= f.k && t.regs[Parent(f)].pc == 5 + f.k + i && t.k == K.DoJoin(v.k, i)
    ensures ParentWaits(f, t)
  {
    hide Inv, K.Has, Ids;
    RunningNotBlocked(v.k);
  }

  /** READ_MEM and LOG: the parent has read threads times loop count. */
  lemma {:induction false} ParentReadsWord(program: Scripts, f: Family, b: Bounds, v: Threads, writes: nat, steps: nat)
    requires Grown(f, b, v, writes, steps) && program(Parent(f)) == ParentScript(f)
    requires v.k.running.Some? && v.k.running.value.id == Parent(f)
    requires 5 + 2 * f.k <= v.regs[Parent(f)].pc < 7 + 2 * f.k
    ensures ActThreads(program, v, Execute).Some?
    ensures var t := ActThreads(program, v, Execute).value;
      && Grown(f, b, t, writes, steps) && t.regs[Parent(f)].pc == v.regs[Parent(f)].pc + 1 && t.k == v.k
  {
    hide Inv, Live, Tally, Finished, ParentScript, M.Lookup, Away, Settled, PoliteAt, HomeOf, LockOf, ReadWord,
      Translate, Orderly, TeamOnly, Queued, ParentWaits;
    var st, x := SettingOf(f, b), Parent(f);
    ParentContext(f, b, v, writes, steps);
    ParentIsLast(f, b, v, writes, steps);
    var c := Own(v, x);
    ParentCycle(f, c, v.bytes);
    var r := Fetched(c);
    Addressed(b, r.regs, v.bytes);
    assert ReadWord(v.bytes, Shared(st)) == f.k * f.c % 0x1_0000_0000;
    var o := Exec(ParentLine(f, c.regs.pc), r, v.bytes);
    assert o.Next? && o.mem == v.bytes && AtLaterLines(f, o.context.regs) && o.context.regs.pc == c.regs.pc + 1;
    hide Exec, Own, Fetched;
    var t := v.(regs := v.regs[x := o.context.regs]);
    assert ActThreads(program, v, Execute) == Some(t);
    hide ActThreads;
    ParentMovesOn(f, b, v, t, writes, steps);
  }

  lemma {:induction false} ParentMovesOn(f: Family, b: Bounds, v: Threads, t: Threads, writes: nat, steps: nat)
    requires Grown(f, b, v, writes, steps) && Parent(f) in t.regs
    requires t == v.(regs := v.regs[Parent(f) := t.regs[Parent(f)]])
    requires v.regs[Parent(f)].pc >= 5 + 2 * f.k && v.k.running.Some? && v.k.running.value.id == Parent(f)
    requires AtLaterLines(f, t.regs[Parent(f)]) && t.regs[Parent(f)].pc == v.regs[Parent(f)].pc + 1
    ensures Grown(f, b, t, writes, steps)
  {
    hide Fine, Inv, Live, Tally, Finished, Away, Settled, AtLaterLines, Frame;
    var st := SettingOf(f, b);
    FineBasics(st, v, writes, steps);
    assert !In(Members(st), Parent(f));
    hide Members;
    RegsFrame(Members(st), v, Parent(f), t.regs[Parent(f)]);
    FineFrame(st, v, t, writes, steps);
    MovedParent(f, b, v, t, writes, steps);
    RunningWaits(f, t);
  }

  lemma {:induction false} MovedParent(f: Family, b: Bounds, v: Threads, t: Threads, writes: nat, steps: nat)
    requires Grown(f, b, v, writes, steps) && Parent(f) in t.regs
    requires t == v.(regs := v.regs[Parent(f) := t.regs[Parent(f)]])
    requires Inv(v.k) && v.regs[Parent(f)].pc >= 5 + 2 * f.k && v.k.running.Some? && v.k.running.value.id == Parent(f)
    requires AtLaterLines(f, t.regs[Parent(f)]) && t.regs[Parent(f)].pc == v.regs[Parent(f)].pc + 1
    ensures ParentOk(f, b, t)
  {
    hide Fine, Inv, Live, Tally, Finished, AtLaterLines, Members;
    var st := SettingOf(f, b);
    MembersHaveRegs(st, v, writes, steps);
    TallySame(st, v.k, v.regs, t.k, t.regs);
    JoinedAreGone(f, b, v);
    forall i | 1 <= i <= f.k ensures JoinHolds(f, t.k, t.regs[Parent(f)].pc, i) {
    }
  }

  /** PROCESS_EXIT of the last thread. */
  lemma {:induction false} ParentEnds(program: Scripts, f: Family, b: Bounds, v: Threads, writes: nat, steps: nat)
    requires Grown(f, b, v, writes, steps) && program(Parent(f)) == ParentScript(f)
    requires v.k.running.Some? && v.k.running.value.id == Parent(f) && v.regs[Parent(f)].pc == 7 + 2 * f.k
    ensures ActThreads(program, v, Execute).Some? && Over(f, ActThreads(program, v, Execute).value)
  {
    hide Fine, Inv, Live, ActThreads, Tally, Finished, ParentScript, M.Lookup, Own, Away, Settled, ServeThreads, Over;
    ParentContext(f, b, v, writes, steps);
    ParentIsLast(f, b, v, writes, steps);
    ParentCalls(program, f, v, Own(v, Parent(f)), K.ExitProcess);
    var r := v.(regs := v.regs[Parent(f) := v.regs[Parent(f)].(pc := v.regs[Parent(f)].pc + 1)]);
    AloneIsLast(f, v.k);
    assert K.Enabled(r.k, K.ExitProcess);
    hide K.Enabled;
    EndsProcess(f, r, K.ExitProcess);
  }

  // Any action

  lemma {:induction false} GrownRuns(f: Family, b: Bounds, v: Threads)
    requires ParentOk(f, b, v) && v.k.running.Some? && v.k.running.value.id.pid == f.pid
    ensures v.k.running.value.id == Parent(f) || MemberRuns(SettingOf(f, b), v.k)
  {
    hide Live, Tally, Finished, AtLaterLines;
    RunningIsLive(v.k);
  }

  lemma FamilyRunsScript(program: Scripts, f: Family, b: Bounds)
    requires RunFamily(program, f)
    ensures RunScript(program, SettingOf(f, b))
  {
    var st := SettingOf(f, b);
    forall x | In(Members(st), x) ensures program(x) == Script(st.c) {
      assert x == K.ThreadId(f.pid, x.tid);
    }
  }

  lemma {:induction false} GrownExecutes(program: Scripts, f: Family, b: Bounds, v: Threads, writes: nat, steps: nat)
    requires Grown(f, b, v, writes, steps) && RunFamily(program, f)
    requires v.k.running.Some? && v.k.running.value.id.pid == f.pid && ActThreads(program, v, Execute).Some?
    ensures var t := ActThreads(program, v, Execute).value; SomewhereGrown(f, t) || Over(f, t)
  {
    hide ActThreads, RunFamily, ParentScript, Fine, Inv, Live, Tally, Finished, SomewhereGrown, Over;
    FamilyParent(program, f);
    GrownRuns(f, b, v);
    if v.k.running.value.id == Parent(f) {
      var pc := v.regs[Parent(f)].pc;
      if pc < 5 + f.k {
        CreationEnabled(program, f, b, v, writes, steps);
        ParentCreates(program, f, b, v, writes, steps);
      } else if pc < 5 + 2 * f.k {
        ParentJoins(program, f, b, v, writes, steps);
      } else if pc < 7 + 2 * f.k {
        ParentReadsWord(program, f, b, v, writes, steps);
      } else {
        ParentEnds(program, f, b, v, writes, steps);
      }
    } else {
      FamilyRunsScript(program, f, b);
      ChildKeeps(program, f, b, v, writes, steps);
    }
    NowGrown(f);
  }

  lemma NowGrown(f: Family)
    ensures forall b, v, writes, steps :: Grown(f, b, v, writes, steps) ==> SomewhereGrown(f, v)
  {
    hide Grown;
  }

  lemma {:induction false} GrownKeeps(program: Scripts, f: Family, v: Threads, a: Action, c: Context)
    requires SomewhereGrown(f, v) && RunFamily(program, f) && ActThreads(program, v, a).Some?
    requires PoliteAt(program, Process(f.pid), v.k, HomeOf(v.m, f.pid), c, a)
    requires a.Execute? ==> c == Own(v, v.k.running.value.id)
    ensures var t := ActThreads(program, v, a).value; SomewhereGrown(f, t) || Over(f, t)
  {
    hide Grown, ActThreads, HomeOf, PoliteAt, RunFamily, Inv, Settled, Frame, Counts, Own, Unborn, Over, Young;
    var b, writes, steps :| Grown(f, b, v, writes, steps);
    assert Inv(v.k) && Away(f.pid, v.k) && Settled(v.m) by { GrownBasics(f, b, v, writes, steps); }
    var t := ActThreads(program, v, a).value;
    if !a.Execute? {
      MovesFrame(program, f.pid, v, a);
      GrownFrame(f, b, v, t, writes, steps);
    } else {
      ExecuteNeedsRunning(program, v);
      if v.k.running.value.id.pid != f.pid {
        OthersFrame(program, f.pid, v, c);
        GrownFrame(f, b, v, t, writes, steps);
      } else {
        GrownExecutes(program, f, b, v, writes, steps);
      }
    }
  }

  lemma GrownBasics(f: Family, b: Bounds, v: Threads, writes: nat, steps: nat)
    requires Grown(f, b, v, writes, steps)
    ensures Inv(v.k) && Away(f.pid, v.k) && Settled(v.m)
  {
    FineBasics(SettingOf(f, b), v, writes, steps);
  }
}
