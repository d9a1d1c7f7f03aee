/** The shipped mutex script in whole runs of the system, from start-up, among any other processes
    and with any preemption: exclusion, exact counting, and no deadlock. */
module MutexProgram {
  import opened Lists
  import opened Words
  import opened Cpu
  import opened Contexts
  import opened KernelInvariant
  import opened KernelRuns
  import opened KernelHandoff
  import opened BareMemory
  import opened WholeSystem
  import opened MutexScript
  import opened MutexFrame
  import opened MutexTeam
  import K = KernelState
  import M = Memory

  // One action

  predicate MemberRuns(st: Setting, k: K.State) {
    k.running.Some? && In(Members(st), k.running.value.id)
  }

  /** A member is about to write the shared word. */
  predicate AtWrite(st: Setting, v: Threads) {
    MemberRuns(st, v.k) && v.k.running.value.id in v.regs && v.regs[v.k.running.value.id].pc == 8
  }

  lemma {:induction false} MemberContext(st: Setting, v: Threads, writes: nat, steps: nat)
    requires Fine(st, v, writes, steps) && MemberRuns(st, v.k)
    ensures var x := v.k.running.value.id;
      && x in v.regs && AtLine(v.regs[x], st.c) && M.Lookup(v.m.procs, x.pid).Some?
      && Own(v, x) == Context(v.regs[x], st.bounds.base, st.bounds.limite)
  {
    hide Inv, Live, LockOf, ReadWord, Settled, Tally, TeamOnly, Queued, AtLine, Placed, M.FindProc;
    RunningIsLive(v.k);
    LiveIsActive(v.k, v.k.running.value.id);
  }

  lemma CallsAreSyscalls(line: u32)
    requires IsCall(line)
    ensures IsSyscall(CallAt(line)) && !CallAt(line).CreateThread? && !CallAt(line).CreateProcess?
    ensures !CallAt(line).ExitProcess?
  {
  }

  lemma {:induction false} MemberExecutes(program: Scripts, st: Setting, v: Threads, writes: nat, steps: nat)
    requires Fine(st, v, writes, steps) && MemberRuns(st, v.k) && RunScript(program, st)
    ensures var t := ActThreads(program, v, Execute);
      t.Some? && Fine(st, t.value, writes + (if AtWrite(st, v) then 1 else 0), steps + 1)
  {
    hide Fine, Cycle, Script, AtLine, K.Enabled, K.Apply, M.Lookup, Inv, Live, In;
    MemberContext(st, v, writes, steps);
    var x := v.k.running.value.id;
    assert program(x) == Script(st.c);
    if IsCall(v.regs[x].pc) {
      assert v.regs[x].pc <= 11 by { Bounded(v.regs[x], st.c); }
      CallLine(st.c, st.bounds, v.regs[x], v.bytes);
      CallKeeps(st, v, writes, steps);
      CallsAreSyscalls(v.regs[x].pc);
      assert ActThreads(program, v, Execute) == Some(Moved(v, x).(k := K.Apply(v.k, CallAt(v.regs[x].pc))));
    } else {
      PlainKeeps(st, v, writes, steps);
    }
  }

  lemma Bounded(r: Registers, c: u32)
    requires AtLine(r, c)
    ensures r.pc <= 11
  {
  }

  /** The call creates a thread under one of the team's TIDs. */
  predicate JoinsTeam(st: Setting, k: K.State, call: K.Step) {
    && k.running.Some? && call.CreateThread? && K.Enabled(k, call)
    && In(Members(st), K.ThreadId(k.running.value.id.pid, k.active[k.running.value.id.pid]))
  }

  /** Somebody else's polite instruction. */
  lemma {:induction false} BystanderExecutes(program: Scripts, st: Setting, v: Threads, writes: nat, steps: nat)
    requires Fine(st, v, writes, steps) && v.k.running.Some? && !MemberRuns(st, v.k)
    requires ActThreads(program, v, Execute).Some?
    requires PoliteAt(program, Members(st), v.k, HomeOf(v.m, st.pid), Own(v, v.k.running.value.id), Execute)
    ensures Fine(st, ActThreads(program, v, Execute).value, writes, steps)
  {
    hide Cycle, K.Enabled, M.Lookup, Inv, Live, In, LockOf, HomeOf, ReadWord, Settled, Tally, TeamOnly, Queued,
      Orderly, PoliteAt,
      IsSyscall, ServeThreads;
    var x := v.k.running.value.id;
    var o := Cycle(program(x), Own(v, x), v.bytes);
    if o.Trap? && JoinsTeam(st, v.k, o.call) {
      CycleWrites(program(x), Own(v, x), v.bytes);
      var r := v.(regs := v.regs[x := o.context.regs]);
      RegsFrame(Members(st), v, x, o.context.regs);
      FineFrame(st, v, r, writes, steps);
      BirthKeeps(st, r, o.call, writes, steps);
      assert ActThreads(program, v, Execute) == ServeThreads(r, o.call) by { CreationIsSyscall(o.call); }
    } else {
      if o.Trap? && o.call.CreateThread? && K.Enabled(v.k, o.call) {
        BornOutside(st, v.k, o.call);
      }
      hide Fine, Frame;
      assert Inv(v.k) && Away(st.pid, v.k) && Settled(v.m) by { FineBasics(st, v, writes, steps); }
      ExecuteFrame(program, Members(st), v);
      FineFrame(st, v, ActThreads(program, v, Execute).value, writes, steps);
    }
  }

  lemma CreationIsSyscall(call: K.Step)
    requires call.CreateThread?
    ensures IsSyscall(call)
  {
  }

  lemma FineBasics(st: Setting, v: Threads, writes: nat, steps: nat)
    requires Fine(st, v, writes, steps)
    ensures Inv(v.k) && Away(st.pid, v.k) && Settled(v.m)
  {
  }

  lemma {:induction false} BornOutside(st: Setting, k: K.State, call: K.Step)
    requires k.running.Some? && K.Enabled(k, call) && call.CreateThread?
    requires !In(Members(st), K.ThreadId(k.running.value.id.pid, k.active[k.running.value.id.pid]))
    ensures BornElsewhere(Members(st), k, call)
  {
    hide K.FreshTid, In;
  }

  /** One action of the whole machine, whoever takes it. */
  lemma {:induction false} ActionKeeps(program: Scripts, st: Setting, v: Threads, writes: nat, steps: nat, a: Action,
                                       c: Context)
    requires Fine(st, v, writes, steps) && RunScript(program, st)
    requires ActThreads(program, v, a).Some?
    requires PoliteAt(program, Members(st), v.k, HomeOf(v.m, st.pid), c, a)
    requires a.Execute? ==> c == Own(v, v.k.running.value.id)
    ensures Fine(st, ActThreads(program, v, a).value, writes + (if a.Execute? && AtWrite(st, v) then 1 else 0),
                 steps + (if a.Execute? && MemberRuns(st, v.k) then 1 else 0))
  {
    hide Fine, ActThreads, HomeOf, In, Own, PoliteAt, RunScript, Inv, Live, Settled, Frame;
    if a.Execute? {
      ExecuteNeedsRunning(program, v);
      if MemberRuns(st, v.k) {
        MemberExecutes(program, st, v, writes, steps);
      } else {
        BystanderExecutes(program, st, v, writes, steps);
      }
    } else {
      FineBasics(st, v, writes, steps);
      KernelOwnFrame(program, Members(st), v, a);
      FineFrame(st, v, ActThreads(program, v, a).value, writes, steps);
    }
  }

  lemma ExecuteNeedsRunning(program: Scripts, v: Threads)
    requires ActThreads(program, v, Execute).Some?
    ensures v.k.running.Some? && v.k.running.value.id in v.regs && M.Lookup(v.m.procs, v.k.running.value.id.pid).Some?
  {
  }

  // Runs of the system

  /** The instruction about to be executed is a member's WRITE_MEM. */
  predicate Writing(program: Scripts, st: Setting, s: System) {
    && MemberRuns(st, s.k)
    && var script := program(s.k.running.value.id);
       s.cpu.regs.pc < |script| && script[s.cpu.regs.pc].WriteMem?
  }

  /** The members' WRITE_MEMs completed in a run. */
  function WritesDone(program: Scripts, st: Setting, s: System, actions: seq<Action>): nat
    decreases |actions|
  {
    if actions == [] then 0
    else
      match Act(program, s, actions[0])
      case None => 0
      case Some(t) =>
        (if actions[0].Execute? && Writing(program, st, s) then 1 else 0) + WritesDone(program, st, t, actions[1..])
  }

  /** The members' instructions executed in a run. */
  function StepsDone(program: Scripts, st: Setting, s: System, actions: seq<Action>): nat
    decreases |actions|
  {
    if actions == [] then 0
    else
      match Act(program, s, actions[0])
      case None => 0
      case Some(t) =>
        (if actions[0].Execute? && MemberRuns(st, s.k) then 1 else 0) + StepsDone(program, st, t, actions[1..])
  }

  /** The registers of a thread, in the CPU or in memory. */
  function ContextOf(s: System, x: K.ThreadId): Option<Context> {
    if s.k.running.Some? && s.k.running.value.id == x then Some(s.cpu) else LoadOf(s.m, x)
  }

  lemma {:induction false} SameHome(s: System, v: Threads, sizes: seq<nat>, pid: nat)
    requires Agree(s, v, sizes)
    ensures HomeOf(v.m, pid) == HomeOf(s.m, pid)
  {
    hide Inv, Live, Grounded, Seen, M.FindProc;
    LookupBare(s.m.procs, pid);
  }

  lemma {:induction false} SameCpu(s: System, v: Threads, sizes: seq<nat>)
    requires Agree(s, v, sizes) && s.k.running.Some?
    ensures s.k == v.k && v.k.running.value.id in v.regs && M.Lookup(v.m.procs, v.k.running.value.id.pid).Some?
    ensures s.cpu == Own(v, v.k.running.value.id)
  {
    hide Agree, M.Lookup;
    AgreeOnKernel(s, v, sizes);
    ExecutedAgrees(s, v, sizes, s.cpu, s.bytes);
  }

  lemma {:induction false} SameWriting(program: Scripts, st: Setting, s: System, v: Threads, sizes: seq<nat>,
                                       writes: nat, steps: nat)
    requires Agree(s, v, sizes) && Fine(st, v, writes, steps) && RunScript(program, st)
    ensures Writing(program, st, s) <==> AtWrite(st, v)
    ensures s.k == v.k
  {
    hide Agree, Fine, In, M.Lookup, Script, AtLine;
    AgreeOnKernel(s, v, sizes);
    if MemberRuns(st, s.k) {
      SameCpu(s, v, sizes);
      MemberContext(st, v, writes, steps);
      WriteLine(st.c, v.regs[v.k.running.value.id]);
    }
  }

  lemma WriteLine(c: u32, r: Registers)
    requires AtLine(r, c)
    ensures r.pc < |Script(c)| && (Script(c)[r.pc].WriteMem? <==> r.pc == 8)
  {
    hide Script;
    Lines(c);
  }

  /** One action seen from the system. */
  lemma {:induction false} ActKeeps(program: Scripts, st: Setting, s: System, v: Threads, sizes: seq<nat>,
                                    writes: nat, steps: nat, a: Action)
    requires Agree(s, v, sizes) && Fine(st, v, writes, steps) && RunScript(program, st)
    requires Polite(program, Members(st), s, a) && Act(program, s, a).Some?
    ensures ActThreads(program, v, a).Some? && Agree(Act(program, s, a).value, ActThreads(program, v, a).value, sizes)
    ensures Fine(st, ActThreads(program, v, a).value, writes + (if a.Execute? && Writing(program, st, s) then 1 else 0),
                 steps + (if a.Execute? && MemberRuns(st, s.k) then 1 else 0))
  {
    hide Agree, Fine, Act, ActThreads, Writing, AtWrite, Own, HomeOf, PoliteAt, In, RunScript;
    ActAgrees(program, s, v, sizes, a);
    SameWriting(program, st, s, v, sizes, writes, steps);
    SameHome(s, v, sizes, st.pid);
    if a.Execute? {
      ExecuteNeedsRunning(program, v);
      SameCpu(s, v, sizes);
    }
    ActionKeeps(program, st, v, writes, steps, a, s.cpu);
  }

  lemma {:induction false} RunKeepsFine(program: Scripts, st: Setting, s: System, v: Threads, sizes: seq<nat>,
                                        writes: nat, steps: nat, actions: seq<Action>)
    returns (u: Threads)
    requires Agree(s, v, sizes) && Fine(st, v, writes, steps) && RunScript(program, st)
    requires AllPolite(program, Members(st), s, actions) && ActAll(program, s, actions).Some?
    ensures Agree(ActAll(program, s, actions).value, u, sizes)
    ensures Fine(st, u, writes + WritesDone(program, st, s, actions), steps + StepsDone(program, st, s, actions))
    decreases |actions|
  {
    hide Agree, Fine, Act, ActThreads, Polite, Writing, MemberRuns, RunScript;
    if actions == [] {
      u := v;
    } else {
      ActKeeps(program, st, s, v, sizes, writes, steps, actions[0]);
      var w := writes + (if actions[0].Execute? && Writing(program, st, s) then 1 else 0);
      var n := steps + (if actions[0].Execute? && MemberRuns(st, s.k) then 1 else 0);
      var t, x := Act(program, s, actions[0]).value, ActThreads(program, v, actions[0]).value;
      u := RunKeepsFine(program, st, t, x, sizes, w, n, actions[1..]);
    }
  }

  // From start-up

  /** The mutex is there, free, and of the team's process; no member has been created yet; the
      process lies where the setting says. */
  ghost predicate Begins(program: Scripts, st: Setting, s: System) {
    && Sane(st) && RunScript(program, st)
    && Fits(st.bounds, s.bytes) && HomeOf(s.m, st.pid) == Some(st.bounds) && ReadWord(s.bytes, Shared(st)) == st.start
    && LockOf(s.k) == Some(K.Mutex(MUTEX, st.pid, false, -1, [], 0))
    && forall x :: In(Members(st), x) ==> x !in Population(s.k)
  }

  /** What a run is: started, led up to the moment the mutex is ready, and gone on from there with
      everybody outside the team leaving mutex and word alone. */
  datatype Course = Course(start: Start, sizes: seq<nat>, before: seq<Action>, after: seq<Action>)

  ghost predicate Tells(program: Scripts, st: Setting, run: Course) {
    && Sensible(run.start, run.sizes)
    && ActAll(program, Power(run.start), run.before).Some?
    && var s := ActAll(program, Power(run.start), run.before).value;
       && Begins(program, st, s)
       && AllPolite(program, Members(st), s, run.after)
       && ActAll(program, s, run.after).Some?
  }

  ghost function Opening(program: Scripts, st: Setting, run: Course): System
    requires Tells(program, st, run)
  {
    ActAll(program, Power(run.start), run.before).value
  }

  ghost function Ending(program: Scripts, st: Setting, run: Course): System
    requires Tells(program, st, run)
  {
    ActAll(program, Opening(program, st, run), run.after).value
  }

  lemma {:induction false} NobodyPast(what: Measure, st: Setting, exited: seq<K.Tcb>)
    requires forall i :: 0 <= i < |exited| ==> !In(Members(st), exited[i].id)
    ensures Past(what, st, exited) == 0 && Finished(st, exited) == 0
  {
    PastElsewhere(what, st, [], exited);
  }

  lemma {:induction false} NobodyTallied(what: Measure, st: Setting, k: K.State, regs: RegisterFile)
    requires forall x :: In(Members(st), x) ==> x !in Population(k)
    ensures Tally(what, st, k, regs) == 0 && Finished(st, k.exited) == 0
    ensures forall x :: In(Members(st), x) ==> x !in Live(k)
  {
    hide Live, Total, Past, Finished;
    forall i | 0 <= i < |k.exited| ensures !In(Members(st), k.exited[i].id) {
      assert Ids(k.exited)[i] in multiset(Ids(k.exited));
      assert k.exited[i].id in Population(k);
    }
    NobodyPast(what, st, k.exited);
    forall t | t in st.tids ensures K.ThreadId(st.pid, t) !in Live(k) {
      assert In(Members(st), K.ThreadId(st.pid, t));
    }
    TotalOfNobody(what, Live(k), regs, st, st.tids);
  }

  lemma ActiveIsAway(k: K.State, pid: nat)
    requires Inv(k) && pid in k.active
    ensures Away(pid, k)
  {
    hide Core, Counted;
  }

  lemma {:induction false} HomeIsActive(s: System, v: Threads, sizes: seq<nat>, pid: nat)
    requires Agree(s, v, sizes)
    ensures HomeOf(s.m, pid).Some? <==> pid in v.k.active
    ensures Inv(v.k) && Settled(v.m)
  {
    hide Inv, Live, Seen, Healthy, M.FindProc, Strip;
    SoundSettled(s.m, sizes);
    assert Settled(v.m) by { StripSettled(s.m); }
  }

  lemma StripSettled(m: M.State)
    requires Settled(m)
    ensures Settled(Strip(m))
  {
  }

  lemma {:induction false} BeginsFine(program: Scripts, st: Setting, s: System, v: Threads, sizes: seq<nat>)
    requires Begins(program, st, s) && Agree(s, v, sizes)
    ensures Fine(st, v, 0, 0)
  {
    hide Inv, Live, Population, Tally, HomeOf, ReadWord, Settled, In, RunScript, LockOf, Ids, Agree;
    AgreeOnKernel(s, v, sizes);
    SameHome(s, v, sizes, st.pid);
    HomeIsActive(s, v, sizes, st.pid);
    ActiveIsAway(v.k, st.pid);
    NobodyTallied(Writes, st, v.k, v.regs);
    NobodyTallied(Instructions, st, v.k, v.regs);
    forall x | In(Members(st), x) ensures x !in Ids(v.k.blocked) {
      if x in Ids(v.k.blocked) {
        BlockedIsLive(v.k, x);
        assert false;
      }
    }
  }

  /** Where a run ends, seen as threads with registers of their own. */
  lemma {:induction false} Reached(program: Scripts, st: Setting, run: Course) returns (u: Threads)
    requires Tells(program, st, run)
    ensures Agree(Ending(program, st, run), u, run.sizes)
    ensures Fine(st, u, WritesDone(program, st, Opening(program, st, run), run.after),
                 StepsDone(program, st, Opening(program, st, run), run.after))
  {
    hide Agree, Fine, ActAll, ActAllThreads, WritesDone, StepsDone, AllPolite, Sensible, Power, PowerThreads;
    ReachedAgrees(program, run.start, run.sizes, run.before);
    var s := Opening(program, st, run);
    var v := ActAllThreads(program, PowerThreads(run.start), run.before).value;
    BeginsFine(program, st, s, v, run.sizes);
    hide Begins;
    u := RunKeepsFine(program, st, s, v, run.sizes, 0, 0, run.after);
  }

  /** A member that is not blocked stands between the lock and the unlock. */
  ghost predicate Critical(st: Setting, s: System, x: K.ThreadId) {
    && In(Members(st), x) && x in Live(s.k) && !K.Has(s.k.blocked, x)
    && ContextOf(s, x).Some? && Inside(ContextOf(s, x).value.regs)
  }

  lemma {:induction false} WhereItStands(st: Setting, t: System, u: Threads, sizes: seq<nat>, writes: nat, steps: nat,
                                         x: K.ThreadId)
    requires Agree(t, u, sizes) && Fine(st, u, writes, steps) && x in Live(t.k) && In(Members(st), x)
    ensures ContextOf(t, x).Some? && LockOf(t.k).Some?
    ensures !K.Has(t.k.blocked, x) ==> (Inside(ContextOf(t, x).value.regs) <==> K.HeldBy(LockOf(t.k).value, x.tid))
    ensures K.Has(t.k.blocked, x) ==> ContextOf(t, x).value.regs.pc == 6
  {
    hide Inv, Live, Grounded, LockOf, HomeOf, ReadWord, Settled, Tally, TeamOnly, AtLine, K.Find, LoadOf, Ids, Strip,
      Away, Homed;
    AgreeOnKernel(t, u, sizes);
    assert Seen(t.m, t.k, u.regs, t.cpu, x);
    var m := LockOf(u.k).value;
    assert Placed(m, u.regs[x], x, ReadWord(u.bytes, Shared(st)));
    HasMeansMember(t.k.blocked, x);
    LockFacts(u.k);
  }

  /** Mutual exclusion, for any number of threads, any loop count, any other processes and any
      preemption: a member that is not blocked stands between the lock and the unlock exactly when
      it owns the mutex, so no two do; and a blocked member stands right after the lock. */
  lemma {:induction false} MutualExclusion(program: Scripts, st: Setting, run: Course)
    requires Tells(program, st, run)
    ensures var t := Ending(program, st, run);
      && LockOf(t.k).Some?
      && (forall x :: In(Members(st), x) && x in Live(t.k) ==> ContextOf(t, x).Some?)
      && (forall x :: In(Members(st), x) && x in Live(t.k) && !K.Has(t.k.blocked, x) ==>
            (Inside(ContextOf(t, x).value.regs) <==> K.HeldBy(LockOf(t.k).value, x.tid)))
      && (forall x :: In(Members(st), x) && x in Live(t.k) && K.Has(t.k.blocked, x) ==>
            ContextOf(t, x).value.regs.pc == 6)
      && (forall x, y :: Critical(st, t, x) && Critical(st, t, y) ==> x == y)
  {
    hide Tells, Opening, Ending, Agree, Fine, Live, LockOf, ContextOf, K.Has, Inside;
    var u := Reached(program, st, run);
    var t := Ending(program, st, run);
    var w := WritesDone(program, st, Opening(program, st, run), run.after);
    var n := StepsDone(program, st, Opening(program, st, run), run.after);
    hide WritesDone, StepsDone;
    AgreeOnKernel(t, u, run.sizes);
    assert LockOf(t.k).Some? by { LockIsThere(st, u, w, n); }
    forall x | In(Members(st), x) && x in Live(t.k)
      ensures ContextOf(t, x).Some?
      ensures !K.Has(t.k.blocked, x) ==> (Inside(ContextOf(t, x).value.regs) <==> K.HeldBy(LockOf(t.k).value, x.tid))
      ensures K.Has(t.k.blocked, x) ==> ContextOf(t, x).value.regs.pc == 6
    {
      WhereItStands(st, t, u, run.sizes, w, n, x);
    }
  }

  lemma LockIsThere(st: Setting, v: Threads, writes: nat, steps: nat)
    requires Fine(st, v, writes, steps)
    ensures LockOf(v.k).Some?
  {
  }

  /** As long as its process is in memory, the shared word counts the members' completed
      WRITE_MEMs: no increment is ever lost. */
  lemma {:induction false} WordCountsWrites(program: Scripts, st: Setting, run: Course)
    requires Tells(program, st, run) && HomeOf(Ending(program, st, run).m, st.pid).Some?
    ensures var t := Ending(program, st, run);
      && Shared(st) + 4 <= |t.bytes| && HomeOf(t.m, st.pid) == Some(st.bounds)
      && ReadWord(t.bytes, Shared(st))
         == (st.start + WritesDone(program, st, Opening(program, st, run), run.after)) % 0x1_0000_0000
  {
    hide Tells, Opening, Ending, Agree, Inv, Live, Orderly, Tally, WritesDone, StepsDone, ReadWord, HomeOf, LockOf,
      Settled;
    var u := Reached(program, st, run);
    var t := Ending(program, st, run);
    AgreeOnKernel(t, u, run.sizes);
    SameHome(t, u, run.sizes, st.pid);
    HomeIsActive(t, u, run.sizes, st.pid);
  }

  lemma {:induction false} TotalBound(live: multiset<K.ThreadId>, regs: RegisterFile, st: Setting, tids: seq<nat>)
    requires st.c >= 1
    requires forall t :: t in tids && K.ThreadId(st.pid, t) in live && K.ThreadId(st.pid, t) in regs ==>
      AtLine(regs[K.ThreadId(st.pid, t)], st.c)
    ensures Total(Instructions, live, regs, st, tids) <= |tids| * Final(Instructions, st.c)
  {
    hide AtLine, Score;
    if tids != [] {
      var x := K.ThreadId(st.pid, tids[0]);
      TotalBound(live, regs, st, tids[1..]);
      if x in live && x in regs {
        ScoreBounds(Instructions, regs[x], st.c);
      }
      assert |tids| * Final(Instructions, st.c) == Final(Instructions, st.c) + (|tids| - 1) * Final(Instructions, st.c);
    }
  }

  lemma {:induction false} Totals(st: Setting, u: Threads, writes: nat, steps: nat)
    requires Fine(st, u, writes, steps)
    ensures steps <= (Finished(st, u.k.exited) + |st.tids|) * Final(Instructions, st.c)
    ensures (forall x :: In(Members(st), x) ==> x !in Live(u.k)) ==>
      writes == Finished(st, u.k.exited) * st.c && steps == Finished(st, u.k.exited) * Final(Instructions, st.c)
  {
    hide Inv, Live, ReadWord, Total, Past, Finished, Score, AtLine, LockOf, HomeOf, Settled, TeamOnly, Queued, Placed;
    PastIsGone(Writes, st, u.k.exited);
    PastIsGone(Instructions, st, u.k.exited);
    forall t | t in st.tids && K.ThreadId(st.pid, t) in Live(u.k) && K.ThreadId(st.pid, t) in u.regs
      ensures AtLine(u.regs[K.ThreadId(st.pid, t)], st.c)
    {
      assert In(Members(st), K.ThreadId(st.pid, t));
    }
    TotalBound(Live(u.k), u.regs, st, st.tids);
    Distributes(Finished(st, u.k.exited), |st.tids|, Final(Instructions, st.c));
    if forall x :: In(Members(st), x) ==> x !in Live(u.k) {
      forall t | t in st.tids ensures K.ThreadId(st.pid, t) !in Live(u.k) {
        assert In(Members(st), K.ThreadId(st.pid, t));
      }
      TotalOfNobody(Writes, Live(u.k), u.regs, st, st.tids);
      TotalOfNobody(Instructions, Live(u.k), u.regs, st, st.tids);
    }
  }

  lemma Distributes(a: nat, b: nat, n: int)
    ensures (a + b) * n == a * n + b * n
  {
  }

  /** Whenever no member is alive, the word has gone up by loop count times the members that have
      exited, modulo 2^32, after exactly that many scripts' worth of instructions; and no run
      executes more than the scripts of the members that exited or can be alive hold. */
  lemma {:induction false} EveryIncrementCounts(program: Scripts, st: Setting, run: Course)
    requires Tells(program, st, run)
    ensures var t := Ending(program, st, run); var n := Finished(st, t.k.exited);
      && StepsDone(program, st, Opening(program, st, run), run.after) <= (n + |st.tids|) * (7 * st.c + 5)
      && ((forall x :: In(Members(st), x) ==> x !in Live(t.k)) ==>
            && StepsDone(program, st, Opening(program, st, run), run.after) == n * (7 * st.c + 5)
            && (HomeOf(t.m, st.pid).Some? ==>
                  && Shared(st) + 4 <= |t.bytes|
                  && ReadWord(t.bytes, Shared(st)) == (st.start + n * st.c) % 0x1_0000_0000))
  {
    hide Tells, Opening, Ending, Agree, Fine, Live, In, WritesDone, StepsDone, ReadWord, HomeOf, Finished;
    var u := Reached(program, st, run);
    var t := Ending(program, st, run);
    AgreeOnKernel(t, u, run.sizes);
    Totals(st, u, WritesDone(program, st, Opening(program, st, run), run.after),
           StepsDone(program, st, Opening(program, st, run), run.after));
    if HomeOf(t.m, st.pid).Some? {
      WordCountsWrites(program, st, run);
    }
  }

  /** What the system may be asked for: the CPU executes a member's instruction, the interrupt
      arrives while somebody runs, the scheduler decides when nobody does and somebody is ready, and
      the devices finish what they were asked. */
  predicate Offered(st: Setting, k: K.State, a: Action) {
    match a
    case Execute => MemberRuns(st, k)
    case Interrupt => k.running.Some?
    case Schedule(_) => k.running.None? && k.ready != []
    case IoDone => k.ioQueue != []
    case DumpDone(i) => i < |k.dumps|
  }

  lemma SemaphoreIsReady(k: K.State)
    requires Inv(k)
    ensures k.semThreads == |k.ready| && k.semIo == |k.ioQueue|
  {
  }

  lemma {:induction false} OfferedCanAct(program: Scripts, st: Setting, v: Threads, writes: nat, steps: nat, a: Action)
    requires Fine(st, v, writes, steps) && RunScript(program, st) && Offered(st, v.k, a)
    ensures ActThreads(program, v, a).Some?
  {
    hide Fine, Inv, RunScript, In, K.DoDispatch, K.DoPreempt, K.DoCompleteIo, K.DoCompleteDump;
    FineBasics(st, v, writes, steps);
    SemaphoreIsReady(v.k);
    if a.Execute? {
      MemberExecutes(program, st, v, writes, steps);
    }
  }

  /** Nothing members do can get stuck: whatever is offered can be done, and when nobody runs and
      nobody is ready, no member is left waiting. */
  lemma {:induction false} NeverStuck(program: Scripts, st: Setting, run: Course)
    requires Tells(program, st, run)
    ensures var t := Ending(program, st, run);
      && (forall a :: Offered(st, t.k, a) ==> Act(program, t, a).Some?)
      && (t.k.running.None? && t.k.ready == [] ==> forall x :: In(Members(st), x) ==> x !in Live(t.k))
  {
    assert RunScript(program, st);
    hide Tells, Opening, Ending, Agree, Fine, Live, In, WritesDone, StepsDone, Act, ActThreads, Offered, RunScript;
    var u := Reached(program, st, run);
    var t := Ending(program, st, run);
    var w := WritesDone(program, st, Opening(program, st, run), run.after);
    var n := StepsDone(program, st, Opening(program, st, run), run.after);
    AgreeOnKernel(t, u, run.sizes);
    forall a | Offered(st, t.k, a) ensures Act(program, t, a).Some? {
      OfferedCanAct(program, st, u, w, n, a);
      ActAgrees(program, t, u, run.sizes, a);
    }
    if t.k.running.None? && t.k.ready == [] {
      NobodyWaitsForNobody(st, u, w, n);
    }
  }

  /** With nobody running or ready, a waiting member would need a live owner outside the queue. */
  lemma {:induction false} NobodyWaitsForNobody(st: Setting, u: Threads, writes: nat, steps: nat)
    requires Fine(st, u, writes, steps) && u.k.running.None? && u.k.ready == []
    ensures forall x :: In(Members(st), x) ==> x !in Live(u.k)
  {
    hide Inv, Orderly, Tally, ReadWord, LockOf, HomeOf, Settled, Ids, Away, Homed;
    LockFacts(u.k);
    var m := LockOf(u.k).value;
    forall x | In(Members(st), x) ensures x !in Live(u.k) {
      if x in Live(u.k) {
        OnlyBlocked(u.k, x);
        assert m.taken && In(Members(st), K.ThreadId(m.pid, m.tid));
        OnlyBlocked(u.k, K.ThreadId(m.pid, m.tid));
        assert false;
      }
    }
  }

  lemma OnlyBlocked(k: K.State, x: K.ThreadId)
    requires k.running.None? && k.ready == [] && x in Live(k)
    ensures x in Ids(k.blocked)
  {
    assert Ids(k.ready) == [];
  }

  // Why nobody else may end under a TID that holds the mutex

  /** Whoever is between the lock and the unlock and not waiting owns the mutex. */
  ghost predicate Exclusive(st: Setting, k: K.State, regs: RegisterFile) {
    LockOf(k).Some? &&
    forall x :: In(Members(st), x) && x in Live(k) && x in regs && Inside(regs[x]) && x !in LockOf(k).value.waiters ==>
      K.HeldBy(LockOf(k).value, x.tid)
  }

  /** A thread outside the team that ends leaves the team's exclusion alone if and only if the mutex
      is not held under its TID. */
  lemma {:induction false} EndingSparesIff(st: Setting, v: Threads, writes: nat, steps: nat, call: K.Step)
    requires Fine(st, v, writes, steps) && v.k.running.Some? && !MemberRuns(st, v.k)
    requires (call.ExitThread? || call.ExitProcess? || call.SegmentationFault?) && K.Enabled(v.k, call)
    ensures Exclusive(st, K.Apply(v.k, call), v.regs) <==> !HeldUnder(v.k, v.k.running.value.id.tid)
  {
    hide Inv, Live, LockOf, HomeOf, ReadWord, Settled, Tally, Ids, Away, Homed, K.Enabled, K.Apply, Released, AtLine,
      TeamOnly;
    var x := v.k.running.value.id;
    var t := K.Apply(v.k, call);
    var m := LockOf(v.k).value;
    LiveAfter(v.k, call);
    RunningAfter(v.k, call);
    if HeldUnder(v.k, x.tid) {
      LockFacts(v.k);
      var y := K.ThreadId(m.pid, m.tid);
      assert In(Members(st), y) by { TeamHolds(st, m); }
      assert Placed(m, v.regs[y], y, ReadWord(v.bytes, Shared(st)));
      LockReleased(v.k, call);
      assert y in Live(t);
      assert !Exclusive(st, t, v.regs);
    } else {
      LockFrame(v.k, call);
      forall y | In(Members(st), y) && y in Live(t) && y in v.regs && Inside(v.regs[y]) && y !in m.waiters
        ensures K.HeldBy(m, y.tid)
      {
        assert y in Live(v.k);
        assert Placed(m, v.regs[y], y, ReadWord(v.bytes, Shared(st)));
      }
    }
  }

  lemma TeamHolds(st: Setting, m: K.Mutex)
    requires TeamOnly(st, m) && m.taken && m.tid >= 0
    ensures In(Members(st), K.ThreadId(m.pid, m.tid))
  {
  }

  lemma {:induction false} LockReleased(k: K.State, call: K.Step)
    requires Inv(k) && k.running.Some? && HeldUnder(k, k.running.value.id.tid)
    requires (call.ExitThread? || call.ExitProcess? || call.SegmentationFault?) && K.Enabled(k, call)
    ensures LockOf(K.Apply(k, call)) == Some(Released(LockOf(k).value))
    ensures Released(LockOf(k).value).tid != LockOf(k).value.tid
    ensures forall y :: y in Released(LockOf(k).value).waiters ==> y in LockOf(k).value.waiters
  {
    hide Core, K.DoExitThread, K.DoExitProcess, K.FindMutex, Counted, PendingOk;
    var i := K.FindMutex(k.mutexes, MUTEX);
    if call.ExitThread? {
      ExitThreadMutexes(k);
    } else {
      ExitProcessMutexes(k);
    }
    ReleasedMutexesOk(k, i);
    SamePlace(k.mutexes, K.Apply(k, call).mutexes);
  }

  lemma {:induction false} SamePlace(before: seq<K.Mutex>, after: seq<K.Mutex>)
    requires |before| == |after| && forall j :: 0 <= j < |before| ==> after[j].name == before[j].name
    ensures K.FindMutex(after, MUTEX) == K.FindMutex(before, MUTEX)
  {
    var i := K.FindMutex(before, MUTEX);
    if i < |before| {
      assert after[i].name == MUTEX;
    }
  }
}
