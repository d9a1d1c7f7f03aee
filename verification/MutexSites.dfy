/** The race workload beside the mutex workload: where memory puts the two words, and that neither the word
    nor the mutex of the one is touched by the other. */
module MutexSites {
  import opened Lists
  import opened Words
  import opened Cpu
  import opened BareMemory
  import opened Contexts
  import opened KernelInvariant
  import opened KernelRuns
  import opened WholeSystem
  import opened MutexScript
  import opened MutexFrame
  import opened MutexProgram
  import opened MutexFamily
  import opened MutexTurns
  import opened MutexRanks
  import FM = FixedMemory
  import K = KernelState
  import L = LocalEdits
  import M = Memory
  import P = Partitions

  /** The other workload: how many threads, their loop count and their priority (4, 10 and 5). */
  datatype Racers = Racers(n: nat, c: u32, priority: nat)

  // Where processes lie

  /** Every process is big enough for the word. */
  predicate Roomy(procs: seq<P.Proc>) {
    forall i :: 0 <= i < |procs| ==> procs[i].size > OFFSET
  }

  lemma {:induction false} RoomyInsert(procs: seq<P.Proc>, p: P.Proc)
    requires Roomy(procs) && p.size > OFFSET
    ensures Roomy(L.InsertByBase(procs, p))
  {
    if procs != [] && p.base >= procs[0].base {
      RoomyInsert(procs[1..], p);
    }
  }

  lemma {:induction false} RoomySort(procs: seq<P.Proc>)
    requires Roomy(procs)
    ensures Roomy(M.SortByBase(procs))
  {
    hide L.InsertByBase;
    if procs != [] {
      RoomySort(procs[..|procs| - 1]);
      RoomyInsert(M.SortByBase(procs[..|procs| - 1]), procs[|procs| - 1]);
    }
  }

  lemma {:induction false} RoomyCreate(m: M.State, pid: nat, size: nat)
    requires Roomy(m.procs) && size > OFFSET && M.TryCreate(m, pid, size).Some?
    ensures Roomy(M.TryCreate(m, pid, size).value.procs)
  {
    hide P.Select, M.SortByBase, P.Build;
    var p := M.NewProc(pid, m.parts[P.Select(m.criteria, m.parts, size)].base, size);
    RoomySort(m.procs + [p]);
  }

  lemma {:induction false} RoomyDelete(m: M.State, pid: nat)
    requires Roomy(m.procs)
    ensures Roomy(M.Delete(m, pid).procs)
  {
    hide M.SortByBase, P.Build, M.FindPart;
    var k := M.FindProc(m.procs, pid);
    if k < |m.procs| {
      RoomySort(RemoveAt(m.procs, k));
    }
  }

  lemma {:induction false} NotBelow(procs: seq<P.Proc>, cur: nat, tam: nat, i: nat)
    requires P.LaidOut(procs, cur, tam) && P.Sized(procs) && i < |procs|
    ensures cur <= procs[i].base
    decreases |procs|
  {
    if i > 0 {
      L.TailSized(procs);
      NotBelow(procs[1..], procs[0].limite, tam, i - 1);
    }
  }

  lemma {:induction false} InOrder(procs: seq<P.Proc>, cur: nat, tam: nat, i: nat, j: nat)
    requires P.LaidOut(procs, cur, tam) && P.Sized(procs) && i < j < |procs|
    ensures procs[i].limite <= procs[j].base
    decreases |procs|
  {
    if i > 0 {
      assert procs[1..][i - 1] == procs[i] && procs[1..][j - 1] == procs[j];
      L.TailSized(procs);
      InOrder(procs[1..], procs[0].limite, tam, i - 1, j - 1);
    } else {
      L.TailSized(procs);
      NotBelow(procs[1..], procs[0].limite, tam, j - 1);
    }
  }

  lemma HousesApart(p: P.Proc, q: P.Proc, parts: seq<P.Partition>, sizes: seq<nat>)
    requires FM.Housed(p, parts) && FM.Housed(q, parts) && FM.Layout(parts, sizes) && p.pid != q.pid
    ensures p.limite <= q.base || q.limite <= p.base
    ensures p.limite == p.base + p.size && q.limite == q.base + q.size
  {
    hide M.FindPart;
    var i, j := M.FindPart(parts, p.pid), M.FindPart(parts, q.pid);
    if i < j {
      PrefixSumGrows(sizes, i + 1, j);
    } else {
      PrefixSumGrows(sizes, j + 1, i);
    }
  }

  lemma {:induction false} ProcsApart(m: M.State, sizes: seq<nat>, i: nat, j: nat)
    requires Healthy(m, sizes) && i < |m.procs| && j < |m.procs| && m.procs[i].pid != m.procs[j].pid
    ensures m.procs[i].limite <= m.procs[j].base || m.procs[j].limite <= m.procs[i].base
    ensures m.procs[i].limite == m.procs[i].base + m.procs[i].size
    ensures m.procs[j].limite == m.procs[j].base + m.procs[j].size
  {
    hide M.FindPart, P.SortedByBase, FM.Housed, FM.Layout, P.LaidOut, P.Build;
    if m.scheme.Dinamicas? {
      if i < j {
        InOrder(m.procs, 0, m.tam, i, j);
      } else {
        InOrder(m.procs, 0, m.tam, j, i);
      }
    } else {
      HousesApart(m.procs[i], m.procs[j], m.parts, sizes);
    }
  }

  /** Two processes' words are apart. */
  lemma {:induction false} Apart(m: M.State, sizes: seq<nat>, p: nat, q: nat)
    requires Sound(m, sizes) && Roomy(m.procs) && p != q && HomeOf(m, p).Some? && HomeOf(m, q).Some?
    ensures HomeOf(m, q).value.base + OFFSET < 0x1_0000_0000
    ensures Misses(HomeOf(m, p), HomeOf(m, q).value.base + OFFSET)
  {
    hide M.FindProc, Healthy, Sound;
    BoundsLow(m, sizes, p);
    BoundsLow(m, sizes, q);
    SoundSettled(m, sizes);
    ProcsApart(m, sizes, M.FindProc(m.procs, p), M.FindProc(m.procs, q));
  }

  // What they run

  /** The first process runs the mutex workload and every other the race workload. */
  ghost predicate Both(program: Scripts, f: Family, g: Racers) {
    && f.pid == 0 && RunFamily(program, f) && f.otherSize > OFFSET
    && forall x: K.ThreadId :: x.pid != 0 ==>
         program(x) == if x.tid == 0 then RaceParent(g.n, g.priority) else RaceScript(g.c)
  }

  predicate RaceCall(g: Racers, tid: nat, call: K.Step) {
    match call
    case CreateThread(p) => tid == 0 && p == g.priority
    case JoinThread(t) => tid == 0 && t != 0
    case ExitProcess => tid == 0
    case ExitThread => tid != 0
    case _ => false
  }

  /** What the other workload's lines can be, by TID and line. */
  predicate RaceLine(g: Racers, tid: nat, pc: nat, i: Instr) {
    match i
    case Set(dst, value) => (dst == AX ==> value == OFFSET) && (pc == 1 ==> dst == AX)
    case Sum(dst, _) => pc >= 2 && dst == DX
    case Sub(dst, _) => pc >= 2 && dst == CX
    case ReadMem(dst, addr) => pc >= 2 && dst == DX && addr == AX
    case WriteMem(addr, _) => pc >= 2 && addr == AX
    case Jnz(_, _) => pc >= 2
    case Log(_) => pc >= 2
    case Syscall(call) => pc >= 2 && RaceCall(g, tid, call)
  }

  lemma OtherLine(program: Scripts, f: Family, g: Racers, x: K.ThreadId, pc: nat)
    requires Both(program, f, g) && x.pid != 0 && pc < |program(x)|
    ensures RaceLine(g, x.tid, pc, program(x)[pc])
  {
    hide RunFamily;
  }

  /** From line 2 on the address is in AX. */
  predicate Pointing(r: Registers) {
    r.pc >= 2 ==> r.ax == OFFSET
  }

  lemma StaysPointing(g: Racers, tid: nat, script: seq<Instr>, c: Context, bytes: seq<byte>)
    requires c.regs.pc < |script| && RaceLine(g, tid, c.regs.pc, script[c.regs.pc]) && Pointing(c.regs)
    ensures var o := Cycle(script, c, bytes); !o.Undefined? ==> Pointing(o.context.regs)
  {
    hide WriteWord, ReadWord, Translate, RaceCall;
  }

  // Nobody else comes near the word

  ghost predicate Racing(v: Threads) {
    forall x :: x in Live(v.k) && x.pid != 0 ==> x in v.regs && Pointing(v.regs[x])
  }

  predicate Sizes(pending: seq<K.PendingPcb>) {
    forall i :: 0 <= i < |pending| ==> pending[i].size > OFFSET
  }

  /** Nobody else comes near the shared word. */
  ghost predicate Sited(v: Threads) {
    Racing(v) && Sizes(v.k.pending) && Roomy(v.m.procs)
  }

  lemma {:induction false} BareRoomy(m: M.State)
    requires Roomy(Strip(m).procs)
    ensures Roomy(m.procs)
  {
    forall i | 0 <= i < |m.procs| ensures m.procs[i].size > OFFSET {
      assert BareProcs(m.procs)[i] == Bare(m.procs[i]);
    }
  }

  lemma AgreeingMemory(s: System, v: Threads, sizes: seq<nat>)
    requires Agree(s, v, sizes)
    ensures v.m == Strip(s.m) && Sound(s.m, sizes)
  {
    hide Sound, Strip, Seen, Inv;
  }

  lemma NoHome(home: Option<Bounds>)
    requires home.None?
    ensures forall q :: Misses(home, q)
  {
  }

  lemma {:induction false} WordApart(m: M.State, sizes: seq<nat>, v: Threads, x: K.ThreadId, c: Context)
    requires Sound(m, sizes) && Roomy(m.procs) && x.pid != 0 && v.m == Strip(m)
    requires x in v.regs && M.Lookup(v.m.procs, x.pid).Some? && c == Own(v, x)
    ensures var q := Translate(c, OFFSET); q != SEG_FAULT ==> Misses(HomeOf(m, 0), q)
  {
    hide Sound, Roomy, Misses, M.FindProc;
    LookupBare(m.procs, x.pid);
    if HomeOf(m, 0).Some? {
      Apart(m, sizes, 0, x.pid);
    } else {
      assert forall q :: Misses(HomeOf(m, 0), q) by { NoHome(HomeOf(m, 0)); }
    }
  }

  /** The other workload does no harm unless the mutex is held under a TID of it. */
  lemma {:induction false} RacersPolite(program: Scripts, f: Family, g: Racers, s: System, v: Threads,
                                        sizes: seq<nat>, a: Action)
    requires Both(program, f, g) && Agree(s, v, sizes) && Sited(v)
    requires v.k.running.Some? && v.k.running.value.id.pid != 0 ==> !HeldUnder(v.k, v.k.running.value.id.tid)
    ensures Polite(program, Process(0), s, a)
  {
    hide Agree, Sound, Both, HomeOf, Live, Translate, Strip, HeldUnder, Roomy, Misses;
    AgreeOnKernel(s, v, sizes);
    if a.Execute? && s.k.running.Some? && s.k.running.value.id.pid != 0 {
      var x := s.k.running.value.id;
      RunningIsLive(v.k);
      SameCpu(s, v, sizes);
      AgreeingMemory(s, v, sizes);
      BareRoomy(s.m);
      if s.cpu.regs.pc < |program(x)| {
        OtherLine(program, f, g, x, s.cpu.regs.pc);
        assert Pointing(s.cpu.regs) by { assert s.cpu.regs == v.regs[x]; }
        WordApart(s.m, sizes, v, x, s.cpu);
      }
    }
  }

  // Calls and admission

  lemma {:induction false} RacingAfter(v: Threads, step: K.Step, regs: RegisterFile)
    requires Inv(v.k) && K.Enabled(v.k, step) && Racing(v)
    requires forall x :: x in Created(v.k, step) ==> x in regs && regs[x] == Fresh
    requires forall x :: x in v.regs && x !in Created(v.k, step) ==> x in regs && regs[x] == v.regs[x]
    ensures Racing(v.(k := K.Apply(v.k, step), regs := regs))
  {
    hide Inv, Live, K.Enabled, K.Apply, Created;
    LiveAfter(v.k, step);
    var t := K.Apply(v.k, step);
    forall x | x in Live(t) && x.pid != 0 ensures x in regs && Pointing(regs[x]) {
      if x !in Created(v.k, step) {
        assert x in Live(v.k);
      }
    }
  }

  lemma SameRacing(v: Threads, u: Threads)
    requires Racing(v) && u.k == v.k && u.regs == v.regs
    ensures Racing(u)
  {
    hide Live;
  }

  lemma {:induction false} AdmitSited(v: Threads)
    requires Inv(v.k) && Sited(v)
    ensures Sited(AdmitThreads(v))
    decreases |v.k.pending|
  {
    hide Inv, Racing, Roomy, M.TryCreate, K.Apply, K.DoAdmitHead, K.Enabled;
    if AttemptThreads(v).0 {
      var head := v.k.pending[0];
      var t := AttemptThreads(v).1;
      HeadAdmits(v.k);
      StepKeeps(v.k, K.AdmitHead);
      assert Racing(t) by {
        RacingAfter(v, K.AdmitHead, t.regs);
        SameRacing(v.(k := t.k, regs := t.regs), t);
      }
      RoomyCreate(v.m, head.pid, head.size);
      AdmitSited(t);
    } else {
      NotAdmitted(v);
    }
  }

  lemma BirthOf(k: K.State, call: K.Step)
    requires k.running.Some? && K.Enabled(k, call) && call.CreateThread?
    ensures var pid := k.running.value.id.pid;
      pid in k.active && Created(k, call) == multiset{K.ThreadId(pid, k.active[pid])}
  {
    hide K.FreshTid;
  }

  lemma NobodyNew(k: K.State, call: K.Step)
    requires k.running.Some? && K.Enabled(k, call) && !call.CreateThread?
    requires IsSyscall(call) || call.SegmentationFault?
    ensures Created(k, call) == multiset{}
  {
    hide K.Enabled;
  }

  lemma SizesAfter(k: K.State, call: K.Step)
    requires Inv(k) && k.running.Some? && K.Enabled(k, call) && Sizes(k.pending)
    requires (IsSyscall(call) || call.SegmentationFault?) && (call.CreateProcess? ==> call.size > OFFSET)
    ensures Sizes(K.Apply(k, call).pending)
  {
    hide Core, Counted, K.Find, K.Pick, K.FindMutex, K.FreshTid, K.Owns, K.Awaited, Live, LivePids, K.UnlockJoinsFrom,
      K.ReleaseFrom;
    match call
    case ExitThread =>
      var x := k.running.value.id;
      var counts := if x.pid in k.active then k.active[x.pid := K.Decremented(k.active[x.pid])] else k.active;
      var r := k.(exited := k.exited + [k.running.value], active := counts);
      CoreIgnoresExit(k, r);
      HandoverKeeps(r, x);
    case ExitProcess => ExitedPending(k);
    case SegmentationFault => ExitedPending(k);
    case CancelThread(tid) => UnlockJoinsKeeps(k, 0, K.ThreadId(k.running.value.id.pid, tid));
    case _ =>
  }

  lemma {:induction false} ServeSited(v: Threads, call: K.Step)
    requires Inv(v.k) && Sited(v) && v.k.running.Some? && K.Enabled(v.k, call)
    requires (IsSyscall(call) || call.SegmentationFault?) && (call.CreateProcess? ==> call.size > OFFSET)
    ensures Sited(ServeThreads(v, call).value)
  {
    hide Inv, Racing, Roomy, Sizes, AdmitThreads, M.Delete, K.Apply, K.Enabled;
    var x := v.k.running.value.id;
    var t := v.(k := K.Apply(v.k, call));
    StepKeeps(v.k, call);
    SizesAfter(v.k, call);
    RoomyDelete(v.m, x.pid);
    if call.CreateThread? {
      BirthOf(v.k, call);
      RacingAfter(v, call, ServeThreads(v, call).value.regs);
    } else {
      NobodyNew(v.k, call);
      assert Racing(t) by { RacingAfter(v, call, v.regs); }
      var u := t.(m := M.Delete(v.m, x.pid));
      assert Racing(u) by { SameRacing(t, u); }
      if call.CreateProcess? {
        AdmitSited(t);
      } else if call.ExitProcess? {
        AdmitSited(u);
      }
    }
  }
}
