/** The shipped scripts by themselves, and turns of threads one after another: the pieces of a concrete
    run of the whole system. */
module MutexTurns {
  import opened Lists
  import opened Words
  import opened Cpu
  import opened WholeSystem
  import opened MutexScript
  import opened MutexFrame
  import opened MutexFamily
  import opened MutexWorkload
  import K = KernelState
  import M = Memory

  // The other workload

  /** RECURSOS_RACE_PROC, which has n = 4 threads of priority 5. */
  function RaceParent(n: nat, priority: nat): seq<Instr> {
    [Set(DX, 0), Set(AX, OFFSET), WriteMem(AX, DX)]
    + seq(n, _ => Syscall(K.CreateThread(priority)))
    + seq(n, (i: nat) => Syscall(K.JoinThread(i + 1)))
    + [Set(AX, OFFSET), ReadMem(DX, AX), Log(DX), Syscall(K.ExitProcess)]
  }

  /** RECURSOS_RACE_THREAD, which has c = 10. */
  function RaceScript(c: u32): seq<Instr> {
    [Set(DX, 0), Set(AX, OFFSET), Set(CX, c), Set(BX, 1),
     Sub(CX, BX), ReadMem(DX, AX), Sum(DX, BX), WriteMem(AX, DX), Jnz(CX, 4), Syscall(K.ExitThread)]
  }

  function Thread(pid: nat, tid: nat): K.ThreadId {
    K.ThreadId(pid, tid)
  }

  /** Both workloads, with at least two and one threads. */
  ghost predicate Shipped(program: Scripts, f: Family, n: nat, c: u32) {
    && f.pid == 0 && f.k >= 2 && f.c >= 1 && f.priority == 0 && f.otherPriority == 0
    && n >= 1 && c >= 1
    && program(Thread(0, 0)) == ParentScript(f)
    && program(Thread(0, 1)) == Script(f.c) && program(Thread(0, 2)) == Script(f.c)
    && program(Thread(1, 0)) == RaceParent(n, 0) && program(Thread(1, 1)) == RaceScript(c)
  }

  // What the scripts do on their own

  lemma {:induction false} OneCycle(script: seq<Instr>, c: Context, bytes: seq<byte>, n: nat)
    requires Cycle(script, c, bytes).Next?
    ensures var o := Cycle(script, c, bytes); Cycles(script, c, bytes, n + 1) == Cycles(script, o.context, o.mem, n)
  {
  }

  lemma {:induction false} NoCycle(script: seq<Instr>, c: Context, bytes: seq<byte>)
    ensures Cycles(script, c, bytes, 0) == Next(c, bytes)
  {
  }

  /** A script that begins by setting DX and AX and storing the one at the other. */
  lemma {:induction false} Storing(script: seq<Instr>, b: Bounds, bytes: seq<byte>)
    requires |script| > 3 && script[0] == Set(DX, 0) && script[1] == Set(AX, OFFSET) && script[2] == WriteMem(AX, DX)
    requires Fits(b, bytes)
    ensures Cycles(script, Context(Fresh, b.base, b.limite), bytes, 3)
      == Next(Context(Fresh.(pc := 3, ax := OFFSET), b.base, b.limite), WriteWord(bytes, b.base + OFFSET, 0))
  {
    hide WriteWord, Translate, Cycles;
    var c0, c1 := Context(Fresh, b.base, b.limite), Context(Fresh.(pc := 1), b.base, b.limite);
    var c2 := Context(Fresh.(pc := 2, ax := OFFSET), b.base, b.limite);
    var c3 := Context(Fresh.(pc := 3, ax := OFFSET), b.base, b.limite);
    Addressed(b, c3.regs, bytes);
    OneCycle(script, c0, bytes, 2);
    OneCycle(script, c1, bytes, 1);
    OneCycle(script, c2, bytes, 0);
    NoCycle(script, c3, WriteWord(bytes, b.base + OFFSET, 0));
  }

  /** A member up to its lock. */
  lemma {:induction false} UpToLock(c: u32, b: Bounds, bytes: seq<byte>)
    requires c >= 1
    ensures Cycles(Script(c), Context(Fresh, b.base, b.limite), bytes, 5)
      == Next(Context(Fresh.(pc := 5, ax := OFFSET, bx := 1, cx := c - 1), b.base, b.limite), bytes)
  {
    hide Cycles, Script;
    Lines(c);
    var c0, c1 := Context(Fresh, b.base, b.limite), Context(Fresh.(pc := 1), b.base, b.limite);
    var c2 := Context(Fresh.(pc := 2, ax := OFFSET), b.base, b.limite);
    var c3 := Context(Fresh.(pc := 3, ax := OFFSET, cx := c), b.base, b.limite);
    var c4 := Context(Fresh.(pc := 4, ax := OFFSET, cx := c, bx := 1), b.base, b.limite);
    var c5 := Context(Fresh.(pc := 5, ax := OFFSET, cx := c - 1, bx := 1), b.base, b.limite);
    OneCycle(Script(c), c0, bytes, 4);
    OneCycle(Script(c), c1, bytes, 3);
    OneCycle(Script(c), c2, bytes, 2);
    OneCycle(Script(c), c3, bytes, 1);
    OneCycle(Script(c), c4, bytes, 0);
    NoCycle(Script(c), c5, bytes);
  }

  lemma RaceLines(c: u32)
    ensures var s := RaceScript(c);
      && |s| == 10
      && s[0] == Set(DX, 0) && s[1] == Set(AX, OFFSET) && s[2] == Set(CX, c) && s[3] == Set(BX, 1)
      && s[4] == Sub(CX, BX) && s[5] == ReadMem(DX, AX) && s[6] == Sum(DX, BX) && s[7] == WriteMem(AX, DX)
      && s[8] == Jnz(CX, 4) && s[9] == Syscall(K.ExitThread)
  {
  }

  predicate Looping(r: Registers) {
    r.ax == OFFSET && r.bx == 1
  }

  /** One round of the race thread's loop. */
  lemma {:induction false} RaceRound(c: u32, b: Bounds, r: Registers, bytes: seq<byte>)
    requires r.pc == 4 && r.cx >= 1 && Looping(r) && Fits(b, bytes)
    ensures var o := Cycles(RaceScript(c), Context(r, b.base, b.limite), bytes, 5);
      && o.Next? && |o.mem| == |bytes| && o.context.base == b.base && o.context.limite == b.limite
      && Looping(o.context.regs) && o.context.regs.cx == r.cx - 1
      && o.context.regs.pc == if r.cx == 1 then 9 else 4
  {
    hide Cycles, RaceScript, Translate, ReadWord, WriteWord;
    RaceLines(c);
    var s := RaceScript(c);
    var word := ReadWord(bytes, b.base + OFFSET);
    var c0 := Context(r, b.base, b.limite);
    var c1 := Context(r.(pc := 5, cx := r.cx - 1), b.base, b.limite);
    var c2 := Context(r.(pc := 6, cx := r.cx - 1, dx := word), b.base, b.limite);
    var more: u32 := (word as int + 1) % 0x1_0000_0000;
    var c3 := Context(r.(pc := 7, cx := r.cx - 1, dx := more), b.base, b.limite);
    var c4 := Context(c3.regs.(pc := 8), b.base, b.limite);
    var after := WriteWord(bytes, b.base + OFFSET, c3.regs.dx);
    Addressed(b, Fetched(c1).regs, bytes);
    Addressed(b, c4.regs, bytes);
    OneCycle(s, c0, bytes, 4);
    OneCycle(s, c1, bytes, 3);
    OneCycle(s, c2, bytes, 2);
    OneCycle(s, c3, bytes, 1);
    OneCycle(s, c4, after, 0);
    NoCycle(s, Cycle(s, c4, after).context, after);
  }

  lemma {:induction false} RaceRounds(c: u32, b: Bounds, r: Registers, bytes: seq<byte>)
    requires r.pc == 4 && r.cx >= 1 && Looping(r) && Fits(b, bytes)
    ensures var o := Cycles(RaceScript(c), Context(r, b.base, b.limite), bytes, 5 * r.cx);
      && o.Next? && |o.mem| == |bytes| && o.context.base == b.base && o.context.limite == b.limite
      && o.context.regs.pc == 9
    decreases r.cx
  {
    hide Cycles, RaceScript;
    RaceRound(c, b, r, bytes);
    if r.cx > 1 {
      var o := Cycles(RaceScript(c), Context(r, b.base, b.limite), bytes, 5);
      RaceRounds(c, b, o.context.regs, o.mem);
      CyclesCompose(RaceScript(c), Context(r, b.base, b.limite), bytes, 5, 5 * (r.cx - 1));
    }
  }

  /** A race thread up to its THREAD_EXIT. */
  lemma {:induction false} UpToExit(c: u32, b: Bounds, bytes: seq<byte>)
    requires c >= 1 && Fits(b, bytes)
    ensures var o := Cycles(RaceScript(c), Context(Fresh, b.base, b.limite), bytes, 4 + 5 * c);
      && o.Next? && |o.mem| == |bytes| && o.context.regs.pc == 9
  {
    hide Cycles, RaceScript;
    RaceLines(c);
    var s := RaceScript(c);
    var c0, c1 := Context(Fresh, b.base, b.limite), Context(Fresh.(pc := 1), b.base, b.limite);
    var c2 := Context(Fresh.(pc := 2, ax := OFFSET), b.base, b.limite);
    var c3 := Context(Fresh.(pc := 3, ax := OFFSET, cx := c), b.base, b.limite);
    var c4 := Context(Fresh.(pc := 4, ax := OFFSET, cx := c, bx := 1), b.base, b.limite);
    OneCycle(s, c0, bytes, 3 + 5 * c);
    OneCycle(s, c1, bytes, 2 + 5 * c);
    OneCycle(s, c2, bytes, 1 + 5 * c);
    OneCycle(s, c3, bytes, 5 * c);
    RaceRounds(c, b, c4.regs, bytes);
  }

  // Actions one after the other

  ghost predicate Leads(program: Scripts, v: Threads, actions: seq<Action>, u: Threads) {
    ActAllThreads(program, v, actions) == Some(u)
  }

  lemma LeadsOne(program: Scripts, v: Threads, a: Action, u: Threads)
    requires ActThreads(program, v, a) == Some(u)
    ensures Leads(program, v, [a], u)
  {
    hide ActThreads;
    assert [a][1..] == [];
    assert ActAllThreads(program, u, []) == Some(u);
  }

  lemma {:induction false} LeadsOn(program: Scripts, v: Threads, a: seq<Action>, u: Threads, b: seq<Action>, w: Threads)
    requires Leads(program, v, a, u) && Leads(program, u, b, w)
    ensures Leads(program, v, a + b, w)
    decreases |a|
  {
    hide ActThreads;
    if a == [] {
      assert a + b == b;
    } else {
      assert (a + b)[0] == a[0] && (a + b)[1..] == a[1..] + b;
      LeadsOn(program, ActThreads(program, v, a[0]).value, a[1..], u, b, w);
    }
  }

  /** Plain instructions of the running thread. */
  lemma {:induction false} LeadsPlain(program: Scripts, v: Threads, x: K.ThreadId, n: nat, c: Context, bytes: seq<byte>)
    requires v.k.running.Some? && v.k.running.value.id == x && x in v.regs && M.Lookup(v.m.procs, x.pid).Some?
    requires Cycles(program(x), Own(v, x), v.bytes, n) == Next(c, bytes)
    ensures Leads(program, v, Executes(n), v.(regs := v.regs[x := c.regs], bytes := bytes))
    decreases n
  {
    hide M.Lookup, Cycle;
    if n == 0 {
      assert v.regs[x := c.regs] == v.regs;
    } else {
      var o := Cycle(program(x), Own(v, x), v.bytes);
      CycleKeepsBounds(program(x), Own(v, x), v.bytes);
      var u := v.(regs := v.regs[x := o.context.regs], bytes := o.mem);
      assert Own(u, x) == o.context;
      LeadsPlain(program, u, x, n - 1, c, bytes);
      assert u.regs[x := c.regs] == v.regs[x := c.regs];
      LeadsOne(program, v, Execute, u);
      LeadsOn(program, v, [Execute], u, Executes(n - 1), v.(regs := v.regs[x := c.regs], bytes := bytes));
    }
  }

  // The kernel's states on the way

  lemma OwnAt(v: Threads, x: K.ThreadId, b: Bounds)
    requires x in v.regs && HomeOf(v.m, x.pid) == Some(b)
    ensures M.Lookup(v.m.procs, x.pid).Some? && Own(v, x) == Context(v.regs[x], b.base, b.limite)
  {
    hide M.FindProc;
  }

  function Tcb(pid: nat, tid: nat): K.Tcb {
    K.Tcb(Thread(pid, tid), 0)
  }

  /** Two admitted processes, with those thread counts. */
  function Scene(running: Option<K.Tcb>, ready: seq<K.Tcb>, exited: seq<K.Tcb>, mutexes: seq<K.Mutex>, one: nat,
                 two: nat): K.State {
    K.Boot.(running := running, ready := ready, exited := exited, semThreads := |ready|, mutexes := mutexes,
            active := map[0 := one, 1 := two], nextPid := 2)
  }

  predicate Level(ready: seq<K.Tcb>) {
    forall i :: 0 <= i < |ready| ==> ready[i].priority == 0
  }

  /** With equal priorities every policy takes the head. */
  lemma {:induction false} TakesHead(policy: K.Policy, ready: seq<K.Tcb>)
    requires ready != [] && Level(ready)
    ensures K.Pick(policy, ready) == 0
  {
    var i := K.Pick(policy, ready);
    assert ready[i].priority == 0 && ready[0].priority == 0;
  }

  lemma {:induction false} Dispatches(program: Scripts, policy: K.Policy, v: Threads, t: K.Tcb, rest: seq<K.Tcb>)
    requires v.k.running.None? && v.k.ready == [t] + rest && v.k.semThreads == |v.k.ready| && Level(v.k.ready)
    ensures Leads(program, v, [Schedule(policy)],
                  v.(k := v.k.(running := Some(t), ready := rest, semThreads := |rest|)))
  {
    TakesHead(policy, v.k.ready);
    hide K.Pick;
    assert RemoveAt([t] + rest, 0) == rest;
    LeadsOne(program, v, Schedule(policy), v.(k := v.k.(running := Some(t), ready := rest, semThreads := |rest|)));
  }

  lemma {:induction false} Interrupted(program: Scripts, v: Threads)
    requires v.k.running.Some? && v.k.semThreads == |v.k.ready|
    ensures Leads(program, v, [Interrupt],
                  v.(k := v.k.(running := None, ready := v.k.ready + [v.k.running.value],
                               semThreads := |v.k.ready| + 1)))
  {
    LeadsOne(program, v, Interrupt, v.(k := K.DoPreempt(v.k)));
  }

  /** A turn of plain instructions, or of none. */
  lemma {:induction false} Turns(program: Scripts, policy: K.Policy, v: Threads, t: K.Tcb, rest: seq<K.Tcb>, n: nat,
                                 c: Context, bytes: seq<byte>)
    requires v.k.running.None? && v.k.ready == [t] + rest && v.k.semThreads == |v.k.ready| && Level(v.k.ready)
    requires t.id in v.regs && M.Lookup(v.m.procs, t.id.pid).Some?
    requires Cycles(program(t.id), Own(v, t.id), v.bytes, n) == Next(c, bytes)
    ensures Leads(program, v, [Schedule(policy)] + (Executes(n) + [Interrupt]),
                  v.(k := v.k.(ready := rest + [t]), regs := v.regs[t.id := c.regs], bytes := bytes))
  {
    hide Leads, M.Lookup, Cycles;
    var v1 := v.(k := v.k.(running := Some(t), ready := rest, semThreads := |rest|));
    var v2 := v1.(regs := v.regs[t.id := c.regs], bytes := bytes);
    var v3 := v.(k := v.k.(ready := rest + [t]), regs := v.regs[t.id := c.regs], bytes := bytes);
    Dispatches(program, policy, v, t, rest);
    assert Own(v1, t.id) == Own(v, t.id);
    LeadsPlain(program, v1, t.id, n, c, bytes);
    Interrupted(program, v2);
    assert v2.(k := v2.k.(running := None, ready := v2.k.ready + [v2.k.running.value],
                          semThreads := |v2.k.ready| + 1)) == v3;
    LeadsOn(program, v1, Executes(n), v2, [Interrupt], v3);
    LeadsOn(program, v, [Schedule(policy)], v1, Executes(n) + [Interrupt], v3);
  }

  lemma {:induction false} Skips(program: Scripts, policy: K.Policy, v: Threads, t: K.Tcb, rest: seq<K.Tcb>)
    requires v.k.running.None? && v.k.ready == [t] + rest && v.k.semThreads == |v.k.ready| && Level(v.k.ready)
    requires t.id in v.regs && M.Lookup(v.m.procs, t.id.pid).Some?
    ensures Leads(program, v, [Schedule(policy)] + (Executes(0) + [Interrupt]), v.(k := v.k.(ready := rest + [t])))
  {
    hide Leads, M.Lookup;
    NoCycle(program(t.id), Own(v, t.id), v.bytes);
    Turns(program, policy, v, t, rest, 0, Own(v, t.id), v.bytes);
    assert v.regs[t.id := v.regs[t.id]] == v.regs;
  }

  /** A turn that ends in a syscall, as far as the syscall. */
  lemma {:induction false} Calls(program: Scripts, policy: K.Policy, v: Threads, t: K.Tcb, rest: seq<K.Tcb>, n: nat,
                                 c: Context,
                                 bytes: seq<byte>, call: K.Step, u: Threads)
    requires v.k.running.None? && v.k.ready == [t] + rest && v.k.semThreads == |v.k.ready| && Level(v.k.ready)
    requires t.id in v.regs && M.Lookup(v.m.procs, t.id.pid).Some?
    requires Cycles(program(t.id), Own(v, t.id), v.bytes, n) == Next(c, bytes)
    requires c.regs.pc < 0xFFFF_FFFF && c.regs.pc < |program(t.id)| && program(t.id)[c.regs.pc] == Syscall(call)
    requires IsSyscall(call)
    requires var w := v.(k := v.k.(running := Some(t), ready := rest, semThreads := |rest|),
                         regs := v.regs[t.id := c.regs.(pc := c.regs.pc + 1)], bytes := bytes);
      ServeThreads(w, call) == Some(u)
    ensures Leads(program, v, [Schedule(policy)] + (Executes(n) + [Execute]), u)
  {
    hide Leads, M.Lookup, Cycles, ServeThreads;
    var v1 := v.(k := v.k.(running := Some(t), ready := rest, semThreads := |rest|));
    var v2 := v1.(regs := v.regs[t.id := c.regs], bytes := bytes);
    Dispatches(program, policy, v, t, rest);
    assert Own(v1, t.id) == Own(v, t.id);
    LeadsPlain(program, v1, t.id, n, c, bytes);
    var moved := c.regs.(pc := c.regs.pc + 1);
    assert v2.regs[t.id := moved] == v.regs[t.id := moved];
    RunsCall(program, v2, t.id, call, u);
    LeadsOn(program, v1, Executes(n), v2, [Execute], u);
    LeadsOn(program, v, [Schedule(policy)], v1, Executes(n) + [Execute], u);
  }

  /** A syscall of the running thread. */
  lemma {:induction false} RunsCall(program: Scripts, v: Threads, x: K.ThreadId, call: K.Step, u: Threads)
    requires v.k.running.Some? && v.k.running.value.id == x && x in v.regs && M.Lookup(v.m.procs, x.pid).Some?
    requires IsSyscall(call)
    requires var pc := v.regs[x].pc; pc < 0xFFFF_FFFF && pc < |program(x)| && program(x)[pc] == Syscall(call)
    requires ServeThreads(v.(regs := v.regs[x := v.regs[x].(pc := v.regs[x].pc + 1)]), call) == Some(u)
    ensures Leads(program, v, [Execute], u)
  {
    hide M.Lookup, ServeThreads, IsSyscall, Leads;
    LeadsOne(program, v, Execute, u);
  }
}
