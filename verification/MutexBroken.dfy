/** Why nobody else may end under a member's TID: the two shipped workloads together, from start-up
    to a state in which two threads of the first are between lock and unlock at once. */
module MutexBroken {
  import opened Lists
  import opened Words
  import opened Cpu
  import opened KernelInvariant
  import opened WholeSystem
  import opened DynamicMemory
  import opened MutexScript
  import opened MutexFrame
  import opened MutexProgram
  import opened MutexFamily
  import opened MutexWorkload
  import opened MutexTurns
  import K = KernelState
  import M = Memory
  import P = Partitions

  /** Where the two processes lie. */
  predicate Settles(v: Threads, b0: Bounds, b1: Bounds) {
    && HomeOf(v.m, 0) == Some(b0) && HomeOf(v.m, 1) == Some(b1)
    && Fits(b0, v.bytes) && Fits(b1, v.bytes)
  }

  const FREE := K.Mutex(MUTEX, 0, false, -1, [], 0)

  function Held(tid: nat): K.Mutex {
    K.Mutex(MUTEX, 0, true, tid, [], 0)
  }

  lemma {:induction false} NobodyCalled(list: seq<K.Tcb>, x: K.ThreadId)
    requires forall i :: 0 <= i < |list| ==> list[i].id != x
    ensures !K.Has(list, x)
  {
  }

  // Syscalls in those states

  lemma {:induction false} Creates(v: Threads, t: K.Tcb, ready: seq<K.Tcb>, mutexes: seq<K.Mutex>, one: nat, two: nat)
    requires t.id.pid == 0 || t.id.pid == 1
    requires v.k == Scene(Some(t), ready, [], mutexes, one, two)
    requires var count := if t.id.pid == 0 then one else two;
      t.id.tid != count && forall i :: 0 <= i < |ready| ==> ready[i].id != Thread(t.id.pid, count)
    ensures var count := if t.id.pid == 0 then one else two;
      ServeThreads(v, K.CreateThread(0)) ==
        Some(v.(k := Scene(Some(t), ready + [Tcb(t.id.pid, count)], [], mutexes, if t.id.pid == 0 then one + 1 else one,
                           if t.id.pid == 0 then two else two + 1),
                regs := v.regs[Thread(t.id.pid, count) := Fresh]))
  {
    hide K.Find;
    var count := if t.id.pid == 0 then one else two;
    NobodyCalled(ready, Thread(t.id.pid, count));
    NobodyCalled([], Thread(t.id.pid, count));
    hide K.Has;
    assert K.Enabled(v.k, K.CreateThread(0));
    assert map[0 := one, 1 := two][0 := one + 1] == map[0 := one + 1, 1 := two];
    assert map[0 := one, 1 := two][1 := two + 1] == map[0 := one, 1 := two + 1];
  }

  lemma {:induction false} Locks(v: Threads, t: K.Tcb, ready: seq<K.Tcb>, exited: seq<K.Tcb>, one: nat, two: nat)
    requires t.id.pid == 0 && v.k == Scene(Some(t), ready, exited, [FREE], one, two)
    ensures ServeThreads(v, K.LockMutex(MUTEX))
      == Some(v.(k := Scene(Some(t), ready, exited, [Held(t.id.tid)], one, two)))
  {
    assert K.FindMutex([FREE], MUTEX) == 0;
    hide K.FindMutex, K.Awaited, K.Owns;
    assert [FREE][0 := Held(t.id.tid)] == [Held(t.id.tid)];
  }

  /** THREAD_EXIT of the other process's thread 1 frees the mutex that thread 1 of this one holds. */
  lemma {:induction false} Exits(v: Threads, ready: seq<K.Tcb>, one: nat)
    requires v.k == Scene(Some(Tcb(1, 1)), ready, [], [Held(1)], one, 2)
    ensures ServeThreads(v, K.Step.ExitThread) == Some(v.(k := Scene(None, ready, [Tcb(1, 1)], [FREE], one, 1)))
  {
    hide K.Find;
    var r := v.k.(exited := [] + [Tcb(1, 1)], active := v.k.active[1 := 1]);
    assert map[0 := one, 1 := 2][1 := 1] == map[0 := one, 1 := 1];
    assert K.FindMutex([Held(1)], MUTEX) == 0;
    hide K.FindMutex;
    assert [Held(1)][0 := FREE] == [FREE];
    var u := r.(mutexes := [FREE]);
    assert K.UnlockJoinsFrom(r, 0, Thread(1, 1)) == r;
    assert K.Unlock(r, MUTEX, 1) == u;
    assert K.ReleaseFrom(u, 1, 1) == u;
    assert K.ReleaseFrom(r, 0, 1) == u;
    assert K.Handover(r, Thread(1, 1)) == u;
    hide K.UnlockJoinsFrom, K.ReleaseFrom, K.Handover;
    assert K.DoExitThread(v.k) == u.(running := None);
    assert u.(running := None) == Scene(None, ready, [Tcb(1, 1)], [FREE], one, 1);
  }

  // The run, part by part

  /** Memory with the first process at the bottom takes the second one next to it. */
  lemma {:induction false} SecondPlace(m: M.State, tam: nat, size: nat, other: nat)
    requires Some(m) == M.TryCreate(Empty("FIRST", tam), 0, size) && size < tam && 0 < other
    requires size + other <= tam <= P.INT_MAX
    ensures var t := M.TryCreate(m, 1, other);
      t.Some? && HomeOf(t.value, 0) == Some(Bounds(0, size)) && HomeOf(t.value, 1) == Some(Bounds(size, size + other))
  {
    hide P.Select, M.SortByBase, P.BuildFrom;
    FirstCreated(Empty("FIRST", tam), 0, size);
    assert m == M.After(Empty("FIRST", tam), M.Create(0, size));
    var p, q := M.NewProc(0, 0, size), M.NewProc(1, size, other);
    SecondCreated(m, p, 1, other);
    var procs := M.After(m, M.Create(1, other)).procs;
    assert procs == [p, q] && m.procs == [p];
    assert procs[1..] == [q];
    assert M.FindProc(procs, 0) == 0 && M.FindProc(procs, 1) == 1;
  }

  /** PROCESS_CREATE by the first thread, admitted at once. */
  lemma {:induction false} SecondAdmitted(v: Threads, other: nat)
    requires v.k == FirstState(0).(running := Some(Tcb(0, 0)), ready := [], semThreads := 0)
    requires M.TryCreate(v.m, 1, other).Some?
    ensures ServeThreads(v, K.CreateProcess(other, 0)) ==
      Some(Threads(Scene(Some(Tcb(0, 0)), [Tcb(1, 0)], [], [], 1, 1), M.TryCreate(v.m, 1, other).value,
                   v.regs[Thread(1, 0) := Fresh], v.bytes))
  {
    hide M.TryCreate;
    var w := v.(k := K.DoCreateProcess(v.k, other, 0));
    var t := AttemptThreads(w).1;
    assert AttemptThreads(w).0 && t.k.pending == [];
    assert map[0 := 1][1 := 1] == map[0 := 1, 1 := 1];
    assert t.k == Scene(Some(Tcb(0, 0)), [Tcb(1, 0)], [], [], 1, 1);
    assert AdmitThreads(w) == AdmitThreads(t) == t;
  }

  lemma {:induction false} MutexAppears(v: Threads)
    requires v.k == Scene(Some(Tcb(0, 0)), [Tcb(1, 0)], [], [], 1, 1)
    ensures ServeThreads(v, K.CreateMutex(MUTEX))
      == Some(v.(k := Scene(Some(Tcb(0, 0)), [Tcb(1, 0)], [], [FREE], 1, 1)))
  {
    assert [] + [FREE] == [FREE];
  }

  /** The parent creates the other process, the mutex and two threads, and is interrupted. */
  lemma {:induction false} PartOne(program: Scripts, policy: K.Policy, f: Family, n: nat, c: u32, v: Threads,
                                   tam: nat, size: nat)
    returns (actions: seq<Action>, u: Threads)
    requires Shipped(program, f, n, c) && v.k == FirstState(0) && v.regs == map[Thread(0, 0) := Fresh]
    requires OFFSET < size < tam && 0 < f.otherSize && size + f.otherSize <= tam <= P.INT_MAX
    requires Some(v.m) == M.TryCreate(Empty("FIRST", tam), 0, size) && HomeOf(v.m, 0) == Some(Bounds(0, size))
    requires size + OFFSET + 4 <= |v.bytes| <= P.INT_MAX
    ensures Leads(program, v, actions, u)
    ensures u.k == Scene(None, [Tcb(1, 0), Tcb(0, 1), Tcb(0, 2), Tcb(0, 0)], [], [FREE], 3, 1)
    ensures Settles(u, Bounds(0, size), Bounds(size, size + f.otherSize))
    ensures Thread(1, 0) in u.regs && u.regs[Thread(1, 0)] == Fresh && Thread(0, 0) in u.regs
    ensures Thread(0, 1) in u.regs && u.regs[Thread(0, 1)] == Fresh && Thread(0, 2) in u.regs
    ensures u.regs[Thread(0, 2)] == Fresh
  {
    hide M.TryCreate, ServeThreads, HomeOf, ParentScript, WriteWord, Leads, Cycles, Script, RaceScript, RaceParent,
      M.Lookup;
    var b := Bounds(0, size);
    ParentStarts(f);
    OwnAt(v, Thread(0, 0), b);
    Storing(ParentScript(f), b, v.bytes);
    SecondPlace(v.m, tam, size, f.otherSize);
    var r := Fresh.(pc := 3, ax := OFFSET);
    var bytes := WriteWord(v.bytes, OFFSET, 0);
    var w := v.(k := v.k.(running := Some(Tcb(0, 0)), ready := [], semThreads := 0),
                regs := v.regs[Thread(0, 0) := r.(pc := 4)], bytes := bytes);
    SecondAdmitted(w, f.otherSize);
    var m := M.TryCreate(v.m, 1, f.otherSize).value;
    var regs := w.regs[Thread(1, 0) := Fresh];
    var u1 := Threads(Scene(Some(Tcb(0, 0)), [Tcb(1, 0)], [], [], 1, 1), m, regs, bytes);
    assert v.k.ready == [Tcb(0, 0)] + [];
    Calls(program, policy, v, Tcb(0, 0), [], 3, Context(r, 0, size), bytes, K.CreateProcess(f.otherSize, 0), u1);
    var rest;
    rest, u := PartOneEnds(program, f, u1, b);
    actions := [Schedule(policy)] + (Executes(3) + [Execute]) + rest;
    LeadsOn(program, v, [Schedule(policy)] + (Executes(3) + [Execute]), u1, rest, u);
  }

  lemma ParentStarts(f: Family)
    requires f.k >= 2
    ensures var s := ParentScript(f);
      && |s| > 7 && s[0] == Set(DX, 0) && s[1] == Set(AX, OFFSET) && s[2] == WriteMem(AX, DX)
      && s[3] == Syscall(K.CreateProcess(f.otherSize, f.otherPriority)) && s[4] == Syscall(K.CreateMutex(MUTEX))
      && s[5] == Syscall(K.CreateThread(f.priority)) && s[6] == Syscall(K.CreateThread(f.priority))
  {
    hide ParentScript;
    ParentLines(f, 0);
    forall i: nat | i < 7 ensures |ParentScript(f)| > 7 && ParentScript(f)[i] == ParentLine(f, i) {
      ParentLines(f, i);
    }
  }

  lemma {:induction false} PartOneEnds(program: Scripts, f: Family, v: Threads, b: Bounds)
    returns (actions: seq<Action>, u: Threads)
    requires f.k >= 2 && f.priority == 0 && program(Thread(0, 0)) == ParentScript(f)
    requires v.k == Scene(Some(Tcb(0, 0)), [Tcb(1, 0)], [], [], 1, 1) && HomeOf(v.m, 0) == Some(b)
    requires Thread(0, 0) in v.regs && v.regs[Thread(0, 0)].pc == 4
    ensures Leads(program, v, actions, u) && u.m == v.m && u.bytes == v.bytes
    ensures u.k == Scene(None, [Tcb(1, 0), Tcb(0, 1), Tcb(0, 2), Tcb(0, 0)], [], [FREE], 3, 1)
    ensures Thread(0, 0) in u.regs
    ensures (Thread(1, 0) in v.regs ==> Thread(1, 0) in u.regs && u.regs[Thread(1, 0)] == v.regs[Thread(1, 0)])
    ensures Thread(0, 1) in u.regs && u.regs[Thread(0, 1)] == Fresh && Thread(0, 2) in u.regs
    ensures u.regs[Thread(0, 2)] == Fresh
  {
    hide ServeThreads, HomeOf, ParentScript, Leads, M.Lookup;
    ParentStarts(f);
    var x, r := Thread(0, 0), v.regs[Thread(0, 0)];
    OwnAt(v, x, b);
    var w1 := v.(regs := v.regs[x := r.(pc := 5)]);
    MutexAppears(w1);
    var u1 := w1.(k := Scene(Some(Tcb(0, 0)), [Tcb(1, 0)], [], [FREE], 1, 1));
    RunsCall(program, v, x, K.CreateMutex(MUTEX), u1);
    var w2 := u1.(regs := u1.regs[x := r.(pc := 6)]);
    Creates(w2, Tcb(0, 0), [Tcb(1, 0)], [FREE], 1, 1);
    var u2 := w2.(k := Scene(Some(Tcb(0, 0)), [Tcb(1, 0)] + [Tcb(0, 1)], [], [FREE], 2, 1),
        regs := w2.regs[Thread(0, 1) := Fresh]);
    RunsCall(program, u1, x, K.CreateThread(0), u2);
    var w3 := u2.(regs := u2.regs[x := r.(pc := 7)]);
    Creates(w3, Tcb(0, 0), [Tcb(1, 0)] + [Tcb(0, 1)], [FREE], 2, 1);
    var u3 := w3.(k := Scene(Some(Tcb(0, 0)), [Tcb(1, 0)] + [Tcb(0, 1)] + [Tcb(0, 2)], [], [FREE], 3, 1),
                  regs := w3.regs[Thread(0, 2) := Fresh]);
    RunsCall(program, u2, x, K.CreateThread(0), u3);
    Interrupted(program, u3);
    u := u3.(k := Scene(None, [Tcb(1, 0), Tcb(0, 1), Tcb(0, 2), Tcb(0, 0)], [], [FREE], 3, 1));
    assert u3.(k := u3.k.(running := None, ready := u3.k.ready + [Tcb(0, 0)], semThreads := |u3.k.ready| + 1)) == u;
    LeadsOn(program, u2, [Execute], u3, [Interrupt], u);
    LeadsOn(program, u1, [Execute], u2, [Execute] + [Interrupt], u);
    LeadsOn(program, v, [Execute], u1, [Execute] + ([Execute] + [Interrupt]), u);
    actions := [Execute] + ([Execute] + ([Execute] + [Interrupt]));
  }

  /** The other workload's parent creates its thread 1. */
  lemma {:induction false} PartTwo(program: Scripts, policy: K.Policy, f: Family, n: nat, c: u32, v: Threads,
                                   b0: Bounds, b1: Bounds)
    returns (actions: seq<Action>, u: Threads)
    requires Shipped(program, f, n, c) && Settles(v, b0, b1)
    requires v.k == Scene(None, [Tcb(1, 0), Tcb(0, 1), Tcb(0, 2), Tcb(0, 0)], [], [FREE], 3, 1)
    requires Thread(1, 0) in v.regs && v.regs[Thread(1, 0)] == Fresh
    ensures Leads(program, v, actions, u) && Settles(u, b0, b1)
    ensures u.k == Scene(None, [Tcb(0, 1), Tcb(0, 2), Tcb(0, 0), Tcb(1, 1), Tcb(1, 0)], [], [FREE], 3, 2)
    ensures Thread(1, 1) in u.regs && u.regs[Thread(1, 1)] == Fresh
    ensures forall x :: x in v.regs && x.pid == 0 ==> x in u.regs && u.regs[x] == v.regs[x]
    ensures Thread(1, 0) in u.regs
  {
    hide ServeThreads, HomeOf, WriteWord, Leads, Cycles, Script, RaceScript, RaceParent, ParentScript, M.Lookup;
    RaceStarts(n);
    OwnAt(v, Thread(1, 0), b1);
    Storing(RaceParent(n, 0), b1, v.bytes);
    var r := Fresh.(pc := 3, ax := OFFSET);
    var bytes := WriteWord(v.bytes, b1.base + OFFSET, 0);
    var rest := [Tcb(0, 1), Tcb(0, 2), Tcb(0, 0)];
    assert v.k.ready == [Tcb(1, 0)] + rest;
    var w := v.(k := Scene(Some(Tcb(1, 0)), rest, [], [FREE], 3, 1),
                regs := v.regs[Thread(1, 0) := r.(pc := 4)], bytes := bytes);
    Creates(w, Tcb(1, 0), rest, [FREE], 3, 1);
    var u1 := w.(k := Scene(Some(Tcb(1, 0)), rest + [Tcb(1, 1)], [], [FREE], 3, 2),
        regs := w.regs[Thread(1, 1) := Fresh]);
    Calls(program, policy, v, Tcb(1, 0), rest, 3, Context(r, b1.base, b1.limite), bytes, K.CreateThread(0), u1);
    Interrupted(program, u1);
    u := u1.(k := Scene(None, [Tcb(0, 1), Tcb(0, 2), Tcb(0, 0), Tcb(1, 1), Tcb(1, 0)], [], [FREE], 3, 2));
    assert u1.(k := u1.k.(running := None, ready := u1.k.ready + [Tcb(1, 0)], semThreads := |u1.k.ready| + 1)) == u;
    actions := [Schedule(policy)] + (Executes(3) + [Execute]) + [Interrupt];
    LeadsOn(program, v, [Schedule(policy)] + (Executes(3) + [Execute]), u1, [Interrupt], u);
  }

  lemma RaceStarts(n: nat)
    requires n >= 1
    ensures var s := RaceParent(n, 0);
      && |s| > 3 && s[0] == Set(DX, 0) && s[1] == Set(AX, OFFSET) && s[2] == WriteMem(AX, DX)
      && s[3] == Syscall(K.CreateThread(0))
  {
  }

  /** A member takes the mutex. */
  lemma {:induction false} Enters(program: Scripts, policy: K.Policy, c: u32, v: Threads, t: K.Tcb, rest: seq<K.Tcb>,
                                  exited: seq<K.Tcb>,
                                  one: nat, two: nat, b0: Bounds, b1: Bounds)
    returns (actions: seq<Action>, u: Threads)
    requires c >= 1 && t.id.pid == 0 && program(t.id) == Script(c) && Settles(v, b0, b1) && t.priority == 0
    requires Level(rest)
    requires v.k == Scene(None, [t] + rest, exited, [FREE], one, two) && t.id in v.regs && v.regs[t.id] == Fresh
    ensures Leads(program, v, actions, u) && Settles(u, b0, b1)
    ensures u.k == Scene(Some(t), rest, exited, [Held(t.id.tid)], one, two)
    ensures t.id in u.regs && u.regs[t.id].pc == 6
    ensures forall x :: x in v.regs && x != t.id ==> x in u.regs && u.regs[x] == v.regs[x]
  {
    hide ServeThreads, HomeOf, Leads, Cycles, Script, M.Lookup;
    Lines(c);
    OwnAt(v, t.id, b0);
    UpToLock(c, b0, v.bytes);
    var r := Fresh.(pc := 5, ax := OFFSET, bx := 1, cx := c - 1);
    var w := v.(k := Scene(Some(t), rest, exited, [FREE], one, two), regs := v.regs[t.id := r.(pc := 6)]);
    Locks(w, t, rest, exited, one, two);
    u := w.(k := Scene(Some(t), rest, exited, [Held(t.id.tid)], one, two));
    Calls(program, policy, v, t, rest, 5, Context(r, b0.base, b0.limite), v.bytes, K.LockMutex(MUTEX), u);
    actions := [Schedule(policy)] + (Executes(5) + [Execute]);
  }

  /** Thread 1 of the first process takes the mutex and is interrupted; two others pass. */
  lemma {:induction false} PartThree(program: Scripts, policy: K.Policy, f: Family, n: nat, c: u32, v: Threads,
                                     b0: Bounds, b1: Bounds)
    returns (actions: seq<Action>, u: Threads)
    requires Shipped(program, f, n, c) && Settles(v, b0, b1)
    requires v.k == Scene(None, [Tcb(0, 1), Tcb(0, 2), Tcb(0, 0), Tcb(1, 1), Tcb(1, 0)], [], [FREE], 3, 2)
    requires Thread(0, 1) in v.regs && v.regs[Thread(0, 1)] == Fresh && Thread(0, 2) in v.regs && Thread(0, 0) in v.regs
    ensures Leads(program, v, actions, u) && Settles(u, b0, b1)
    ensures u.k == Scene(None, [Tcb(1, 1), Tcb(1, 0), Tcb(0, 1), Tcb(0, 2), Tcb(0, 0)], [], [Held(1)], 3, 2)
    ensures Thread(0, 1) in u.regs && u.regs[Thread(0, 1)].pc == 6
    ensures forall x :: x in v.regs && x != Thread(0, 1) ==> x in u.regs && u.regs[x] == v.regs[x]
  {
    hide HomeOf, Leads, Script, RaceScript, RaceParent, ParentScript, M.Lookup, Executes;
    var rest := [Tcb(0, 2), Tcb(0, 0), Tcb(1, 1), Tcb(1, 0)];
    assert v.k.ready == [Tcb(0, 1)] + rest;
    var first, u1 := Enters(program, policy, f.c, v, Tcb(0, 1), rest, [], 3, 2, b0, b1);
    Interrupted(program, u1);
    var u2 := u1.(k := Scene(None, [Tcb(0, 2), Tcb(0, 0), Tcb(1, 1), Tcb(1, 0), Tcb(0, 1)], [], [Held(1)], 3, 2));
    assert u1.(k := u1.k.(running := None, ready := u1.k.ready + [Tcb(0, 1)], semThreads := |u1.k.ready| + 1)) == u2;
    LeadsOn(program, v, first, u1, [Interrupt], u2);
    OwnAt(u2, Thread(0, 2), b0);
    OwnAt(u2, Thread(0, 0), b0);
    assert u2.k.ready == [Tcb(0, 2)] + [Tcb(0, 0), Tcb(1, 1), Tcb(1, 0), Tcb(0, 1)];
    Skips(program, policy, u2, Tcb(0, 2), [Tcb(0, 0), Tcb(1, 1), Tcb(1, 0), Tcb(0, 1)]);
    var u3 := u2.(k := Scene(None, [Tcb(0, 0), Tcb(1, 1), Tcb(1, 0), Tcb(0, 1), Tcb(0, 2)], [], [Held(1)], 3, 2));
    assert u2.(k := u2.k.(ready := [Tcb(0, 0), Tcb(1, 1), Tcb(1, 0), Tcb(0, 1)] + [Tcb(0, 2)])) == u3;
    assert u3.k.ready == [Tcb(0, 0)] + [Tcb(1, 1), Tcb(1, 0), Tcb(0, 1), Tcb(0, 2)];
    Skips(program, policy, u3, Tcb(0, 0), [Tcb(1, 1), Tcb(1, 0), Tcb(0, 1), Tcb(0, 2)]);
    u := u3.(k := Scene(None, [Tcb(1, 1), Tcb(1, 0), Tcb(0, 1), Tcb(0, 2), Tcb(0, 0)], [], [Held(1)], 3, 2));
    assert u3.(k := u3.k.(ready := [Tcb(1, 1), Tcb(1, 0), Tcb(0, 1), Tcb(0, 2)] + [Tcb(0, 0)])) == u;
    var skip := [Schedule(policy)] + (Executes(0) + [Interrupt]);
    LeadsOn(program, u2, skip, u3, skip, u);
    LeadsOn(program, v, first + [Interrupt], u2, skip + skip, u);
    actions := (first + [Interrupt]) + (skip + skip);
  }

  /** The other process's thread 1 runs to its end. */
  lemma {:induction false} PartFour(program: Scripts, policy: K.Policy, f: Family, n: nat, c: u32, v: Threads,
                                    b0: Bounds, b1: Bounds)
    returns (actions: seq<Action>, u: Threads)
    requires Shipped(program, f, n, c) && Settles(v, b0, b1)
    requires v.k == Scene(None, [Tcb(1, 1), Tcb(1, 0), Tcb(0, 1), Tcb(0, 2), Tcb(0, 0)], [], [Held(1)], 3, 2)
    requires Thread(1, 1) in v.regs && v.regs[Thread(1, 1)] == Fresh
    ensures Leads(program, v, actions, u) && Settles(u, b0, b1)
    ensures u.k == Scene(None, [Tcb(1, 0), Tcb(0, 1), Tcb(0, 2), Tcb(0, 0)], [Tcb(1, 1)], [FREE], 3, 1)
    ensures forall x :: x in v.regs && x != Thread(1, 1) ==> x in u.regs && u.regs[x] == v.regs[x]
  {
    hide ServeThreads, HomeOf, Leads, Cycles, Script, RaceScript, RaceParent, ParentScript, M.Lookup, Executes;
    RaceLines(c);
    OwnAt(v, Thread(1, 1), b1);
    UpToExit(c, b1, v.bytes);
    var o := Cycles(RaceScript(c), Context(Fresh, b1.base, b1.limite), v.bytes, 4 + 5 * c);
    var rest := [Tcb(1, 0), Tcb(0, 1), Tcb(0, 2), Tcb(0, 0)];
    assert v.k.ready == [Tcb(1, 1)] + rest;
    var w := v.(k := Scene(Some(Tcb(1, 1)), rest, [], [Held(1)], 3, 2),
                regs := v.regs[Thread(1, 1) := o.context.regs.(pc := 10)], bytes := o.mem);
    Exits(w, rest, 3);
    u := w.(k := Scene(None, rest, [Tcb(1, 1)], [FREE], 3, 1));
    Calls(program, policy, v, Tcb(1, 1), rest, 4 + 5 * c, o.context, o.mem, K.Step.ExitThread, u);
    actions := [Schedule(policy)] + (Executes(4 + 5 * c) + [Execute]);
  }

  /** Two pass, and thread 2 of the first process takes the mutex that thread 1 was holding. */
  lemma {:induction false} PartFive(program: Scripts, policy: K.Policy, f: Family, n: nat, c: u32, v: Threads,
                                    b0: Bounds, b1: Bounds)
    returns (actions: seq<Action>, u: Threads)
    requires Shipped(program, f, n, c) && Settles(v, b0, b1)
    requires v.k == Scene(None, [Tcb(1, 0), Tcb(0, 1), Tcb(0, 2), Tcb(0, 0)], [Tcb(1, 1)], [FREE], 3, 1)
    requires Thread(1, 0) in v.regs && Thread(0, 1) in v.regs && v.regs[Thread(0, 1)].pc == 6
    requires Thread(0, 2) in v.regs && v.regs[Thread(0, 2)] == Fresh
    ensures Leads(program, v, actions, u) && Settles(u, b0, b1)
    ensures u.k == Scene(Some(Tcb(0, 2)), [Tcb(0, 0), Tcb(1, 0), Tcb(0, 1)], [Tcb(1, 1)], [Held(2)], 3, 1)
    ensures Thread(0, 1) in u.regs && u.regs[Thread(0, 1)].pc == 6
    ensures Thread(0, 2) in u.regs && u.regs[Thread(0, 2)].pc == 6
  {
    hide HomeOf, Leads, Script, RaceScript, RaceParent, ParentScript, M.Lookup, Executes;
    OwnAt(v, Thread(1, 0), b1);
    OwnAt(v, Thread(0, 1), b0);
    assert v.k.ready == [Tcb(1, 0)] + [Tcb(0, 1), Tcb(0, 2), Tcb(0, 0)];
    Skips(program, policy, v, Tcb(1, 0), [Tcb(0, 1), Tcb(0, 2), Tcb(0, 0)]);
    var u1 := v.(k := Scene(None, [Tcb(0, 1), Tcb(0, 2), Tcb(0, 0), Tcb(1, 0)], [Tcb(1, 1)], [FREE], 3, 1));
    assert v.(k := v.k.(ready := [Tcb(0, 1), Tcb(0, 2), Tcb(0, 0)] + [Tcb(1, 0)])) == u1;
    assert u1.k.ready == [Tcb(0, 1)] + [Tcb(0, 2), Tcb(0, 0), Tcb(1, 0)];
    Skips(program, policy, u1, Tcb(0, 1), [Tcb(0, 2), Tcb(0, 0), Tcb(1, 0)]);
    var rest := [Tcb(0, 0), Tcb(1, 0), Tcb(0, 1)];
    var u2 := v.(k := Scene(None, [Tcb(0, 2)] + rest, [Tcb(1, 1)], [FREE], 3, 1));
    assert u1.(k := u1.k.(ready := [Tcb(0, 2), Tcb(0, 0), Tcb(1, 0)] + [Tcb(0, 1)])) == u2;
    var last;
    last, u := Enters(program, policy, f.c, u2, Tcb(0, 2), rest, [Tcb(1, 1)], 3, 1, b0, b1);
    var skip := [Schedule(policy)] + (Executes(0) + [Interrupt]);
    LeadsOn(program, v, skip, u1, skip, u2);
    LeadsOn(program, v, skip + skip, u2, last, u);
    actions := (skip + skip) + last;
  }

  lemma {:induction false} WholeRun(program: Scripts, policy: K.Policy, f: Family, n: nat, c: u32, v: Threads,
                                    tam: nat, size: nat)
    returns (actions: seq<Action>, u: Threads)
    requires Shipped(program, f, n, c) && v.k == FirstState(0) && v.regs == map[Thread(0, 0) := Fresh]
    requires OFFSET < size < tam && 0 < f.otherSize && size + f.otherSize <= tam <= P.INT_MAX
    requires Some(v.m) == M.TryCreate(Empty("FIRST", tam), 0, size) && HomeOf(v.m, 0) == Some(Bounds(0, size))
    requires size + OFFSET + 4 <= |v.bytes| <= P.INT_MAX
    ensures Leads(program, v, actions, u) && HomeOf(u.m, 0) == Some(Bounds(0, size))
    ensures u.k == Scene(Some(Tcb(0, 2)), [Tcb(0, 0), Tcb(1, 0), Tcb(0, 1)], [Tcb(1, 1)], [Held(2)], 3, 1)
    ensures Thread(0, 1) in u.regs && u.regs[Thread(0, 1)].pc == 6
    ensures Thread(0, 2) in u.regs && u.regs[Thread(0, 2)].pc == 6
  {
    hide Leads, HomeOf, M.TryCreate, Script, RaceScript, RaceParent, ParentScript, Scene, Shipped;
    var b0, b1 := Bounds(0, size), Bounds(size, size + f.otherSize);
    var a1, u1 := PartOne(program, policy, f, n, c, v, tam, size);
    var a2, u2 := PartTwo(program, policy, f, n, c, u1, b0, b1);
    var a3, u3 := PartThree(program, policy, f, n, c, u2, b0, b1);
    var a4, u4 := PartFour(program, policy, f, n, c, u3, b0, b1);
    var a5, u5 := PartFive(program, policy, f, n, c, u4, b0, b1);
    LeadsOn(program, v, a1, u1, a2, u2);
    LeadsOn(program, v, a1 + a2, u2, a3, u3);
    LeadsOn(program, v, a1 + a2 + a3, u3, a4, u4);
    LeadsOn(program, v, a1 + a2 + a3 + a4, u4, a5, u5);
    actions, u := a1 + a2 + a3 + a4 + a5, u5;
  }

  /** The two shipped workloads together, with equal priorities and interruptions, whatever the policy
      (the code interrupts under CMN alone): in some run from start-up thread 1 of the second process ends
      while thread 1 of the first holds the mutex, and threads 1 and 2 of the first are then between lock
      and unlock at once, neither of them blocked. */
  lemma {:induction false} SharedTidsBreakExclusion(program: Scripts, policy: K.Policy, f: Family, n: nat, c: u32,
                                                    tam: nat, size: nat, cpu: Context, bytes: seq<byte>)
    returns (actions: seq<Action>)
    requires Shipped(program, f, n, c)
    requires OFFSET < size < tam && 0 < f.otherSize && size + f.otherSize <= tam <= P.INT_MAX
    requires size + OFFSET + 4 <= |bytes| <= P.INT_MAX
    ensures var s := Power(OneHole(tam, size, 0, cpu, bytes)); var st := SettingOf(f, Bounds(0, size));
      && ActAll(program, s, actions).Some?
      && Critical(st, ActAll(program, s, actions).value, Thread(0, 1))
      && Critical(st, ActAll(program, s, actions).value, Thread(0, 2))
  {
    hide Power, PowerThreads, ActAll, ActAllThreads, Agree, HomeOf, M.TryCreate, Sensible, ContextOf, Live, Script,
      RaceScript, RaceParent,
      ParentScript;
    var start := OneHole(tam, size, 0, cpu, bytes);
    OneHoleSensible(tam, size, 0, cpu, bytes);
    PowerAgrees(start, []);
    FirstAdmitted(tam, size, 0, cpu, bytes);
    var u;
    actions, u := WholeRun(program, policy, f, n, c, PowerThreads(start), tam, size);
    SystemRefinesThreads(program, Power(start), PowerThreads(start), [], actions);
    var t := ActAll(program, Power(start), actions).value;
    AgreeOnKernel(t, u, []);
    assert Thread(0, 1) in Live(t.k) && Thread(0, 2) in Live(t.k) by { BothAlive(t.k); }
    ParentRegisters(t, u, [], Thread(0, 1));
    ParentRegisters(t, u, [], Thread(0, 2));
  }

  lemma BothAlive(k: K.State)
    requires k == Scene(Some(Tcb(0, 2)), [Tcb(0, 0), Tcb(1, 0), Tcb(0, 1)], [Tcb(1, 1)], [Held(2)], 3, 1)
    ensures Thread(0, 1) in Live(k) && Thread(0, 2) in Live(k)
  {
    assert Ids(k.ready)[2] == Thread(0, 1);
    assert Ids(k.ready)[2] in multiset(Ids(k.ready));
    RunningIsLive(k);
  }
}
