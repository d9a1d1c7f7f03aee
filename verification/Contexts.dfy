/** Execution contexts kept in the memory module: saving, loading, and switching between threads. */
module Contexts {
  import opened Lists
  import opened Words
  import opened Cpu
  import opened Partitions
  import opened LocalEdits
  import opened Memory
  import opened DynamicMemory
  import opened FixedMemory

  /** In the dynamic scheme the process list is always left in base order. */
  predicate Settled(m: State) {
    m.scheme.Dinamicas? ==> SortedByBase(m.procs)
  }

  // Where a process is found after its list changed

  lemma {:induction false} LookupInsert(procs: seq<Proc>, p: Proc, pid: nat)
    requires p.pid != pid
    ensures Lookup(InsertByBase(procs, p), pid) == Lookup(procs, pid)
  {
    if procs == [] || p.base < procs[0].base {
      LookupCons(p, procs, pid);
    } else {
      LookupInsert(procs[1..], p, pid);
      LookupCons(procs[0], InsertByBase(procs[1..], p), pid);
      LookupCons(procs[0], procs[1..], pid);
      assert procs == [procs[0]] + procs[1..];
    }
  }

  lemma {:induction false} LookupCons(p: Proc, rest: seq<Proc>, pid: nat)
    ensures Lookup([p] + rest, pid) == if p.pid == pid then Some(p) else Lookup(rest, pid)
  {
    assert ([p] + rest)[1..] == rest;
  }

  lemma {:induction false} LookupRemove(procs: seq<Proc>, k: nat, pid: nat)
    requires k < |procs| && procs[k].pid != pid
    ensures Lookup(RemoveAt(procs, k), pid) == Lookup(procs, pid)
  {
    LookupCons(procs[0], procs[1..], pid);
    assert procs == [procs[0]] + procs[1..];
    if k == 0 {
      assert RemoveAt(procs, 0) == procs[1..];
    } else {
      LookupRemove(procs[1..], k - 1, pid);
      LookupCons(procs[0], RemoveAt(procs[1..], k - 1), pid);
      assert RemoveAt(procs, k) == [procs[0]] + RemoveAt(procs[1..], k - 1);
    }
  }

  lemma {:induction false} LookupUpdate(procs: seq<Proc>, q: Proc, pid: nat)
    requires FindProc(procs, q.pid) < |procs|
    ensures Lookup(procs[FindProc(procs, q.pid) := q], pid) == if pid == q.pid then Some(q) else Lookup(procs, pid)
  {
    var k := FindProc(procs, q.pid);
    LookupCons(procs[0], procs[1..], pid);
    assert procs == [procs[0]] + procs[1..];
    if k == 0 {
      assert procs[0 := q] == [q] + procs[1..];
      LookupCons(q, procs[1..], pid);
    } else {
      LookupUpdate(procs[1..], q, pid);
      LookupCons(procs[0], procs[1..][k - 1 := q], pid);
      assert procs[k := q] == [procs[0]] + procs[1..][k - 1 := q];
    }
  }

  lemma {:induction false} LookupAppend(procs: seq<Proc>, p: Proc, pid: nat)
    requires p.pid != pid
    ensures Lookup(procs + [p], pid) == Lookup(procs, pid)
  {
    hide FindProc;
    FindProcAppend(procs, p, pid);
  }

  /** A process under a new PID is found once it is in the list. */
  lemma {:induction false} LookupInserted(procs: seq<Proc>, p: Proc)
    requires Lookup(procs, p.pid).None?
    ensures Lookup(InsertByBase(procs, p), p.pid) == Some(p)
  {
    if procs == [] || p.base < procs[0].base {
      LookupCons(p, procs, p.pid);
    } else {
      assert procs == [procs[0]] + procs[1..];
      LookupCons(procs[0], procs[1..], p.pid);
      LookupInserted(procs[1..], p);
      LookupCons(procs[0], InsertByBase(procs[1..], p), p.pid);
    }
  }

  /** A successful creation under a new PID: the process is there, at the partition selected. */
  lemma {:induction false} LookupCreated(m: State, pid: nat, size: nat)
    requires Settled(m) && Lookup(m.procs, pid).None? && TryCreate(m, pid, size).Some?
    ensures var i := Select(m.criteria, m.parts, size);
      i < |m.parts| && Lookup(TryCreate(m, pid, size).value.procs, pid) == Some(NewProc(pid, m.parts[i].base, size))
  {
    hide Select, SortByBase, Build, FindProc;
    var i := Select(m.criteria, m.parts, size);
    var p := NewProc(pid, m.parts[i].base, size);
    if m.scheme.Dinamicas? {
      SortInserts(m.procs, p);
      LookupInserted(m.procs, p);
    } else {
      FindProcAppend(m.procs, p, pid);
    }
  }

  // Each event acts on one process

  /** What an event does to the process it names, threads being started, ended or written back. */
  function Effect(p: Proc, e: Event): Proc {
    match e
    case StartThread(_, tid) => p.(threads := p.threads + [Thread(tid, Fresh)])
    case EndThread(_, tid) =>
      var j := FindThread(p.threads, tid);
      if j == |p.threads| then p else p.(threads := RemoveAt(p.threads, j))
    case WriteBack(_, tid, c) =>
      var j := FindThread(p.threads, tid);
      if j == |p.threads| then p else p.(threads := p.threads[j := p.threads[j].(regs := c.regs)])
    case _ => p
  }

  lemma {:induction false} SettledUpdate(procs: seq<Proc>, k: nat, threads: seq<Thread>)
    requires k < |procs| && SortedByBase(procs)
    ensures SortedByBase(procs[k := procs[k].(threads := threads)])
  {
  }

  lemma {:induction false} EventOnOther(m: State, e: Event, pid: nat)
    requires Settled(m) && Allowed(m, e) && e.pid != pid
    ensures Settled(After(m, e)) && Lookup(After(m, e).procs, pid) == Lookup(m.procs, pid)
  {
    hide Lookup, FindThread, Select, SortByBase, Build, SortedByBase;
    var k := FindProc(m.procs, e.pid);
    match e
    case Create(p, size) => CreateOnOther(m, p, size, pid);
    case Destroy(p) =>
      if k < |m.procs| {
        LookupRemove(m.procs, k, pid);
        if m.scheme.Dinamicas? {
          assert SortedByBase(RemoveAt(m.procs, k)) by { RemoveSorted(m.procs, k); }
          SortKeepsSorted(RemoveAt(m.procs, k));
        }
      }
    case _ =>
      if k < |m.procs| {
        EventOnOwn(m, e);
        hide After;
        LookupUpdate(m.procs, Effect(m.procs[k], e), pid);
      }
  }

  lemma RemoveSorted(procs: seq<Proc>, k: nat)
    requires k < |procs| && SortedByBase(procs)
    ensures SortedByBase(RemoveAt(procs, k))
  {
    assert forall l :: 0 <= l < |procs| - 1 ==> RemoveAt(procs, k)[l] == procs[if l < k then l else l + 1];
  }

  lemma {:induction false} CreateOnOther(m: State, p: nat, size: nat, pid: nat)
    requires Settled(m) && p != pid
    ensures Settled(After(m, Create(p, size))) && Lookup(After(m, Create(p, size)).procs, pid) == Lookup(m.procs, pid)
  {
    hide Lookup, FindThread, Select, SortByBase, Build, SortedByBase;
    var i := Select(m.criteria, m.parts, size);
    if i < |m.parts| {
      var q := NewProc(p, m.parts[i].base, size);
      if m.scheme.Dinamicas? {
        SortInserts(m.procs, q);
        InsertSorts(m.procs, q);
        LookupInsert(m.procs, q, pid);
      } else {
        LookupAppend(m.procs, q, pid);
      }
    }
  }

  /** A thread event leaves the process in its place, with only its threads changed. */
  lemma {:induction false} EventOnOwn(m: State, e: Event)
    requires Settled(m) && Allowed(m, e) && !e.Create? && !e.Destroy? && FindProc(m.procs, e.pid) < |m.procs|
    ensures Settled(After(m, e))
    ensures var k := FindProc(m.procs, e.pid); After(m, e).procs == m.procs[k := Effect(m.procs[k], e)]
  {
    hide FindThread, SortByBase, Build, SortedByBase, FindProc;
    var k := FindProc(m.procs, e.pid);
    var after := m.procs[k := Effect(m.procs[k], e)];
    assert m.procs[k := m.procs[k]] == m.procs;
    if m.scheme.Dinamicas? {
      SettledUpdate(m.procs, k, Effect(m.procs[k], e).threads);
      SortKeepsSorted(after);
    }
  }

  lemma {:induction false} OwnProcess(m: State, e: Event)
    requires Settled(m) && Allowed(m, e) && !e.Create? && !e.Destroy? && Lookup(m.procs, e.pid).Some?
    ensures Settled(After(m, e))
    ensures Lookup(After(m, e).procs, e.pid) == Some(Effect(Lookup(m.procs, e.pid).value, e))
  {
    hide After, FindThread;
    EventOnOwn(m, e);
    LookupUpdate(m.procs, Effect(Lookup(m.procs, e.pid).value, e), e.pid);
  }

  // Threads within a process

  lemma {:induction false} FindThreadAppend(threads: seq<Thread>, t: Thread, tid: nat)
    ensures var j := FindThread(threads, tid);
      FindThread(threads + [t], tid) == if j < |threads| || t.tid == tid then j else |threads| + 1
  {
    if threads != [] {
      FindThreadAppend(threads[1..], t, tid);
      assert (threads + [t])[1..] == threads[1..] + [t];
    } else {
      assert [t][1..] == [];
    }
  }

  lemma {:induction false} FindThreadRemove(threads: seq<Thread>, i: nat, tid: nat)
    requires i < |threads| && threads[i].tid != tid
    ensures var j := FindThread(threads, tid);
      FindThread(RemoveAt(threads, i), tid) == if j < i then j else j - 1
  {
    if i == 0 {
      assert RemoveAt(threads, 0) == threads[1..];
    } else if threads[0].tid != tid {
      FindThreadRemove(threads[1..], i - 1, tid);
      assert RemoveAt(threads, i)[1..] == RemoveAt(threads[1..], i - 1);
    }
  }

  lemma {:induction false} FindThreadUpdate(threads: seq<Thread>, i: nat, regs: Registers, tid: nat)
    requires i < |threads|
    ensures FindThread(threads[i := threads[i].(regs := regs)], tid) == FindThread(threads, tid)
  {
    if i == 0 {
      assert threads[0 := threads[0].(regs := regs)][1..] == threads[1..];
    } else {
      FindThreadUpdate(threads[1..], i - 1, regs, tid);
      assert threads[i := threads[i].(regs := regs)][1..] == threads[1..][i - 1 := threads[i].(regs := regs)];
    }
  }

  /** The thread an event is about, if it is about one. */
  predicate Names(e: Event, pid: nat, tid: nat) {
    e.pid == pid && (e.Create? || e.Destroy? || e.tid == tid)
  }

  /** An event about other threads leaves a thread's context as it is. */
  lemma {:induction false} ContextSpared(m: State, e: Event, pid: nat, tid: nat)
    requires Settled(m) && Allowed(m, e) && !Names(e, pid, tid)
    ensures Settled(After(m, e)) && Load(After(m, e), pid, tid) == Load(m, pid, tid)
  {
    hide After, Allowed, Lookup, FindThread, Settled;
    if e.pid != pid {
      EventOnOther(m, e, pid);
    } else if Lookup(m.procs, pid).None? {
      NothingToDo(m, e);
    } else {
      OwnProcess(m, e);
      var p := Lookup(m.procs, pid).value;
      var j := FindThread(p.threads, e.tid);
      match e
      case StartThread(_, t) => FindThreadAppend(p.threads, Thread(t, Fresh), tid);
      case EndThread(_, t) =>
        if j < |p.threads| {
          FindThreadRemove(p.threads, j, tid);
        }
      case WriteBack(_, t, c) =>
        if j < |p.threads| {
          FindThreadUpdate(p.threads, j, c.regs, tid);
        }
    }
  }

  lemma {:induction false} NothingToDo(m: State, e: Event)
    requires Lookup(m.procs, e.pid).None? && !e.Create? && !e.Destroy?
    ensures After(m, e) == m
  {
  }

  /** Saving and then loading gives back exactly the context that was saved. */
  lemma {:induction false} LoadAfterSave(m: State, pid: nat, tid: nat, c: Context)
    requires Settled(m) && Allowed(m, WriteBack(pid, tid, c)) && Load(m, pid, tid).Some?
    ensures Settled(Save(m, pid, tid, c)) && Load(Save(m, pid, tid, c), pid, tid) == Some(c)
  {
    hide FindThread, Settled, Lookup;
    OwnProcess(m, WriteBack(pid, tid, c));
    var p := Lookup(m.procs, pid).value;
    FindThreadUpdate(p.threads, FindThread(p.threads, tid), c.regs, tid);
  }

  /** Whatever context is saved, also one with other bounds, every thread of that process is loaded with
      its bounds from then on, the thread itself with its registers, and no other process changes. */
  lemma {:induction false} SaveMovesTheProcess(m: State, pid: nat, tid: nat, c: Context, x: nat, other: nat)
    requires Load(m, pid, tid).Some? && Load(m, x, other).Some?
    ensures var was := Load(m, x, other).value;
      Load(Save(m, pid, tid, c), x, other) == Some(
        if x != pid then was else Context(if other == tid then c.regs else was.regs, c.base, c.limite))
  {
    hide FindThread, FindProc;
    var p := Lookup(m.procs, pid).value;
    var j := FindThread(p.threads, tid);
    var q := p.(base := c.base, limite := c.limite, threads := p.threads[j := p.threads[j].(regs := c.regs)]);
    LookupUpdate(m.procs, q, x);
    FindThreadUpdate(p.threads, j, c.regs, other);
  }

  // Turns on the CPU between arbitrary other work of the memory module

  datatype World = World(m: State, bytes: seq<byte>)

  /** A turn of a thread, until a syscall or an interruption, or some other request to memory. */
  datatype Move =
    | Turn(pid: nat, tid: nat, script: seq<Instr>, budget: nat)
    | Request(event: Event)

  function Ran(w: World, move: Move): Outcome
    requires move.Turn?
  {
    var c := Load(w.m, move.pid, move.tid);
    if c.None? then Undefined else Cycles(move.script, c.value, w.bytes, move.budget)
  }

  /** A turn ends in an interruption, a syscall or a segmentation fault, and each of them saves the
      context; requests create processes under new PIDs. */
  predicate Possible(w: World, move: Move) {
    match move
    case Turn(_, _, _, _) => !Ran(w, move).Undefined?
    case Request(e) => !e.WriteBack? && Allowed(w.m, e) && (e.Create? ==> Lookup(w.m.procs, e.pid).None?)
  }

  function Do(w: World, move: Move): World
    requires Possible(w, move)
  {
    match move
    case Turn(pid, tid, _, _) => World(Save(w.m, pid, tid, Ran(w, move).context), Ran(w, move).mem)
    case Request(e) => w.(m := After(w.m, e))
  }

  predicate AllPossible(w: World, moves: seq<Move>)
    decreases |moves|
  {
    moves == [] || (Possible(w, moves[0]) && AllPossible(Do(w, moves[0]), moves[1..]))
  }

  function DoAll(w: World, moves: seq<Move>): World
    requires AllPossible(w, moves)
    decreases |moves|
  {
    if moves == [] then w else DoAll(Do(w, moves[0]), moves[1..])
  }

  /** Neither the thread nor its process is created or destroyed meanwhile. */
  predicate Stays(moves: seq<Move>, pid: nat, tid: nat) {
    forall i :: 0 <= i < |moves| && moves[i].Request? ==> !Names(moves[i].event, pid, tid)
  }

  /** The context the thread's own last turn ended with, or c if it had none. */
  function LastLeft(w: World, moves: seq<Move>, pid: nat, tid: nat, c: Context): Context
    requires AllPossible(w, moves)
    decreases |moves|
  {
    if moves == [] then c
    else
      var next := if moves[0].Turn? && moves[0].pid == pid && moves[0].tid == tid then Ran(w, moves[0]).context else c;
      LastLeft(Do(w, moves[0]), moves[1..], pid, tid, next)
  }

  /** Partition lists as the scheme in use keeps them, inside a 32-bit address space. */
  predicate Healthy(m: State, sizes: seq<nat>) {
    Settled(m)
    && (if m.scheme.Dinamicas? then DynOk(m) && m.tam < 0x1_0000_0000
        else FixedOk(m, sizes) && PrefixSum(sizes, |sizes|) < 0x1_0000_0000)
  }

  lemma {:induction false} PrefixSumGrows(sizes: seq<nat>, i: nat, n: nat)
    requires i <= n <= |sizes|
    ensures PrefixSum(sizes, i) <= PrefixSum(sizes, n)
    decreases n
  {
    if i < n {
      PrefixSumGrows(sizes, i, n - 1);
    }
  }

  /** Bounds fit in 32 bits, so loading a context does not truncate them. */
  lemma {:induction false} BoundsFit(m: State, sizes: seq<nat>, pid: nat)
    requires Healthy(m, sizes) && Lookup(m.procs, pid).Some?
    ensures var p := Lookup(m.procs, pid).value; p.base < 0x1_0000_0000 && p.limite < 0x1_0000_0000
  {
    hide FindPart, SortedByBase, FindProc;
    var k := FindProc(m.procs, pid);
    if m.scheme.Dinamicas? {
      LaidOutBelow(m.procs, 0, m.tam, k);
    } else {
      assert Housed(m.procs[k], m.parts);
      PrefixSumGrows(sizes, FindPart(m.parts, pid) + 1, |sizes|);
    }
  }

  lemma {:induction false} RequestKeepsHealth(m: State, sizes: seq<nat>, e: Event)
    requires Healthy(m, sizes) && Allowed(m, e) && (e.Create? ==> Lookup(m.procs, e.pid).None?)
    ensures Healthy(After(m, e), sizes)
  {
    hide DynOk, FixedOk, Settled, Allowed, FindProc, Select, Rebuild;
    EventOnOther(m, e, e.pid + 1);
    KeepsScheme(m, e);
    if m.scheme.Dinamicas? {
      EventKeepsOk(m, e);
    } else {
      assert AllowedFixed(m, e);
      EventKeepsFixed(m, sizes, e);
    }
  }

  lemma {:induction false} KeepsScheme(m: State, e: Event)
    ensures After(m, e).scheme == m.scheme
  {
    hide FindProc, FindThread, FindPart, Select, SortByBase, Build;
  }

  /** A turn is a write-back that keeps the process's own bounds, whatever the script does. */
  lemma {:induction false} TurnWritesBack(w: World, sizes: seq<nat>, move: Move)
    requires Healthy(w.m, sizes) && Possible(w, move) && move.Turn?
    ensures var e := WriteBack(move.pid, move.tid, Ran(w, move).context);
      && Allowed(w.m, e) && Do(w, move).m == After(w.m, e)
      && Load(w.m, move.pid, move.tid).Some?
      && Ran(w, move).context.base == Load(w.m, move.pid, move.tid).value.base
      && Ran(w, move).context.limite == Load(w.m, move.pid, move.tid).value.limite
  {
    hide Healthy, Cycles, FindThread, FindProc;
    CyclesKeepBounds(move.script, Load(w.m, move.pid, move.tid).value, w.bytes, move.budget);
    BoundsFit(w.m, sizes, move.pid);
  }

  lemma {:induction false} MoveKeepsContext(w: World, sizes: seq<nat>, move: Move, pid: nat, tid: nat)
    requires Healthy(w.m, sizes) && Possible(w, move) && Load(w.m, pid, tid).Some? && Stays([move], pid, tid)
    ensures var c := Load(w.m, pid, tid).value; var after := Load(Do(w, move).m, pid, tid);
      && Healthy(Do(w, move).m, sizes)
      && after == Some(if move.Turn? && move.pid == pid && move.tid == tid then Ran(w, move).context else c)
      && after.value.base == c.base && after.value.limite == c.limite
  {
    hide Load, After, Allowed, Ran;
    HealthySettled(w.m, sizes);
    assert [move][0] == move;
    if move.Request? {
      RequestKeepsHealth(w.m, sizes, move.event);
      ContextSpared(w.m, move.event, pid, tid);
    } else {
      TurnWritesBack(w, sizes, move);
      var e := WriteBack(move.pid, move.tid, Ran(w, move).context);
      RequestKeepsHealth(w.m, sizes, e);
      if move.pid == pid && move.tid == tid {
        LoadAfterSave(w.m, pid, tid, Ran(w, move).context);
      } else {
        ContextSpared(w.m, e, pid, tid);
      }
    }
  }

  lemma HealthySettled(m: State, sizes: seq<nat>)
    requires Healthy(m, sizes)
    ensures Settled(m)
  {
  }

  /** Context-switch transparency: over any interleaving of turns of any threads and of other
      requests to the memory module, the context a thread loads next is exactly the one its own
      last turn ended with, and its BASE and LIMITE are still those it started with. */
  lemma {:induction false} SwitchesAreTransparent(w: World, sizes: seq<nat>, moves: seq<Move>, pid: nat, tid: nat)
    requires Healthy(w.m, sizes) && AllPossible(w, moves) && Stays(moves, pid, tid) && Load(w.m, pid, tid).Some?
    ensures var c := Load(w.m, pid, tid).value; var last := LastLeft(w, moves, pid, tid, c);
      Load(DoAll(w, moves).m, pid, tid) == Some(last) && last.base == c.base && last.limite == c.limite
    decreases |moves|
  {
    hide Healthy, Possible, Do, Load, Ran, Names;
    if moves != [] {
      assert Stays([moves[0]], pid, tid) && Stays(moves[1..], pid, tid);
      MoveKeepsContext(w, sizes, moves[0], pid, tid);
      SwitchesAreTransparent(Do(w, moves[0]), sizes, moves[1..], pid, tid);
    }
  }
}
