/** The memory module's state: live processes, their threads' registers, and the partition list. */
module Memory {
  import opened Lists
  import opened Cpu
  import opened Partitions
  import opened LocalEdits

  datatype Scheme = Fijas | Dinamicas

  datatype State = State(scheme: Scheme, criteria: string, tam: nat, procs: seq<Proc>, parts: seq<Partition>)

  // Lookups

  function FindProc(procs: seq<Proc>, pid: nat): (i: nat)
    ensures i <= |procs|
    ensures i < |procs| ==> procs[i].pid == pid
    ensures forall j :: 0 <= j < i ==> procs[j].pid != pid
  {
    if procs == [] || procs[0].pid == pid then 0
    else
      var rest := FindProc(procs[1..], pid);
      assert forall j :: 0 <= j < |procs[1..]| ==> procs[1..][j] == procs[j + 1];
      1 + rest
  }

  function FindThread(threads: seq<Thread>, tid: nat): (i: nat)
    ensures i <= |threads|
    ensures i < |threads| ==> threads[i].tid == tid
    ensures forall j :: 0 <= j < i ==> threads[j].tid != tid
  {
    if threads == [] || threads[0].tid == tid then 0
    else
      var rest := FindThread(threads[1..], tid);
      assert forall j :: 0 <= j < |threads[1..]| ==> threads[1..][j] == threads[j + 1];
      1 + rest
  }

  function FindPart(parts: seq<Partition>, pid: int): (i: nat)
    ensures i <= |parts|
    ensures i < |parts| ==> parts[i].pid == pid
    ensures forall j :: 0 <= j < i ==> parts[j].pid != pid
  {
    if parts == [] || parts[0].pid == pid then 0
    else
      var rest := FindPart(parts[1..], pid);
      assert forall j :: 0 <= j < |parts[1..]| ==> parts[1..][j] == parts[j + 1];
      1 + rest
  }

  /** Two process lists that differ only in their threads. */
  predicate SameBounds(a: seq<Proc>, b: seq<Proc>) {
    |a| == |b| && forall i :: 0 <= i < |a| ==> a[i] == b[i].(threads := a[i].threads)
  }

  // Rebuilding

  /** A stable sort by base. */
  function SortByBase(procs: seq<Proc>): seq<Proc> {
    if procs == [] then [] else InsertByBase(SortByBase(procs[..|procs| - 1]), procs[|procs| - 1])
  }

  /** update_dynamic_partition_list: sorts the process list in place and replaces the partitions. */
  function Rebuild(m: State): State {
    m.(procs := SortByBase(m.procs), parts := Build(SortByBase(m.procs), m.tam))
  }

  // Operations

  function NewProc(pid: nat, base: nat, size: nat): Proc {
    Proc(pid, base, base + size, size, [])
  }

  /** verificar_espacio_y_crear_proceso: None when no partition is selected. */
  function TryCreate(m: State, pid: nat, size: nat): Option<State> {
    var i := Select(m.criteria, m.parts, size);
    if i == |m.parts| then None
    else
      var grown := m.(procs := m.procs + [NewProc(pid, m.parts[i].base, size)]);
      Some(if m.scheme.Fijas? then grown.(parts := m.parts[i := m.parts[i].(isFree := false, pid := pid)])
           else Rebuild(grown))
  }

  function Delete(m: State, pid: nat): State {
    var k := FindProc(m.procs, pid);
    if k == |m.procs| then m
    else
      var shrunk := m.(procs := RemoveAt(m.procs, k));
      if m.scheme.Dinamicas? then Rebuild(shrunk)
      else
        var i := FindPart(m.parts, pid);
        if i == |m.parts| then shrunk
        else shrunk.(parts := m.parts[i := m.parts[i].(isFree := true, pid := -1)])
  }

  function WithThreads(m: State, k: nat, threads: seq<Thread>): State
    requires k < |m.procs|
  {
    m.(procs := m.procs[k := m.procs[k].(threads := threads)])
  }

  function AddThread(m: State, pid: nat, tid: nat): Option<State> {
    var k := FindProc(m.procs, pid);
    if k == |m.procs| then None else Some(WithThreads(m, k, m.procs[k].threads + [Thread(tid, Fresh)]))
  }

  function RemoveThread(m: State, pid: nat, tid: nat): State {
    var k := FindProc(m.procs, pid);
    if k == |m.procs| then m
    else
      var j := FindThread(m.procs[k].threads, tid);
      if j == |m.procs[k].threads| then m
      else
        var left := WithThreads(m, k, RemoveAt(m.procs[k].threads, j));
        if m.scheme.Dinamicas? then Rebuild(left) else left
  }

  /** obtener_registros_tcb: the thread's registers with its process's bounds. */
  function Load(m: State, pid: nat, tid: nat): Option<Context> {
    LoadFrom(Lookup(m.procs, pid), tid)
  }

  function Lookup(procs: seq<Proc>, pid: nat): Option<Proc> {
    var k := FindProc(procs, pid);
    if k == |procs| then None else Some(procs[k])
  }

  function LoadFrom(p: Option<Proc>, tid: nat): Option<Context> {
    if p.None? then None
    else
      var j := FindThread(p.value.threads, tid);
      if j == |p.value.threads| then None
      else Some(Context(p.value.threads[j].regs, p.value.base % 0x1_0000_0000, p.value.limite % 0x1_0000_0000))
  }

  /** actualizar_registros: writes the process's bounds back too. */
  function Save(m: State, pid: nat, tid: nat, c: Context): State {
    var k := FindProc(m.procs, pid);
    if k == |m.procs| then m
    else
      var p := m.procs[k].(base := c.base, limite := c.limite);
      var j := FindThread(p.threads, tid);
      m.(procs := m.procs[k := if j == |p.threads| then p
                               else p.(threads := p.threads[j := p.threads[j].(regs := c.regs)])])
  }

  // Events

  datatype Event =
    | Create(pid: nat, size: nat)
    | Destroy(pid: nat)
    | StartThread(pid: nat, tid: nat)
    | EndThread(pid: nat, tid: nat)
    | WriteBack(pid: nat, tid: nat, context: Context)

  /** A context written back has its process's own bounds. */
  predicate Allowed(m: State, e: Event) {
    match e
    case WriteBack(pid, tid, c) =>
      var p := Lookup(m.procs, pid);
      p.Some? ==> c.base == p.value.base && c.limite == p.value.limite
    case _ => true
  }

  function After(m: State, e: Event): State {
    match e
    case Create(pid, size) => (match TryCreate(m, pid, size) case Some(m') => m' case None => m)
    case Destroy(pid) => Delete(m, pid)
    case StartThread(pid, tid) => (match AddThread(m, pid, tid) case Some(m') => m' case None => m)
    case EndThread(pid, tid) => RemoveThread(m, pid, tid)
    case WriteBack(pid, tid, c) => Save(m, pid, tid, c)
  }

  predicate AllAllowed(m: State, events: seq<Event>)
    decreases |events|
  {
    events == [] || (Allowed(m, events[0]) && AllAllowed(After(m, events[0]), events[1..]))
  }

  function AfterAll(m: State, events: seq<Event>): State
    decreases |events|
  {
    if events == [] then m else AfterAll(After(m, events[0]), events[1..])
  }
}
