/** The memory module as it runs: its process and partition lists updated in place. Every method is
    proved equal to the effect stated in Memory. */
module MemoryMachine {
  import opened Lists
  import opened Cpu
  import opened Partitions
  import opened LocalEdits
  import opened Memory
  import F = FixedMemory

  lemma {:induction false} SelectNext(criteria: string, parts: seq<Partition>, size: nat, n: nat)
    requires n < |parts| && KnownCriteria(criteria)
    ensures var i := Select(criteria, parts[..n], size);
      Select(criteria, parts[..n + 1], size) ==
        if i < n then if Candidate(criteria, parts[n], size) && Displaces(criteria, parts[n], parts[i]) then n else i
        else if Candidate(criteria, parts[n], size) then n
        else n + 1
  {
    assert parts[..n + 1][..n] == parts[..n];
  }

  lemma {:induction false} NothingSelected(criteria: string, parts: seq<Partition>, size: nat)
    requires !KnownCriteria(criteria)
    ensures Select(criteria, parts, size) == |parts|
  {
  }

  lemma {:induction false} BuildNext(procs: seq<Proc>, i: nat, cur: nat, tam: nat)
    requires i < |procs|
    ensures BuildFrom(procs[i..], cur, tam) ==
      (if cur < procs[i].base then [Free(cur, procs[i].base)] else []) + [Occupied(procs[i])]
      + BuildFrom(procs[i + 1..], procs[i].limite, tam)
  {
    assert procs[i..][1..] == procs[i + 1..];
  }

  lemma {:induction false} SortNext(procs: seq<Proc>, n: nat)
    requires n < |procs|
    ensures SortByBase(procs[..n + 1]) == InsertByBase(SortByBase(procs[..n]), procs[n])
  {
    assert procs[..n + 1][..n] == procs[..n];
  }

  /** Where a scan from the front that skips bases up to p's own stops. */
  lemma {:induction false} InsertAt(procs: seq<Proc>, p: Proc, j: nat)
    requires j <= |procs| && (forall l :: 0 <= l < j ==> procs[l].base <= p.base)
    requires j < |procs| ==> p.base < procs[j].base
    ensures InsertByBase(procs, p) == procs[..j] + [p] + procs[j..]
  {
    if j > 0 {
      InsertAt(procs[1..], p, j - 1);
      assert procs == [procs[0]] + procs[1..];
      assert procs[..j] == [procs[0]] + procs[1..][..j - 1] && procs[1..][j - 1..] == procs[j..];
    }
  }

  lemma {:induction false} FoundProc(procs: seq<Proc>, pid: nat, i: nat)
    requires i <= |procs| && (i < |procs| ==> procs[i].pid == pid) && forall j :: 0 <= j < i ==> procs[j].pid != pid
    ensures FindProc(procs, pid) == i
  {
  }

  lemma {:induction false} FoundThread(threads: seq<Thread>, tid: nat, i: nat)
    requires i <= |threads| && (i < |threads| ==> threads[i].tid == tid)
      && forall j :: 0 <= j < i ==> threads[j].tid != tid
    ensures FindThread(threads, tid) == i
  {
  }

  lemma {:induction false} FoundPart(parts: seq<Partition>, pid: int, i: nat)
    requires i <= |parts| && (i < |parts| ==> parts[i].pid == pid) && forall j :: 0 <= j < i ==> parts[j].pid != pid
    ensures FindPart(parts, pid) == i
  {
  }

  method FindThreadIndex(threads: seq<Thread>, tid: nat) returns (i: nat)
    ensures i == FindThread(threads, tid)
  {
    i := 0;
    while i < |threads| && threads[i].tid != tid
      invariant 0 <= i <= |threads|
      invariant forall j :: 0 <= j < i ==> threads[j].tid != tid
    {
      i := i + 1;
    }
    FoundThread(threads, tid, i);
  }

  /** build_static_partition_list. */
  method BuildStaticPartitions(sizes: seq<nat>) returns (parts: seq<Partition>)
    ensures parts == F.BuildStatic(sizes)
  {
    parts := [];
    var i := 0;
    while i < |sizes|
      invariant 0 <= i <= |sizes| && parts == F.BuildStatic(sizes[..i])
    {
      var base := if i == 0 then 0 else parts[i - 1].limite;
      parts := parts + [Partition(-1, base, base + sizes[i], sizes[i], true)];
      assert sizes[..i + 1][..i] == sizes[..i];
      i := i + 1;
    }
    assert sizes[..i] == sizes;
  }

  class MemoryModule {
    const scheme: Scheme
    const criteria: string
    const tam: nat
    var procs: seq<Proc>
    var parts: seq<Partition>

    ghost function Abs(): State
      reads this
    {
      State(scheme, criteria, tam, procs, parts)
    }

    constructor (scheme: Scheme, criteria: string, tam: nat, parts: seq<Partition>)
      ensures Abs() == State(scheme, criteria, tam, [], parts)
    {
      this.scheme, this.criteria, this.tam := scheme, criteria, tam;
      this.procs, this.parts := [], parts;
    }

    // partitions.c

    /** The three searches of allocate_process_in_partition; the length when none succeeds. */
    method SelectPartition(size: nat) returns (selected: nat)
      ensures selected == Select(criteria, parts, size)
    {
      hide Select;
      if criteria == "FIRST" {
        selected := 0;
        while selected < |parts| && !(parts[selected].isFree && parts[selected].size >= size)
          invariant 0 <= selected <= |parts|
          invariant forall j :: 0 <= j < selected ==> !Fits(parts[j], size)
        {
          selected := selected + 1;
        }
        FirstFit(parts, size, selected);
      } else if criteria == "BEST" {
        selected := SelectBest(size);
      } else if criteria == "WORST" {
        selected := SelectWorst(size);
      } else {
        NothingSelected(criteria, parts, size);
        selected := |parts|;
      }
    }

    method SelectBest(size: nat) returns (selected: nat)
      requires criteria == "BEST"
      ensures selected == Select("BEST", parts, size)
    {
      hide Select;
      var minSize: int := INT_MAX;
      var found := -1;
      var i := 0;
      assert Select("BEST", parts[..0], size) == 0;
      while i < |parts|
        invariant 0 <= i <= |parts| && -1 <= found < i
        invariant Select("BEST", parts[..i], size) == if found == -1 then i else found
        invariant minSize == if found == -1 then INT_MAX else parts[found].size
        invariant minSize <= INT_MAX
      {
        SelectNext("BEST", parts, size, i);
        if parts[i].isFree && parts[i].size >= size && parts[i].size < minSize {
          minSize := parts[i].size;
          found := i;
        }
        i := i + 1;
      }
      assert parts[..i] == parts;
      selected := if found == -1 then |parts| else found;
    }

    method SelectWorst(size: nat) returns (selected: nat)
      requires criteria == "WORST"
      ensures selected == Select("WORST", parts, size)
    {
      hide Select;
      var maxSize: int := 0;
      var found := -1;
      var i := 0;
      assert Select("WORST", parts[..0], size) == 0;
      while i < |parts|
        invariant 0 <= i <= |parts| && -1 <= found < i
        invariant Select("WORST", parts[..i], size) == if found == -1 then i else found
        invariant maxSize == if found == -1 then 0 else parts[found].size
        invariant maxSize >= 0
      {
        SelectNext("WORST", parts, size, i);
        if parts[i].isFree && parts[i].size >= size && parts[i].size > maxSize {
          maxSize := parts[i].size;
          found := i;
        }
        i := i + 1;
      }
      assert parts[..i] == parts;
      selected := if found == -1 then |parts| else found;
    }

    /** allocate_process_in_partition: the selected partition is taken in place; no other changes. */
    method AllocateInPartition(size: nat, pid: nat) returns (selected: nat)
      modifies this`parts
      ensures selected == Select(criteria, old(parts), size)
      ensures parts == if selected == |old(parts)| then old(parts)
                       else old(parts)[selected := old(parts)[selected].(isFree := false, pid := pid)]
    {
      selected := SelectPartition(size);
      if selected < |parts| {
        parts := parts[selected := parts[selected].(isFree := false, pid := pid)];
      }
    }

    // mem_dynamic_partition.c

    /** list_sort by ordenar_por_base, as a stable insertion sort. */
    method SortProcesses()
      modifies this`procs
      ensures procs == SortByBase(old(procs))
    {
      var sorted: seq<Proc> := [];
      var i := 0;
      while i < |procs|
        invariant 0 <= i <= |procs| && procs == old(procs) && sorted == SortByBase(procs[..i])
      {
        var j := 0;
        while j < |sorted| && sorted[j].base <= procs[i].base
          invariant 0 <= j <= |sorted| && procs == old(procs)
          invariant forall l :: 0 <= l < j ==> sorted[l].base <= procs[i].base
        {
          j := j + 1;
        }
        InsertAt(sorted, procs[i], j);
        SortNext(procs, i);
        sorted := sorted[..j] + [procs[i]] + sorted[j..];
        i := i + 1;
      }
      assert procs[..i] == procs;
      procs := sorted;
    }

    /** build_dynamic_partition_list. */
    method BuildDynamicPartitions() returns (partitions: seq<Partition>)
      modifies this`procs
      ensures procs == SortByBase(old(procs)) && partitions == Build(procs, tam)
    {
      hide SortByBase, BuildFrom, InsertByBase;
      SortKeepsLength(procs);
      partitions := [];
      if procs == [] {
        return [Partition(-1, 0, tam, tam, true)];
      }
      SortProcesses();
      ghost var sorted := procs;
      var currentBase: nat := 0;
      var i := 0;
      assert procs[0..] == procs;
      while i < |procs|
        invariant 0 <= i <= |procs| && procs == sorted
        invariant partitions + BuildFrom(procs[i..], currentBase, tam) == BuildFrom(procs, 0, tam)
      {
        BuildNext(procs, i, currentBase, tam);
        var p := procs[i];
        if currentBase < p.base {
          partitions := partitions + [Partition(-1, currentBase, p.base, p.base - currentBase, true)];
        }
        partitions := partitions + [Partition(p.pid, p.base, p.limite, p.limite - p.base, false)];
        currentBase := p.limite;
        i := i + 1;
      }
      LastGap(procs[i..], currentBase, tam);
      if currentBase < tam {
        partitions := partitions + [Partition(-1, currentBase, tam, tam - currentBase, true)];
      }
    }

    /** update_dynamic_partition_list. */
    method UpdateDynamicPartitions()
      modifies this`procs, this`parts
      ensures Abs() == Rebuild(old(Abs()))
    {
      hide SortByBase, Build;
      parts := BuildDynamicPartitions();
    }

    // mem_structs.c

    method FindProcess(pid: nat) returns (i: nat)
      ensures i == FindProc(procs, pid)
    {
      i := 0;
      while i < |procs| && procs[i].pid != pid
        invariant 0 <= i <= |procs|
        invariant forall j :: 0 <= j < i ==> procs[j].pid != pid
      {
        i := i + 1;
      }
      FoundProc(procs, pid, i);
    }

    /** verificar_espacio_y_crear_proceso. */
    method CreateProcess(pid: nat, size: nat) returns (ok: bool)
      modifies this`procs, this`parts
      ensures var t := TryCreate(old(Abs()), pid, size);
        if t.None? then !ok && Abs() == old(Abs()) else ok && Abs() == t.value
    {
      hide Select, SortByBase, Build;
      var selected := AllocateInPartition(size, pid);
      if selected == |parts| {
        return false;
      }
      var base := parts[selected].base;
      procs := procs + [Proc(pid, base, base + size, size, [])];
      if scheme.Dinamicas? {
        UpdateDynamicPartitions();
      }
      return true;
    }

    /** eliminar_proceso_mem. */
    method DeleteProcess(pid: nat)
      modifies this`procs, this`parts
      ensures Abs() == Delete(old(Abs()), pid)
    {
      hide SortByBase, Build, FindPart, FindProc;
      var k := FindProcess(pid);
      if k == |procs| {
        return;
      }
      procs := procs[..k] + procs[k + 1..];
      if scheme.Dinamicas? {
        UpdateDynamicPartitions();
      } else {
        var i := 0;
        while i < |parts| && parts[i].pid != pid
          invariant 0 <= i <= |parts|
          invariant forall j :: 0 <= j < i ==> parts[j].pid != pid
        {
          i := i + 1;
        }
        FoundPart(parts, pid, i);
        if i < |parts| {
          parts := parts[i := parts[i].(isFree := true, pid := -1)];
        }
      }
    }

    /** verificar_y_agregar_hilo. */
    method AddThreadTo(pid: nat, tid: nat) returns (ok: bool)
      modifies this`procs
      ensures var t := AddThread(old(Abs()), pid, tid);
        if t.None? then !ok && Abs() == old(Abs()) else ok && Abs() == t.value
    {
      var k := FindProcess(pid);
      if k == |procs| {
        return false;
      }
      var p := procs[k];
      procs := procs[k := p.(threads := p.threads + [Thread(tid, Fresh)])];
      return true;
    }

    /** eliminar_hilo_mem. */
    method DeleteThread(pid: nat, tid: nat)
      modifies this`procs, this`parts
      ensures Abs() == RemoveThread(old(Abs()), pid, tid)
    {
      hide SortByBase, Build, FindThread, FindProc;
      var k := FindProcess(pid);
      if k == |procs| {
        return;
      }
      var p := procs[k];
      var j := FindThreadIndex(p.threads, tid);
      if j == |p.threads| {
        return;
      }
      procs := procs[k := p.(threads := p.threads[..j] + p.threads[j + 1..])];
      if scheme.Dinamicas? {
        UpdateDynamicPartitions();
      }
    }

    /** obtener_registros_tcb. */
    method GetRegisters(pid: nat, tid: nat) returns (c: Option<Context>)
      ensures c == Load(Abs(), pid, tid)
    {
      var k := FindProcess(pid);
      if k == |procs| {
        return None;
      }
      var p := procs[k];
      var j := FindThreadIndex(p.threads, tid);
      if j == |p.threads| {
        return None;
      }
      return Some(Context(p.threads[j].regs, p.base % 0x1_0000_0000, p.limite % 0x1_0000_0000));
    }

    /** actualizar_registros: the process's bounds are written even when the thread is missing. */
    method UpdateRegisters(pid: nat, tid: nat, c: Context)
      modifies this`procs
      ensures Abs() == Save(old(Abs()), pid, tid, c)
    {
      var k := FindProcess(pid);
      if k == |procs| {
        return;
      }
      procs := procs[k := procs[k].(base := c.base, limite := c.limite)];
      var p := procs[k];
      var j := FindThreadIndex(p.threads, tid);
      if j < |p.threads| {
        procs := procs[k := p.(threads := p.threads[j := p.threads[j].(regs := c.regs)])];
      }
    }
  }

  lemma {:induction false} SortKeepsLength(procs: seq<Proc>)
    ensures |SortByBase(procs)| == |procs|
  {
    if procs != [] {
      SortKeepsLength(procs[..|procs| - 1]);
      InsertGrows(SortByBase(procs[..|procs| - 1]), procs[|procs| - 1]);
    }
  }

  lemma {:induction false} InsertGrows(procs: seq<Proc>, p: Proc)
    ensures |InsertByBase(procs, p)| == |procs| + 1
  {
    if !(procs == [] || p.base < procs[0].base) {
      InsertGrows(procs[1..], p);
    }
  }

  lemma {:induction false} LastGap(none: seq<Proc>, cur: nat, tam: nat)
    requires none == []
    ensures BuildFrom(none, cur, tam) == if cur < tam then [Free(cur, tam)] else []
  {
  }
}
