/** Partition lists: the three fit policies, and the dynamic list that is rebuilt from the processes. */
module Partitions {
  import opened Cpu

  datatype Thread = Thread(tid: nat, regs: Registers)

  datatype Proc = Proc(pid: nat, base: nat, limite: nat, size: nat, threads: seq<Thread>)

  /** A free partition belongs to PID -1. */
  datatype Partition = Partition(pid: int, base: nat, limite: nat, size: int, isFree: bool)

  const INT_MAX := 0x7FFF_FFFF

  // Fit policies

  predicate Fits(p: Partition, size: nat) {
    p.isFree && p.size >= size
  }

  /** The partitions a criterion ever considers: BEST starts at INT_MAX and WORST at 0, both strict. */
  predicate Candidate(criteria: string, p: Partition, size: nat) {
    && Fits(p, size)
    && (criteria == "BEST" ==> p.size < INT_MAX)
    && (criteria == "WORST" ==> p.size > 0)
  }

  /** Whether a later partition displaces the one selected so far. */
  predicate Displaces(criteria: string, p: Partition, selected: Partition) {
    (criteria == "BEST" && p.size < selected.size) || (criteria == "WORST" && p.size > selected.size)
  }

  predicate KnownCriteria(criteria: string) {
    criteria == "FIRST" || criteria == "BEST" || criteria == "WORST"
  }

  /** Position of the partition the criterion selects, or the length when it selects none. */
  function Select(criteria: string, parts: seq<Partition>, size: nat): (i: nat)
    ensures i <= |parts|
    ensures i < |parts| ==> KnownCriteria(criteria) && Candidate(criteria, parts[i], size)
    ensures i == |parts| && KnownCriteria(criteria) ==>
      forall j :: 0 <= j < |parts| ==> !Candidate(criteria, parts[j], size)
    ensures i < |parts| && criteria == "FIRST" ==> forall j :: 0 <= j < i ==> !Fits(parts[j], size)
    ensures i < |parts| ==> forall j :: 0 <= j < |parts| && Candidate(criteria, parts[j], size) ==>
      !Displaces(criteria, parts[j], parts[i])
    ensures i < |parts| ==> forall j :: 0 <= j < i && Candidate(criteria, parts[j], size) ==>
      Displaces(criteria, parts[i], parts[j])
  {
    if parts == [] || !KnownCriteria(criteria) then |parts|
    else
      var last := |parts| - 1;
      var init := parts[..last];
      var i := Select(criteria, init, size);
      assert forall j :: 0 <= j < last ==> init[j] == parts[j];
      if i < last then
        if Candidate(criteria, parts[last], size) && Displaces(criteria, parts[last], parts[i]) then last else i
      else if Candidate(criteria, parts[last], size) then last
      else |parts|
  }

  /** FIRST succeeds exactly when some free partition is big enough. BEST needs one below INT_MAX
      and WORST one that is not empty, so on requests of positive size over partitions below
      INT_MAX all three succeed on exactly the same inputs. */
  lemma {:induction false} WhenEachCriterionSucceeds(parts: seq<Partition>, size: nat)
    ensures Select("FIRST", parts, size) < |parts| <==> exists j :: 0 <= j < |parts| && Fits(parts[j], size)
    ensures Select("BEST", parts, size) < |parts| <==>
      exists j :: 0 <= j < |parts| && Fits(parts[j], size) && parts[j].size < INT_MAX
    ensures Select("WORST", parts, size) < |parts| <==>
      exists j :: 0 <= j < |parts| && Fits(parts[j], size) && parts[j].size > 0
    ensures size > 0 && (forall j :: 0 <= j < |parts| ==> parts[j].size < INT_MAX) ==>
      (Select("FIRST", parts, size) < |parts| <==> Select("BEST", parts, size) < |parts|)
      && (Select("FIRST", parts, size) < |parts| <==> Select("WORST", parts, size) < |parts|)
  {
    forall c, j | KnownCriteria(c) && 0 <= j < |parts| && Candidate(c, parts[j], size)
      ensures Select(c, parts, size) < |parts|
    {
    }
    var f, b, w := Select("FIRST", parts, size), Select("BEST", parts, size), Select("WORST", parts, size);
    assert f < |parts| ==> Fits(parts[f], size);
    assert b < |parts| ==> Fits(parts[b], size) && parts[b].size < INT_MAX;
    assert w < |parts| ==> Fits(parts[w], size) && parts[w].size > 0;
    forall j | 0 <= j < |parts| && Fits(parts[j], size)
      ensures f < |parts| && (parts[j].size < INT_MAX ==> b < |parts|) && (parts[j].size > 0 ==> w < |parts|)
    {
      assert Candidate("FIRST", parts[j], size);
      assert parts[j].size < INT_MAX ==> Candidate("BEST", parts[j], size);
      assert parts[j].size > 0 ==> Candidate("WORST", parts[j], size);
    }
  }

  /** FIRST stops at the earliest fitting partition. */
  lemma {:induction false} FirstFit(parts: seq<Partition>, size: nat, i: nat)
    requires i <= |parts| && (i < |parts| ==> Fits(parts[i], size)) && forall j :: 0 <= j < i ==> !Fits(parts[j], size)
    ensures Select("FIRST", parts, size) == i
  {
    assert i < |parts| ==> Candidate("FIRST", parts[i], size);
    var s := Select("FIRST", parts, size);
    assert s < |parts| ==> Fits(parts[s], size);
  }

  // Building the dynamic list

  function Free(base: nat, limite: nat): Partition {
    Partition(-1, base, limite, limite - base, true)
  }

  function Occupied(p: Proc): Partition {
    Partition(p.pid, p.base, p.limite, p.limite - p.base, false)
  }

  /** Gaps and processes in list order, from address `cur` on. */
  function BuildFrom(procs: seq<Proc>, cur: nat, tam: nat): seq<Partition> {
    if procs == [] then
      if cur < tam then [Free(cur, tam)] else []
    else
      (if cur < procs[0].base then [Free(cur, procs[0].base)] else [])
      + [Occupied(procs[0])]
      + BuildFrom(procs[1..], procs[0].limite, tam)
  }

  /** The list built from processes already in base order. */
  function Build(procs: seq<Proc>, tam: nat): seq<Partition> {
    if procs == [] then [Free(0, tam)] else BuildFrom(procs, 0, tam)
  }

  // What a good list is

  /** Contiguous cover of [lo, hi), without overlap. */
  predicate Tiles(parts: seq<Partition>, lo: nat, hi: nat) {
    if parts == [] then lo == hi
    else parts[0].base == lo && parts[0].size == parts[0].limite - lo && Tiles(parts[1..], parts[0].limite, hi)
  }

  /** Each process ends no later than the next one starts, from `cur` up to the end of memory. */
  predicate LaidOut(procs: seq<Proc>, cur: nat, tam: nat) {
    if procs == [] then cur <= tam
    else cur <= procs[0].base && LaidOut(procs[1..], procs[0].limite, tam)
  }

  /** Every process ends its size after its base; the size may be zero. */
  predicate Sized(procs: seq<Proc>) {
    forall i :: 0 <= i < |procs| ==> procs[i].limite == procs[i].base + procs[i].size
  }

  /** The rebuilt list tiles the memory exactly when the processes, in list order, are laid out
      one after the other. */
  lemma {:induction false} RebuildTilesIff(procs: seq<Proc>, cur: nat, tam: nat)
    ensures Tiles(BuildFrom(procs, cur, tam), cur, tam) <==> LaidOut(procs, cur, tam)
  {
    var parts := BuildFrom(procs, cur, tam);
    if procs == [] {
      if cur < tam {
        assert parts[1..] == [];
      }
    } else {
      RebuildTilesIff(procs[1..], procs[0].limite, tam);
      var rest := BuildFrom(procs[1..], procs[0].limite, tam);
      if cur < procs[0].base {
        assert parts[1..] == [Occupied(procs[0])] + rest;
        assert parts[1..][1..] == rest;
      } else {
        assert parts[1..] == rest;
      }
    }
  }

  predicate SortedByBase(procs: seq<Proc>) {
    forall i, j :: 0 <= i < j < |procs| ==> procs[i].base <= procs[j].base
  }

  predicate NoAdjacentFree(parts: seq<Partition>) {
    forall i :: 0 <= i < |parts| - 1 ==> !(parts[i].isFree && parts[i + 1].isFree)
  }

  function SumSizes(parts: seq<Partition>): int {
    if parts == [] then 0 else parts[0].size + SumSizes(parts[1..])
  }

  /** The processes that hold a partition, as the list shows them, in address order. */
  function Holders(parts: seq<Partition>): seq<Partition> {
    if parts == [] then []
    else (if parts[0].isFree then [] else [parts[0]]) + Holders(parts[1..])
  }

  function AsPartitions(procs: seq<Proc>): seq<Partition> {
    if procs == [] then [] else [Occupied(procs[0])] + AsPartitions(procs[1..])
  }

  lemma {:induction false} TilesSum(parts: seq<Partition>, lo: nat, hi: nat)
    requires Tiles(parts, lo, hi)
    ensures SumSizes(parts) == hi - lo
  {
    if parts != [] {
      TilesSum(parts[1..], parts[0].limite, hi);
    }
  }

  lemma {:induction false} HoldersAppend(a: seq<Partition>, b: seq<Partition>)
    ensures Holders(a + b) == Holders(a) + Holders(b)
  {
    if a == [] {
      assert a + b == b;
    } else {
      assert (a + b)[1..] == a[1..] + b;
      HoldersAppend(a[1..], b);
    }
  }

  lemma {:induction false} HoldersAreTheProcesses(procs: seq<Proc>, cur: nat, tam: nat)
    ensures Holders(BuildFrom(procs, cur, tam)) == AsPartitions(procs)
  {
    if procs != [] {
      var rest := BuildFrom(procs[1..], procs[0].limite, tam);
      HoldersAreTheProcesses(procs[1..], procs[0].limite, tam);
      var gap := if cur < procs[0].base then [Free(cur, procs[0].base)] else [];
      HoldersAppend(gap, [Occupied(procs[0])] + rest);
      HoldersAppend([Occupied(procs[0])], rest);
      assert BuildFrom(procs, cur, tam) == gap + ([Occupied(procs[0])] + rest);
    }
  }

  lemma {:induction false} BuildHasNoAdjacentFree(procs: seq<Proc>, cur: nat, tam: nat)
    ensures NoAdjacentFree(BuildFrom(procs, cur, tam))
  {
    if procs != [] {
      BuildHasNoAdjacentFree(procs[1..], procs[0].limite, tam);
      var rest := BuildFrom(procs[1..], procs[0].limite, tam);
      var parts := BuildFrom(procs, cur, tam);
      var k := if cur < procs[0].base then 1 else 0;
      assert parts[k] == Occupied(procs[0]) && parts[k + 1..] == rest;
      forall i | 0 <= i < |parts| - 1 ensures !(parts[i].isFree && parts[i + 1].isFree) {
        if i > k {
          assert parts[i] == rest[i - k - 1] && parts[i + 1] == rest[i - k];
        }
      }
    }
  }
}
