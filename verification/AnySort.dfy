/** The library's sort is only known to leave processes in base order. When that is enough for the
    rebuilt list to tile the memory, and when it is not. */
module AnySort {
  import opened Lists
  import opened Partitions
  import opened LocalEdits
  import opened Memory
  import opened DynamicMemory
  import opened Contexts

  /** Any order by base, whatever it does with equal bases. */
  ghost predicate SortOf(sorted: seq<Proc>, procs: seq<Proc>) {
    SortedByBase(sorted) && multiset(sorted) == multiset(procs)
  }

  /** A process that holds at least one byte shares its base with another one. */
  predicate Crowded(procs: seq<Proc>) {
    exists i, j :: 0 <= i < |procs| && 0 <= j < |procs| && i != j && Shares(procs[i], procs[j])
  }

  predicate Shares(p: Proc, q: Proc) {
    p.base == q.base && p.base < p.limite
  }

  /** Each process ends no later than every later one starts. */
  predicate Apart(procs: seq<Proc>) {
    forall i, j :: 0 <= i < j < |procs| ==> procs[i].limite <= procs[j].base
  }

  lemma {:induction false} LaidOutApart(procs: seq<Proc>, cur: nat, tam: nat)
    requires LaidOut(procs, cur, tam) && Sized(procs)
    ensures Apart(procs) && forall i :: 0 <= i < |procs| ==> cur <= procs[i].base && procs[i].limite <= tam
  {
    if procs != [] {
      TailSized(procs);
      LaidOutEnds(procs[1..], procs[0].limite, tam);
      LaidOutApart(procs[1..], procs[0].limite, tam);
      assert forall i :: 0 < i < |procs| ==> procs[i] == procs[1..][i - 1];
    }
  }

  lemma {:induction false} ApartLaidOut(procs: seq<Proc>, cur: nat, tam: nat)
    requires Apart(procs) && Sized(procs) && cur <= tam
    requires forall i :: 0 <= i < |procs| ==> cur <= procs[i].base && procs[i].limite <= tam
    ensures LaidOut(procs, cur, tam)
  {
    if procs != [] {
      assert forall i :: 0 <= i < |procs[1..]| ==> procs[1..][i] == procs[i + 1];
      ApartLaidOut(procs[1..], procs[0].limite, tam);
    }
  }

  lemma {:induction false} FindTwo(s: seq<Proc>, p: Proc) returns (i: nat, j: nat)
    requires multiset(s)[p] >= 2
    ensures i < |s| && j < |s| && i != j && s[i] == p && s[j] == p
  {
    var last := |s| - 1;
    assert s == s[..last] + [s[last]];
    if s[last] == p {
      assert p in multiset(s[..last]);
      i :| 0 <= i < last && s[i] == p;
      j := last;
    } else {
      i, j := FindTwo(s[..last], p);
    }
  }

  /** Two places of one list have two places of any rearrangement. */
  lemma {:induction false} TwoPlaces(a: seq<Proc>, b: seq<Proc>, i: nat, j: nat) returns (k: nat, l: nat)
    requires multiset(a) == multiset(b) && i < |a| && j < |a| && i != j
    ensures k < |b| && l < |b| && k != l && b[k] == a[i] && b[l] == a[j]
  {
    if a[i] == a[j] {
      var lo, hi := if i < j then i else j, if i < j then j else i;
      assert a == a[..lo] + [a[lo]] + a[lo + 1..hi] + [a[hi]] + a[hi + 1..];
      assert multiset(a)[a[i]] >= 2;
      k, l := FindTwo(b, a[i]);
    } else {
      assert a[i] in multiset(b) && a[j] in multiset(b);
      k :| 0 <= k < |b| && b[k] == a[i];
      l :| 0 <= l < |b| && b[l] == a[j];
    }
  }

  lemma {:induction false} CrowdedAnyOrder(a: seq<Proc>, b: seq<Proc>)
    requires multiset(a) == multiset(b) && Crowded(a)
    ensures Crowded(b)
  {
    var i, j :| 0 <= i < |a| && 0 <= j < |a| && i != j && Shares(a[i], a[j]);
    var k, l := TwoPlaces(a, b, i, j);
    assert Shares(b[k], b[l]);
  }

  lemma {:induction false} UncrowdedSortTiles(procs: seq<Proc>, sorted: seq<Proc>, tam: nat)
    requires Sized(procs) && LaidOut(procs, 0, tam) && SortOf(sorted, procs) && !Crowded(procs)
    ensures LaidOut(sorted, 0, tam)
  {
    LaidOutApart(procs, 0, tam);
    LaidOutEnds(procs, 0, tam);
    forall i | 0 <= i < |sorted|
      ensures sorted[i].limite <= tam && sorted[i].limite == sorted[i].base + sorted[i].size
    {
      assert sorted[i] in multiset(procs);
    }
    forall i, j | 0 <= i < j < |sorted| ensures sorted[i].limite <= sorted[j].base {
      var k, l := TwoPlaces(sorted, procs, i, j);
      assert !Shares(procs[k], procs[l]);
    }
    ApartLaidOut(sorted, 0, tam);
  }

  lemma {:induction false} SwapEquals(procs: seq<Proc>, j: nat, i: nat)
    requires SortedByBase(procs) && j < i < |procs| && procs[j].base == procs[i].base
    ensures SortOf(procs[j := procs[i]][i := procs[j]], procs)
  {
    var sorted := procs[j := procs[i]][i := procs[j]];
    forall k, l | 0 <= k < l < |sorted| ensures sorted[k].base <= sorted[l].base {
      assert sorted[k].base == procs[k].base && sorted[l].base == procs[l].base;
    }
    SwapMultiset(procs, j, i);
  }

  lemma SwapMultiset(procs: seq<Proc>, j: nat, i: nat)
    requires j < i < |procs|
    ensures multiset(procs[j := procs[i]][i := procs[j]]) == multiset(procs)
  {
  }

  /** Putting the non-empty process first is still in base order. */
  lemma {:induction false} CrowdedSortBreaks(procs: seq<Proc>, tam: nat) returns (sorted: seq<Proc>)
    requires Sized(procs) && LaidOut(procs, 0, tam) && Crowded(procs)
    ensures SortOf(sorted, procs) && !LaidOut(sorted, 0, tam)
  {
    hide LaidOut, SortOf, SortedByBase;
    var i, j :| 0 <= i < |procs| && 0 <= j < |procs| && i != j && Shares(procs[i], procs[j]);
    LaidOutApart(procs, 0, tam);
    LaidOutSorted(procs, 0, tam);
    assert j < i;
    sorted := procs[j := procs[i]][i := procs[j]];
    SwapEquals(procs, j, i);
    SwappedNotApart(procs, sorted, j, i, tam);
  }

  lemma {:induction false} SwappedNotApart(procs: seq<Proc>, sorted: seq<Proc>, j: nat, i: nat, tam: nat)
    requires Sized(procs) && j < i < |procs| && Shares(procs[i], procs[j])
    requires sorted == procs[j := procs[i]][i := procs[j]]
    ensures !LaidOut(sorted, 0, tam)
  {
    hide LaidOut;
    assert sorted[j] == procs[i] && sorted[i] == procs[j];
    assert Sized(sorted);
    if LaidOut(sorted, 0, tam) {
      LaidOutApart(sorted, 0, tam);
      assert false;
    }
  }

  ghost predicate EverySortTiles(procs: seq<Proc>, tam: nat) {
    forall sorted: seq<Proc> :: SortOf(sorted, procs) ==> Tiles(Build(sorted, tam), 0, tam)
  }

  /** Rebuilding tiles the memory whatever the sort does with equal bases if and only if no process
      that holds a byte shares its base with another. */
  lemma {:induction false} EverySortTilesIff(m: State)
    requires DynOk(m)
    ensures EverySortTiles(m.procs, m.tam) <==> !Crowded(m.procs)
  {
    if Crowded(m.procs) {
      var sorted := CrowdedSortBreaks(m.procs, m.tam);
      RebuildTilesIff(sorted, 0, m.tam);
      BuildIsBuildFrom(sorted, m.tam);
      assert SortOf(sorted, m.procs);
    } else {
      forall sorted: seq<Proc> | SortOf(sorted, m.procs) ensures Tiles(Build(sorted, m.tam), 0, m.tam) {
        UncrowdedSortTiles(m.procs, sorted, m.tam);
        RebuildTilesIff(sorted, 0, m.tam);
        BuildIsBuildFrom(sorted, m.tam);
      }
    }
  }

  /** No process that holds a byte starts where a hole does. */
  lemma {:induction false} HoleHoldsNothing(procs: seq<Proc>, cur: nat, tam: nat, h: nat, i: nat)
    requires LaidOut(procs, cur, tam) && Sized(procs) && h < |BuildFrom(procs, cur, tam)| && i < |procs|
    requires BuildFrom(procs, cur, tam)[h].isFree && procs[i].base < procs[i].limite
    ensures procs[i].base != BuildFrom(procs, cur, tam)[h].base
  {
    BuildCons(procs, cur, tam);
    TailSized(procs);
    LaidOutApart(procs, cur, tam);
    var off := |Gap(procs, cur)| + 1;
    if h >= off {
      HolesStartLater(procs[1..], procs[0].limite, tam, h - off);
      if i > 0 {
        HoleHoldsNothing(procs[1..], procs[0].limite, tam, h - off, i - 1);
      }
    }
  }

  /** Whether a creation puts a sort's treatment of equal bases to the test can be told from the
      request: it asks for at least one byte, and some process, an empty one, starts at the hole. */
  lemma {:induction false} CreationCrowdsIff(m: State, pid: nat, size: nat)
    requires DynOk(m) && !Crowded(m.procs) && Select(m.criteria, m.parts, size) < |m.parts|
    ensures var base := m.parts[Select(m.criteria, m.parts, size)].base;
      Crowded(After(m, Create(pid, size)).procs)
      <==> size > 0 && exists k :: 0 <= k < |m.procs| && m.procs[k].base == base
  {
    var i := Select(m.criteria, m.parts, size);
    var p := NewProc(pid, m.parts[i].base, size);
    assert m.parts[i].isFree;
    hide Select;
    BuildIsBuildFrom(m.procs, m.tam);
    var grown := m.procs + [p];
    assert After(m, Create(pid, size)).procs == SortByBase(grown);
    SortPermutes(grown);
    hide SortByBase, After;
    forall k | 0 <= k < |m.procs| && m.procs[k].base < m.procs[k].limite ensures m.procs[k].base != p.base {
      HoleHoldsNothing(m.procs, 0, m.tam, i, k);
    }
    AppendCrowds(m.procs, p);
    if Crowded(grown) {
      CrowdedAnyOrder(grown, SortByBase(grown));
    } else if Crowded(SortByBase(grown)) {
      CrowdedAnyOrder(SortByBase(grown), grown);
    }
  }

  lemma AppendCrowds(procs: seq<Proc>, p: Proc)
    requires !Crowded(procs) && p.limite == p.base + p.size
    requires forall k :: 0 <= k < |procs| && procs[k].base < procs[k].limite ==> procs[k].base != p.base
    ensures Crowded(procs + [p]) <==> p.size > 0 && exists k :: 0 <= k < |procs| && procs[k].base == p.base
  {
    var grown := procs + [p];
    forall k, l | 0 <= k < |procs| && 0 <= l < |procs| && k != l ensures !Shares(grown[k], grown[l]) {
      assert !Shares(procs[k], procs[l]);
    }
    if k :| 0 <= k < |procs| && procs[k].base == p.base {
      assert p.size > 0 ==> Shares(grown[|procs|], grown[k]);
    }
  }

  /** Two creations, the first of size zero: the processes reached are in one of two base orders,
      and rebuilding from the other one runs backwards. */
  lemma {:induction false} ZeroSizeMeetsTheSort(tam: nat, first: nat, second: nat, size: nat, events: seq<Event>)
    requires 0 < size <= tam && events == [Create(first, 0), Create(second, size)]
    ensures var m := AfterAll(Empty("FIRST", tam), events);
      var empty, big := NewProc(first, 0, 0), NewProc(second, 0, size);
      && DynOk(m) && m.procs == [empty, big] && Tiles(m.parts, 0, tam)
      && SortOf([big, empty], m.procs) && !Tiles(Build([big, empty], tam), 0, tam)
  {
    hide DynOk, Tiles, Build, AfterAll, AllAllowed, SortOf;
    TwoCreated(tam, first, 0, second, size, events);
    TilingOverAllRuns("FIRST", tam, events);
    EmptyOk("FIRST", tam);
    RunKeepsOk(Empty("FIRST", tam), events);
    OtherOrder(NewProc(first, 0, 0), NewProc(second, 0, size), tam);
  }

  lemma {:induction false} OtherOrder(empty: Proc, big: Proc, tam: nat)
    requires empty.base == empty.limite == big.base < big.limite
    ensures SortOf([big, empty], [empty, big]) && !Tiles(Build([big, empty], tam), 0, tam)
  {
    RebuildTilesIff([big, empty], 0, tam);
    assert [big, empty][1..] == [empty];
    assert !LaidOut([big, empty], 0, tam);
  }

  // Runs without empty processes

  predicate NonEmpty(procs: seq<Proc>) {
    forall i :: 0 <= i < |procs| ==> procs[i].base < procs[i].limite
  }

  lemma NonEmptyMembers(a: seq<Proc>, b: seq<Proc>)
    requires NonEmpty(a) && forall p :: p in multiset(b) ==> p in multiset(a) || p.base < p.limite
    ensures NonEmpty(b)
  {
    forall i | 0 <= i < |b| ensures b[i].base < b[i].limite {
      assert b[i] in multiset(b);
    }
  }

  lemma {:induction false} GrownNonEmpty(m: State, pid: nat, size: nat)
    requires NonEmpty(m.procs) && m.scheme.Dinamicas? && size > 0
    ensures NonEmpty(After(m, Create(pid, size)).procs)
  {
    hide SortByBase, Select, Build;
    var i := Select(m.criteria, m.parts, size);
    if i < |m.parts| {
      var grown := m.procs + [NewProc(pid, m.parts[i].base, size)];
      SortPermutes(grown);
      NonEmptyMembers(m.procs, SortByBase(grown));
    }
  }

  lemma {:induction false} ShrunkNonEmpty(m: State, pid: nat)
    requires NonEmpty(m.procs) && m.scheme.Dinamicas?
    ensures NonEmpty(Delete(m, pid).procs)
  {
    hide SortByBase, FindProc, Build;
    var k := FindProc(m.procs, pid);
    if k < |m.procs| {
      SortPermutes(RemoveAt(m.procs, k));
      NonEmptyMembers(m.procs, SortByBase(RemoveAt(m.procs, k)));
    }
  }

  lemma {:induction false} EventKeepsNonEmpty(m: State, e: Event)
    requires DynOk(m) && Allowed(m, e) && NonEmpty(m.procs) && (e.Create? ==> e.size > 0)
    ensures NonEmpty(After(m, e).procs)
  {
    if e.Create? {
      GrownNonEmpty(m, e.pid, e.size);
    } else if e.Destroy? {
      ShrunkNonEmpty(m, e.pid);
    } else if Lookup(m.procs, e.pid).None? {
      NothingToDo(m, e);
    } else {
      LaidOutSorted(m.procs, 0, m.tam);
      EventOnOwn(m, e);
      hide After;
    }
  }

  predicate PositiveSizes(events: seq<Event>) {
    forall i :: 0 <= i < |events| && events[i].Create? ==> events[i].size > 0
  }

  lemma {:induction false} RunKeepsNonEmpty(m: State, events: seq<Event>)
    requires DynOk(m) && AllAllowed(m, events) && NonEmpty(m.procs) && PositiveSizes(events)
    ensures DynOk(AfterAll(m, events)) && NonEmpty(AfterAll(m, events).procs)
    decreases |events|
  {
    hide DynOk, Allowed, After, NonEmpty;
    if events != [] {
      EventKeepsOk(m, events[0]);
      EventKeepsNonEmpty(m, events[0]);
      RunKeepsNonEmpty(After(m, events[0]), events[1..]);
    }
  }

  /** When every request is for at least one byte, no sort by base can break the tiling, in any
      state the requests lead to. */
  lemma {:induction false} PositiveRunsTileUnderAnySort(criteria: string, tam: nat, events: seq<Event>)
    requires tam > 0 && AllAllowed(Empty(criteria, tam), events) && PositiveSizes(events)
    ensures EverySortTiles(AfterAll(Empty(criteria, tam), events).procs, tam)
  {
    hide AllAllowed, AfterAll;
    EmptyOk(criteria, tam);
    RunKeepsNonEmpty(Empty(criteria, tam), events);
    RunKeepsOk(Empty(criteria, tam), events);
    var m := AfterAll(Empty(criteria, tam), events);
    LaidOutApart(m.procs, 0, tam);
    assert forall i, j :: 0 <= i < |m.procs| && 0 <= j < |m.procs| && i != j ==> !Shares(m.procs[i], m.procs[j]);
    EverySortTilesIff(m);
  }
}
