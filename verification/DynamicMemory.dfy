/** The dynamic scheme over all runs. */
module DynamicMemory {
  import opened Lists
  import opened Partitions
  import opened LocalEdits
  import opened Memory

  /** Processes in base order without overlap, and the list that a rebuild gives for them. */
  predicate DynOk(m: State) {
    && m.scheme.Dinamicas? && m.tam > 0
    && Sized(m.procs) && LaidOut(m.procs, 0, m.tam)
    && m.parts == Build(m.procs, m.tam)
  }

  function Empty(criteria: string, tam: nat): State {
    State(Dinamicas, criteria, tam, [], Build([], tam))
  }

  lemma {:induction false} BuildIsBuildFrom(procs: seq<Proc>, tam: nat)
    requires tam > 0
    ensures Build(procs, tam) == BuildFrom(procs, 0, tam)
  {
  }

  /** Which first requests an empty memory accepts: under FIRST those that fit; under BEST none at all once
      memory has INT_MAX bytes or more; under WORST none at all when it has no bytes, not even the empty one. */
  lemma {:induction false} FirstRequestIff(tam: nat, pid: nat, size: nat)
    ensures TryCreate(Empty("FIRST", tam), pid, size).Some? <==> size <= tam
    ensures TryCreate(Empty("BEST", tam), pid, size).Some? <==> size <= tam < INT_MAX
    ensures TryCreate(Empty("WORST", tam), pid, size).Some? <==> size <= tam && tam > 0
    ensures TryCreate(Empty("BEST", INT_MAX), pid, size) == None
  {
    HoleSelected("FIRST", tam, size);
    HoleSelected("BEST", tam, size);
    HoleSelected("BEST", INT_MAX, size);
    HoleSelected("WORST", tam, size);
    hide Select, Rebuild;
  }

  lemma {:induction false} HoleSelected(criteria: string, tam: nat, size: nat)
    requires KnownCriteria(criteria)
    ensures Build([], tam) == [Free(0, tam)]
    ensures Select(criteria, [Free(0, tam)], size) < 1 <==> Candidate(criteria, Free(0, tam), size)
  {
    var i := Select(criteria, [Free(0, tam)], size);
    assert i < 1 ==> Candidate(criteria, [Free(0, tam)][i], size);
  }

  // Sorting

  lemma {:induction false} LaidOutSorted(procs: seq<Proc>, cur: nat, tam: nat)
    requires LaidOut(procs, cur, tam) && Sized(procs)
    ensures forall i :: 0 <= i < |procs| ==> cur <= procs[i].base
    ensures SortedByBase(procs)
  {
    if procs != [] {
      TailSized(procs);
      LaidOutSorted(procs[1..], procs[0].limite, tam);
      forall i, j | 0 <= i < j < |procs| ensures procs[i].base <= procs[j].base {
        assert procs[j] == procs[1..][j - 1];
        assert i > 0 ==> procs[i] == procs[1..][i - 1];
      }
      forall i | 0 <= i < |procs| ensures cur <= procs[i].base {
        assert i > 0 ==> procs[i] == procs[1..][i - 1];
      }
    }
  }

  lemma {:induction false} InsertAtEnd(procs: seq<Proc>, p: Proc)
    requires forall i :: 0 <= i < |procs| ==> procs[i].base <= p.base
    ensures InsertByBase(procs, p) == procs + [p]
  {
    if procs != [] {
      InsertAtEnd(procs[1..], p);
    }
  }

  lemma {:induction false} SortKeepsSorted(procs: seq<Proc>)
    requires SortedByBase(procs)
    ensures SortByBase(procs) == procs
  {
    if procs != [] {
      var init := procs[..|procs| - 1];
      SortKeepsSorted(init);
      InsertAtEnd(init, procs[|procs| - 1]);
    }
  }

  lemma {:induction false} SortInserts(procs: seq<Proc>, p: Proc)
    requires SortedByBase(procs)
    ensures SortByBase(procs + [p]) == InsertByBase(procs, p)
  {
    assert (procs + [p])[..|procs|] == procs;
    SortKeepsSorted(procs);
  }

  lemma {:induction false} InsertMembers(procs: seq<Proc>, p: Proc)
    ensures multiset(InsertByBase(procs, p)) == multiset(procs) + multiset{p}
  {
    if !(procs == [] || p.base < procs[0].base) {
      InsertMembers(procs[1..], p);
      assert procs == [procs[0]] + procs[1..];
    }
  }

  lemma {:induction false} SortPermutes(procs: seq<Proc>)
    ensures multiset(SortByBase(procs)) == multiset(procs)
  {
    hide InsertByBase;
    if procs != [] {
      var init := procs[..|procs| - 1];
      SortPermutes(init);
      InsertMembers(SortByBase(init), procs[|procs| - 1]);
      assert procs == init + [procs[|procs| - 1]];
    }
  }

  predicate StrictlySorted(procs: seq<Proc>) {
    forall i, j :: 0 <= i < j < |procs| ==> procs[i].base < procs[j].base
  }

  lemma {:induction false} SameHead(a: seq<Proc>, b: seq<Proc>)
    requires SortedByBase(a) && StrictlySorted(b) && multiset(a) == multiset(b) && a != [] && b != []
    ensures a[0] == b[0]
  {
    assert a[0] in multiset(b);
    assert b[0] in multiset(a);
    var i :| 0 <= i < |b| && b[i] == a[0];
    var j :| 0 <= j < |a| && a[j] == b[0];
    assert a[0].base <= a[j].base;
  }

  lemma HeadAndTail(a: seq<Proc>)
    requires a != []
    ensures multiset(a) == multiset(a[1..]) + multiset{a[0]}
  {
    assert a == [a[0]] + a[1..];
  }

  lemma TailsSorted(a: seq<Proc>, b: seq<Proc>)
    requires SortedByBase(a) && StrictlySorted(b) && a != [] && b != []
    ensures SortedByBase(a[1..]) && StrictlySorted(b[1..])
  {
  }

  lemma {:induction false} SortedListsAgree(a: seq<Proc>, b: seq<Proc>)
    requires SortedByBase(a) && StrictlySorted(b) && multiset(a) == multiset(b)
    ensures a == b
  {
    hide SortedByBase, StrictlySorted;
    assert |multiset(a)| == |multiset(b)|;
    if a != [] {
      SameHead(a, b);
      HeadAndTail(a);
      HeadAndTail(b);
      CancelAll(multiset(a[1..]), multiset(b[1..]), multiset{a[0]});
      TailsSorted(a, b);
      SortedListsAgree(a[1..], b[1..]);
      assert a == [a[0]] + a[1..] && b == [b[0]] + b[1..];
    }
  }

  lemma {:induction false} InsertSorts(procs: seq<Proc>, p: Proc)
    requires SortedByBase(procs)
    ensures SortedByBase(InsertByBase(procs, p))
  {
    if !(procs == [] || p.base < procs[0].base) {
      InsertSorts(procs[1..], p);
      InsertMembers(procs[1..], p);
      var rest := InsertByBase(procs[1..], p);
      forall j | 0 <= j < |rest| ensures procs[0].base <= rest[j].base {
        assert rest[j] in multiset(rest);
        assert rest[j] in procs[1..] || rest[j] == p;
      }
    }
  }

  lemma {:induction false} SortSorts(procs: seq<Proc>)
    ensures SortedByBase(SortByBase(procs))
  {
    if procs != [] {
      SortSorts(procs[..|procs| - 1]);
      InsertSorts(SortByBase(procs[..|procs| - 1]), procs[|procs| - 1]);
    }
  }

  /** Whatever sort the library uses, on distinct bases its result is this one. */
  lemma {:induction false} AnySortAgrees(procs: seq<Proc>, sorted: seq<Proc>)
    requires StrictlySorted(sorted) && multiset(sorted) == multiset(procs)
    ensures sorted == SortByBase(procs)
  {
    SortSorts(procs);
    SortPermutes(procs);
    SortedListsAgree(SortByBase(procs), sorted);
  }

  // One event at a time

  lemma {:induction false} InsertSized(procs: seq<Proc>, p: Proc)
    requires Sized(procs) && Sized([p])
    ensures Sized(InsertByBase(procs, p))
  {
    assert [p][0] == p;
    if !(procs == [] || p.base < procs[0].base) {
      TailSized(procs);
      InsertSized(procs[1..], p);
      assert forall i :: 0 <= i < |procs[1..]| ==> procs[1..][i] == procs[i + 1];
    }
  }

  /** Creating a process succeeds exactly when the criterion selects a hole; the new list is the
      old one with that hole carved, and a failed attempt changes nothing. */
  lemma {:induction false} CreateIsLocal(m: State, pid: nat, size: nat)
    requires DynOk(m)
    ensures DynOk(After(m, Create(pid, size)))
    ensures var i := Select(m.criteria, m.parts, size);
      if i == |m.parts| then After(m, Create(pid, size)) == m
      else After(m, Create(pid, size)).parts
           == Replace(m.parts, i, Carve(NewProc(pid, m.parts[i].base, size), m.parts[i]))
  {
    var i := Select(m.criteria, m.parts, size);
    if i < |m.parts| {
      BuildIsBuildFrom(m.procs, m.tam);
      var p := NewProc(pid, m.parts[i].base, size);
      PartSizes(m.procs, 0, m.tam, i);
      LaidOutSorted(m.procs, 0, m.tam);
      SortInserts(m.procs, p);
      CreateCarvesTheHole(m.procs, 0, m.tam, i, p);
      InsertSized(m.procs, p);
      BuildIsBuildFrom(InsertByBase(m.procs, p), m.tam);
    }
  }

  lemma {:induction false} PartSizes(procs: seq<Proc>, cur: nat, tam: nat, i: nat)
    requires i < |BuildFrom(procs, cur, tam)|
    ensures var part := BuildFrom(procs, cur, tam)[i]; part.size == part.limite - part.base
  {
    if procs != [] {
      var off := (if cur < procs[0].base then 1 else 0) + 1;
      if i >= off {
        PartSizes(procs[1..], procs[0].limite, tam, i - off);
        assert BuildFrom(procs, cur, tam)[i] == BuildFrom(procs[1..], procs[0].limite, tam)[i - off];
      }
    }
  }

  lemma RemoveKeepsSized(procs: seq<Proc>, i: nat)
    requires i < |procs| && Sized(procs)
    ensures Sized(RemoveAt(procs, i))
  {
    forall j | 0 <= j < |procs| - 1
      ensures RemoveAt(procs, i)[j] == procs[if j < i then j else j + 1]
    {
    }
  }

  /** Deleting a process frees its partition and merges it with its free neighbours. */
  lemma {:induction false} DeleteIsLocal(m: State, pid: nat)
    requires DynOk(m)
    ensures DynOk(Delete(m, pid))
    ensures var k := FindProc(m.procs, pid);
      if k == |m.procs| then Delete(m, pid) == m
      else
        var i := PlaceOf(m.procs, 0, k);
        i < |m.parts| && m.parts[i] == Occupied(m.procs[k]) && Delete(m, pid).parts == FreeAndMerge(m.parts, i)
  {
    var k := FindProc(m.procs, pid);
    if k < |m.procs| {
      hide FreeAndMerge, FindProc;
      BuildIsBuildFrom(m.procs, m.tam);
      PlaceHolds(m.procs, 0, m.tam, k);
      DeleteFreesAndMerges(m.procs, 0, m.tam, k);
      RemoveKeepsSized(m.procs, k);
      var left := RemoveAt(m.procs, k);
      LaidOutSorted(left, 0, m.tam);
      SortKeepsSorted(left);
      BuildIsBuildFrom(left, m.tam);
    }
  }

  lemma {:induction false} ThreadsDoNotMatter(a: seq<Proc>, b: seq<Proc>, cur: nat, tam: nat)
    requires SameBounds(a, b)
    ensures BuildFrom(a, cur, tam) == BuildFrom(b, cur, tam)
    ensures LaidOut(a, cur, tam) <==> LaidOut(b, cur, tam)
  {
    if a != [] {
      ThreadsDoNotMatter(a[1..], b[1..], a[0].limite, tam);
    }
  }

  /** Anything that only touches threads leaves the list as it is, whether or not it is rebuilt. */
  lemma ThreadEventsKeepList(m: State, t: State)
    requires DynOk(m) && t == m.(procs := t.procs) && SameBounds(t.procs, m.procs)
    ensures DynOk(t) && Rebuild(t) == t
  {
    ThreadsDoNotMatter(t.procs, m.procs, 0, m.tam);
    BuildIsBuildFrom(t.procs, m.tam);
    BuildIsBuildFrom(m.procs, m.tam);
    forall i | 0 <= i < |t.procs|
      ensures t.procs[i].limite == t.procs[i].base + t.procs[i].size
    {
      assert m.procs[i].limite == m.procs[i].base + m.procs[i].size;
    }
    LaidOutSorted(t.procs, 0, m.tam);
    SortKeepsSorted(t.procs);
  }

  /** Thread creation, thread exit (which rebuilds) and write-backs never change the list. */
  lemma OtherEventsKeepList(m: State, e: Event)
    requires DynOk(m) && Allowed(m, e) && !e.Create? && !e.Destroy?
    ensures DynOk(After(m, e)) && After(m, e).parts == m.parts
  {
    var k := FindProc(m.procs, e.pid);
    if k < |m.procs| {
      match e
      case StartThread(pid, tid) =>
        ThreadEventsKeepList(m, After(m, e));
      case EndThread(pid, tid) =>
        var j := FindThread(m.procs[k].threads, tid);
        if j < |m.procs[k].threads| {
          ThreadEventsKeepList(m, WithThreads(m, k, RemoveAt(m.procs[k].threads, j)));
        }
      case WriteBack(pid, tid, c) =>
        ThreadEventsKeepList(m, After(m, e));
    }
  }

  lemma EventKeepsOk(m: State, e: Event)
    requires DynOk(m) && Allowed(m, e)
    ensures DynOk(After(m, e)) && After(m, e).tam == m.tam
  {
    hide DynOk, Allowed;
    match e
    case Create(pid, size) =>
      CreateIsLocal(m, pid, size);
    case Destroy(pid) => DeleteIsLocal(m, pid);
    case _ => OtherEventsKeepList(m, e);
  }

  // All runs

  lemma {:induction false} RunKeepsOk(m: State, events: seq<Event>)
    requires DynOk(m) && AllAllowed(m, events)
    ensures DynOk(AfterAll(m, events)) && AfterAll(m, events).tam == m.tam
    decreases |events|
  {
    hide DynOk, Allowed, After;
    if events != [] {
      EventKeepsOk(m, events[0]);
      RunKeepsOk(After(m, events[0]), events[1..]);
    }
  }

  /** After any sequence of creates, failed creates, deletes, thread events and write-backs the
      partitions cover the memory contiguously without overlap, no two adjacent ones are free, the
      occupied ones are exactly the live processes in address order, and the sizes sum to the total. */
  lemma {:induction false} TilingOverAllRuns(criteria: string, tam: nat, events: seq<Event>)
    requires tam > 0 && AllAllowed(Empty(criteria, tam), events)
    ensures var m := AfterAll(Empty(criteria, tam), events);
      && Tiles(m.parts, 0, tam)
      && NoAdjacentFree(m.parts)
      && Holders(m.parts) == AsPartitions(m.procs)
      && SumSizes(m.parts) == tam
      && SortedByBase(m.procs) && Sized(m.procs)
  {
    hide AllAllowed, AfterAll;
    RunKeepsOk(Empty(criteria, tam), events);
    var m := AfterAll(Empty(criteria, tam), events);
    BuildIsBuildFrom(m.procs, tam);
    RebuildTilesIff(m.procs, 0, tam);
    BuildHasNoAdjacentFree(m.procs, 0, tam);
    HoldersAreTheProcesses(m.procs, 0, tam);
    TilesSum(m.parts, 0, tam);
    LaidOutSorted(m.procs, 0, tam);
  }

  // Two creations from an empty memory

  lemma EmptyOk(criteria: string, tam: nat)
    requires tam > 0
    ensures DynOk(Empty(criteria, tam))
  {
  }

  lemma {:induction false} FirstCreated(m: State, pid: nat, size: nat)
    requires m.scheme.Dinamicas? && m.criteria == "FIRST" && m.procs == [] && m.parts == [Free(0, m.tam)]
    requires size < m.tam
    ensures var t := After(m, Create(pid, size)); var p := NewProc(pid, 0, size);
      t == m.(procs := [p], parts := [Occupied(p), Free(size, m.tam)])
  {
    FirstFit(m.parts, size, 0);
    hide Select;
    var p := NewProc(pid, 0, size);
    assert [] + [p] == [p];
    SortInserts([], p);
    BuildCons([p], 0, m.tam);
    assert [p][1..] == [];
    assert BuildFrom([], size, m.tam) == [Free(size, m.tam)];
  }

  lemma {:induction false} SecondCreated(m: State, p: Proc, pid: nat, size: nat)
    requires m.scheme.Dinamicas? && m.criteria == "FIRST" && m.procs == [p] && p.base <= p.limite
    requires m.parts == [Occupied(p), Free(p.limite, m.tam)] && 0 < size && p.limite + size <= m.tam
    ensures After(m, Create(pid, size)).procs == [p, NewProc(pid, p.limite, size)]
  {
    FirstFit(m.parts, size, 1);
    hide Select;
    var q := NewProc(pid, p.limite, size);
    SortInserts([p], q);
    assert [p][1..] == [];
    assert InsertByBase([], q) == [q];
  }

  lemma {:induction false} TwoEvents(m: State, events: seq<Event>)
    requires |events| == 2 && events[0].Create? && events[1].Create?
    ensures AllAllowed(m, events) && AfterAll(m, events) == After(After(m, events[0]), events[1])
  {
    hide After;
    var m1 := After(m, events[0]);
    var m2 := After(m1, events[1]);
    assert events[1..][1..] == [] && events[1..][0] == events[1];
    assert AfterAll(m2, []) == m2 && AllAllowed(m2, []);
    assert AfterAll(m1, events[1..]) == m2 && AllAllowed(m1, events[1..]);
  }

  /** The second process starts where the first one ends. */
  lemma {:induction false} TwoCreated(tam: nat, first: nat, a: nat, second: nat, b: nat, events: seq<Event>)
    requires events == [Create(first, a), Create(second, b)] && 0 < b && a + b <= tam
    ensures AllAllowed(Empty("FIRST", tam), events)
    ensures AfterAll(Empty("FIRST", tam), events).procs == [NewProc(first, 0, a), NewProc(second, a, b)]
  {
    hide After, Select, AfterAll, AllAllowed;
    var m := Empty("FIRST", tam);
    FirstCreated(m, first, a);
    SecondCreated(After(m, events[0]), NewProc(first, 0, a), second, b);
    TwoEvents(m, events);
  }

  // Word alignment

  predicate Aligned(procs: seq<Proc>) {
    forall i :: 0 <= i < |procs| ==> procs[i].base % 4 == 0 && procs[i].limite % 4 == 0
  }

  predicate WordSized(events: seq<Event>) {
    forall i :: 0 <= i < |events| && events[i].Create? ==> events[i].size % 4 == 0
  }

  lemma {:induction false} PartsAligned(procs: seq<Proc>, cur: nat, tam: nat, i: nat)
    requires Aligned(procs) && cur % 4 == 0 && i < |BuildFrom(procs, cur, tam)|
    ensures BuildFrom(procs, cur, tam)[i].base % 4 == 0
  {
    if procs != [] {
      BuildCons(procs, cur, tam);
      var off := |Gap(procs, cur)| + 1;
      if i >= off {
        PartsAligned(procs[1..], procs[0].limite, tam, i - off);
      }
    }
  }

  lemma {:induction false} InsertAligned(procs: seq<Proc>, p: Proc)
    requires Aligned(procs) && p.base % 4 == 0 && p.limite % 4 == 0
    ensures Aligned(InsertByBase(procs, p))
  {
    InsertMembers(procs, p);
    forall i | 0 <= i < |InsertByBase(procs, p)|
      ensures InsertByBase(procs, p)[i].base % 4 == 0 && InsertByBase(procs, p)[i].limite % 4 == 0
    {
      var q := InsertByBase(procs, p)[i];
      assert q in multiset(InsertByBase(procs, p));
      assert q in multiset(procs) || q == p;
    }
  }

  lemma SumOfMultiples(a: nat, b: nat)
    requires a % 4 == 0 && b % 4 == 0
    ensures (a + b) % 4 == 0
  {
  }

  lemma EventKeepsAligned(m: State, e: Event)
    requires DynOk(m) && Allowed(m, e) && Aligned(m.procs) && (e.Create? ==> e.size % 4 == 0)
    ensures Aligned(After(m, e).procs)
  {
    if e.Create? {
      var i := Select(m.criteria, m.parts, e.size);
      if i < |m.parts| {
        BuildIsBuildFrom(m.procs, m.tam);
        PartsAligned(m.procs, 0, m.tam, i);
        LaidOutSorted(m.procs, 0, m.tam);
        SortInserts(m.procs, NewProc(e.pid, m.parts[i].base, e.size));
        SumOfMultiples(m.parts[i].base, e.size);
        InsertAligned(m.procs, NewProc(e.pid, m.parts[i].base, e.size));
      }
    } else {
      OtherAligned(m, e);
    }
  }

  lemma {:induction false} SortAligned(procs: seq<Proc>)
    requires Aligned(procs)
    ensures Aligned(SortByBase(procs))
  {
    SortPermutes(procs);
    forall i | 0 <= i < |SortByBase(procs)|
      ensures SortByBase(procs)[i].base % 4 == 0 && SortByBase(procs)[i].limite % 4 == 0
    {
      assert SortByBase(procs)[i] in multiset(SortByBase(procs));
      assert SortByBase(procs)[i] in procs;
    }
  }

  lemma OtherAligned(m: State, e: Event)
    requires Allowed(m, e) && Aligned(m.procs) && !e.Create?
    ensures Aligned(After(m, e).procs)
  {
    var k := FindProc(m.procs, e.pid);
    if k < |m.procs| {
      match e
      case Destroy(pid) =>
        assert Aligned(RemoveAt(m.procs, k));
        SortAligned(RemoveAt(m.procs, k));
      case StartThread(pid, tid) =>
      case EndThread(pid, tid) =>
        var j := FindThread(m.procs[k].threads, tid);
        if j < |m.procs[k].threads| {
          SortAligned(WithThreads(m, k, RemoveAt(m.procs[k].threads, j)).procs);
        }
      case WriteBack(pid, tid, c) =>
    }
  }

  lemma {:induction false} RunKeepsAligned(m: State, events: seq<Event>)
    requires DynOk(m) && AllAllowed(m, events) && Aligned(m.procs) && WordSized(events)
    ensures Aligned(AfterAll(m, events).procs)
    decreases |events|
  {
    hide DynOk, Allowed, After, Aligned;
    if events != [] {
      EventKeepsOk(m, events[0]);
      EventKeepsAligned(m, events[0]);
      RunKeepsAligned(After(m, events[0]), events[1..]);
    }
  }

  /** With word-multiple process sizes every reachable process starts and ends on a word boundary. */
  lemma {:induction false} BasesStayAligned(criteria: string, tam: nat, events: seq<Event>)
    requires tam > 0 && AllAllowed(Empty(criteria, tam), events) && WordSized(events)
    ensures Aligned(AfterAll(Empty(criteria, tam), events).procs)
  {
    RunKeepsAligned(Empty(criteria, tam), events);
  }
}
