/** Where processes lie does not depend on their threads: the memory module without thread records
    makes the same placements. */
module BareMemory {
  import opened Lists
  import opened Partitions
  import opened LocalEdits
  import opened Memory
  import opened DynamicMemory
  import opened FixedMemory
  import opened Contexts

  function Bare(p: Proc): Proc {
    p.(threads := [])
  }

  function BareProcs(procs: seq<Proc>): (r: seq<Proc>)
    ensures |r| == |procs|
    ensures forall i :: 0 <= i < |procs| ==> r[i] == Bare(procs[i])
  {
    seq(|procs|, i requires 0 <= i < |procs| => Bare(procs[i]))
  }

  /** The same memory with every thread record dropped. */
  function Strip(m: State): State {
    m.(procs := BareProcs(m.procs))
  }

  lemma {:induction false} LookupBare(procs: seq<Proc>, pid: nat)
    ensures FindProc(BareProcs(procs), pid) == FindProc(procs, pid)
    ensures Lookup(BareProcs(procs), pid) ==
      match Lookup(procs, pid) case None => None case Some(p) => Some(Bare(p))
  {
    SamePidsSameFind(BareProcs(procs), procs, pid);
  }

  lemma {:induction false} InsertBare(procs: seq<Proc>, p: Proc)
    ensures BareProcs(InsertByBase(procs, p)) == InsertByBase(BareProcs(procs), Bare(p))
  {
    if procs == [] || p.base < procs[0].base {
      assert BareProcs([p] + procs) == [Bare(p)] + BareProcs(procs);
    } else {
      InsertBare(procs[1..], p);
      assert BareProcs(procs)[1..] == BareProcs(procs[1..]);
      assert BareProcs([procs[0]] + InsertByBase(procs[1..], p))
        == [Bare(procs[0])] + BareProcs(InsertByBase(procs[1..], p));
    }
  }

  lemma {:induction false} SortBare(procs: seq<Proc>)
    ensures BareProcs(SortByBase(procs)) == SortByBase(BareProcs(procs))
  {
    if procs != [] {
      var last := |procs| - 1;
      SortBare(procs[..last]);
      InsertBare(SortByBase(procs[..last]), procs[last]);
      assert BareProcs(procs)[..last] == BareProcs(procs[..last]);
    }
  }

  lemma BuildBare(procs: seq<Proc>, tam: nat)
    ensures Build(BareProcs(procs), tam) == Build(procs, tam)
  {
    ThreadsDoNotMatter(BareProcs(procs), procs, 0, tam);
  }

  lemma {:induction false} RebuildBare(m: State)
    ensures Strip(Rebuild(m)) == Rebuild(Strip(m))
  {
    SortBare(m.procs);
    BuildBare(SortByBase(m.procs), m.tam);
  }

  /** A creation selects the same partition and succeeds on the same requests. */
  lemma {:induction false} CreateBare(m: State, pid: nat, size: nat)
    ensures TryCreate(Strip(m), pid, size) ==
      match TryCreate(m, pid, size) case None => None case Some(t) => Some(Strip(t))
  {
    hide Select, Rebuild;
    var i := Select(m.criteria, m.parts, size);
    if i < |m.parts| {
      var p := NewProc(pid, m.parts[i].base, size);
      assert BareProcs(m.procs + [p]) == BareProcs(m.procs) + [p];
      RebuildBare(m.(procs := m.procs + [p]));
    }
  }

  lemma {:induction false} DeleteBare(m: State, pid: nat)
    ensures Delete(Strip(m), pid) == Strip(Delete(m, pid))
  {
    hide Rebuild, FindProc, FindPart;
    LookupBare(m.procs, pid);
    var k := FindProc(m.procs, pid);
    if k < |m.procs| {
      assert BareProcs(RemoveAt(m.procs, k)) == RemoveAt(BareProcs(m.procs), k);
      RebuildBare(m.(procs := RemoveAt(m.procs, k)));
    }
  }

  // What a memory state that serves the kernel satisfies

  predicate DistinctTids(threads: seq<Thread>) {
    forall i, j :: 0 <= i < j < |threads| ==> threads[i].tid != threads[j].tid
  }

  predicate TidsOk(p: Option<Proc>) {
    p.Some? ==> DistinctTids(p.value.threads)
  }

  /** How far the partitions reach. */
  function Extent(m: State, sizes: seq<nat>): nat {
    if m.scheme.Dinamicas? then m.tam else PrefixSum(sizes, |sizes|)
  }

  /** Partitions in order within a memory whose size is read as an int, every PID once, and every
      TID once in its process. */
  ghost predicate Sound(m: State, sizes: seq<nat>) {
    Healthy(m, sizes) && Extent(m, sizes) <= INT_MAX && DistinctPids(m.procs)
      && forall pid :: TidsOk(Lookup(m.procs, pid))
  }

  /** A built list is the gap before the first process, that process, and the rest. */
  lemma BuiltParts(procs: seq<Proc>, cur: nat, tam: nat) returns (gap: seq<Partition>, rest: seq<Partition>)
    requires procs != []
    ensures BuildFrom(procs, cur, tam) == gap + ([Occupied(procs[0])] + rest)
    ensures rest == BuildFrom(procs[1..], procs[0].limite, tam)
    ensures |gap| <= 1 && forall i :: 0 <= i < |gap| ==> gap[i].isFree && gap[i].pid == -1
  {
    gap := if cur < procs[0].base then [Free(cur, procs[0].base)] else [];
    rest := BuildFrom(procs[1..], procs[0].limite, tam);
    assert BuildFrom(procs, cur, tam) == gap + ([Occupied(procs[0])] + rest);
  }

  /** Each entry is free without a PID, or one of the processes. */
  lemma {:induction false} BuiltTenant(procs: seq<Proc>, cur: nat, tam: nat, i: nat) returns (k: nat)
    requires i < |BuildFrom(procs, cur, tam)|
    ensures var part := BuildFrom(procs, cur, tam)[i];
      if part.isFree then part.pid == -1 else k < |procs| && part == Occupied(procs[k])
    decreases |procs|
  {
    k := 0;
    if procs != [] {
      hide BuildFrom;
      var gap, rest := BuiltParts(procs, cur, tam);
      if i > |gap| {
        assert BuildFrom(procs, cur, tam)[i] == rest[i - |gap| - 1];
        k := BuiltTenant(procs[1..], procs[0].limite, tam, i - |gap| - 1);
        k := k + 1;
      }
    }
  }

  lemma {:induction false} BuiltDistinct(procs: seq<Proc>, cur: nat, tam: nat, i: nat, j: nat)
    requires DistinctPids(procs) && i < j < |BuildFrom(procs, cur, tam)|
    requires !BuildFrom(procs, cur, tam)[i].isFree && !BuildFrom(procs, cur, tam)[j].isFree
    ensures BuildFrom(procs, cur, tam)[i].pid != BuildFrom(procs, cur, tam)[j].pid
    decreases |procs|
  {
    if procs != [] {
      hide BuildFrom;
      var gap, rest := BuiltParts(procs, cur, tam);
      var off := |gap| + 1;
      assert BuildFrom(procs, cur, tam)[j] == rest[j - off];
      if i >= off {
        assert BuildFrom(procs, cur, tam)[i] == rest[i - off];
        BuiltDistinct(procs[1..], procs[0].limite, tam, i - off, j - off);
      } else {
        var k := BuiltTenant(procs[1..], procs[0].limite, tam, j - off);
        assert procs[1..][k] == procs[k + 1];
      }
    }
  }

  lemma {:induction false} BuiltPairs(procs: seq<Proc>, tam: nat)
    requires Sized(procs) && DistinctPids(procs)
    ensures OneToOne(procs, BuildFrom(procs, 0, tam)) && FreeIffUnassigned(BuildFrom(procs, 0, tam))
  {
    hide BuildFrom, DistinctPids;
    var parts := BuildFrom(procs, 0, tam);
    forall k | 0 <= k < |procs| ensures HasHome(procs[k], parts) {
      PlaceHolds(procs, 0, tam, k);
      assert Holds(parts[PlaceOf(procs, 0, k)], procs[k]);
    }
    forall i | 0 <= i < |parts|
      ensures !parts[i].isFree ==> HasTenant(parts[i], procs)
      ensures parts[i].isFree <==> parts[i].pid == -1
    {
      var k := BuiltTenant(procs, 0, tam, i);
      if !parts[i].isFree {
        assert Holds(parts[i], procs[k]);
      }
    }
    forall i, j | 0 <= i < j < |parts| && !parts[i].isFree && !parts[j].isFree ensures parts[i].pid != parts[j].pid {
      BuiltDistinct(procs, 0, tam, i, j);
    }
  }

  /** In either scheme, partitions in use and processes pair up by PID, each process inside its own, and a
      partition is free exactly when it bears no PID. */
  lemma {:induction false} SoundPairs(m: State, sizes: seq<nat>)
    requires Sound(m, sizes)
    ensures OneToOne(m.procs, m.parts) && FreeIffUnassigned(m.parts)
  {
    hide FindPart, FindProc;
    if m.scheme.Dinamicas? {
      BuildIsBuildFrom(m.procs, m.tam);
      BuiltPairs(m.procs, m.tam);
    } else {
      HousedIsOneToOne(m.procs, m.parts);
    }
  }

  lemma KeepsExtent(m: State, sizes: seq<nat>, e: Event)
    ensures Extent(After(m, e), sizes) == Extent(m, sizes)
  {
    hide FindProc, FindThread, FindPart, Select, SortByBase, Build;
  }

  /** Nothing lies beyond the partitions. */
  lemma {:induction false} BoundsLow(m: State, sizes: seq<nat>, pid: nat)
    requires Sound(m, sizes) && Lookup(m.procs, pid).Some?
    ensures Lookup(m.procs, pid).value.base <= Lookup(m.procs, pid).value.limite <= INT_MAX
  {
    hide FindPart, SortedByBase, FindProc;
    var k := FindProc(m.procs, pid);
    if m.scheme.Dinamicas? {
      LaidOutBelow(m.procs, 0, m.tam, k);
    } else {
      assert Housed(m.procs[k], m.parts);
      PrefixSumGrows(sizes, FindPart(m.parts, pid) + 1, |sizes|);
    }
  }

  lemma {:induction false} DistinctInsert(procs: seq<Proc>, p: Proc)
    requires DistinctPids(procs) && FindProc(procs, p.pid) == |procs|
    ensures DistinctPids(InsertByBase(procs, p))
  {
    if !(procs == [] || p.base < procs[0].base) {
      var rest := procs[1..];
      DistinctInsert(rest, p);
      InsertMembers(rest, p);
      var r := InsertByBase(rest, p);
      forall j | 0 <= j < |r| ensures r[j].pid != procs[0].pid {
        assert r[j] in multiset(r);
        assert r[j] in rest || r[j] == p;
      }
    }
  }

  lemma {:induction false} EventKeepsPids(m: State, e: Event)
    requires Settled(m) && Allowed(m, e) && DistinctPids(m.procs) && (e.Create? ==> Lookup(m.procs, e.pid).None?)
    ensures DistinctPids(After(m, e).procs)
  {
    hide Select, SortByBase, Build, FindThread, FindPart, SortedByBase;
    if e.Create? {
      var i := Select(m.criteria, m.parts, e.size);
      if i < |m.parts| && m.scheme.Dinamicas? {
        var p := NewProc(e.pid, m.parts[i].base, e.size);
        SortInserts(m.procs, p);
        DistinctInsert(m.procs, p);
      }
    } else if e.Destroy? {
      DestroyKeepsPids(m, e.pid);
    } else if FindProc(m.procs, e.pid) < |m.procs| {
      hide FindProc, After;
      EventOnOwn(m, e);
    }
  }

  lemma {:induction false} DestroyKeepsPids(m: State, pid: nat)
    requires Settled(m) && DistinctPids(m.procs)
    ensures DistinctPids(Delete(m, pid).procs)
    ensures Lookup(Delete(m, pid).procs, pid).None?
  {
    hide SortByBase, Build, SortedByBase;
    var k := FindProc(m.procs, pid);
    if k < |m.procs| {
      var left := RemoveAt(m.procs, k);
      RemoveDistinct(m.procs, k);
      if m.scheme.Dinamicas? {
        RemoveSorted(m.procs, k);
        SortKeepsSorted(left);
      }
      forall j | 0 <= j < |left| ensures left[j].pid != pid {
        assert left[j] == m.procs[if j < k then j else j + 1];
      }
    }
  }

  lemma {:induction false} DistinctAfter(p: Proc, e: Event)
    requires DistinctTids(p.threads) && (e.StartThread? ==> FindThread(p.threads, e.tid) == |p.threads|)
    ensures DistinctTids(Effect(p, e).threads)
  {
    if e.EndThread? {
      var j := FindThread(p.threads, e.tid);
      if j < |p.threads| {
        assert forall l :: 0 <= l < |p.threads| - 1 ==>
          RemoveAt(p.threads, j)[l] == p.threads[if l < j then l else l + 1];
      }
    }
  }

  /** Requests the kernel makes: processes under new PIDs, threads under new TIDs, contexts with
      their process's own bounds. */
  predicate Proper(m: State, e: Event) {
    && Allowed(m, e)
    && (e.Create? ==> Lookup(m.procs, e.pid).None?)
    && (e.StartThread? ==> Load(m, e.pid, e.tid).None?)
  }

  lemma {:induction false} EventKeepsSound(m: State, sizes: seq<nat>, e: Event)
    requires Sound(m, sizes) && Proper(m, e)
    ensures Sound(After(m, e), sizes)
  {
    HealthySettled(m, sizes);
    RequestKeepsHealth(m, sizes, e);
    EventKeepsPids(m, e);
    KeepsExtent(m, sizes, e);
    hide Extent, Healthy, DistinctPids, After, Allowed, DistinctTids, Settled, FindThread, Lookup;
    forall pid ensures TidsOk(Lookup(After(m, e).procs, pid)) {
      assert TidsOk(Lookup(m.procs, pid));
      if pid != e.pid {
        EventOnOther(m, e, pid);
      } else {
        OwnTids(m, e);
      }
    }
  }

  lemma {:induction false} OwnTids(m: State, e: Event)
    requires Settled(m) && Proper(m, e) && DistinctPids(m.procs) && TidsOk(Lookup(m.procs, e.pid))
    ensures TidsOk(Lookup(After(m, e).procs, e.pid))
  {
    hide DistinctPids, DistinctTids, Settled, FindThread, FindProc, Lookup, TryCreate, Delete, AddThread,
      RemoveThread, Save, Allowed;
    assert Allowed(m, e);
    if e.Create? {
      if TryCreate(m, e.pid, e.size).Some? {
        LookupCreated(m, e.pid, e.size);
        NoTids();
      }
    } else if e.Destroy? {
      DestroyKeepsPids(m, e.pid);
    } else {
      hide After;
      if Lookup(m.procs, e.pid).Some? {
        OwnProcess(m, e);
        DistinctAfter(Lookup(m.procs, e.pid).value, e);
      } else {
        NothingToDo(m, e);
      }
    }
  }

  lemma NoTids()
    ensures DistinctTids([])
  {
  }

  /** Which processes memory knows after a request. */
  lemma {:induction false} KnownAfter(m: State, sizes: seq<nat>, e: Event, pid: nat)
    requires Sound(m, sizes) && Proper(m, e)
    ensures Lookup(After(m, e).procs, pid).Some? <==>
      (match e
       case Create(p, size) => (p == pid && TryCreate(m, p, size).Some?) || Lookup(m.procs, pid).Some?
       case Destroy(p) => p != pid && Lookup(m.procs, pid).Some?
       case _ => Lookup(m.procs, pid).Some?)
  {
    hide Healthy, DistinctPids, DistinctTids, Settled, FindThread, FindProc, TryCreate, Delete, AddThread,
      RemoveThread, Save, Lookup, Allowed, TidsOk;
    HealthySettled(m, sizes);
    assert Allowed(m, e);
    if pid != e.pid {
      hide After;
      EventOnOther(m, e, pid);
    } else if e.Create? {
      if TryCreate(m, e.pid, e.size).Some? {
        LookupCreated(m, e.pid, e.size);
      }
    } else if e.Destroy? {
      DestroyKeepsPids(m, e.pid);
    } else {
      hide After;
      if Lookup(m.procs, e.pid).Some? {
        OwnProcess(m, e);
      } else {
        NothingToDo(m, e);
      }
    }
  }

  /** Requests about threads leave the bare memory as it is. */
  lemma {:induction false} ThreadsLeaveBare(m: State, sizes: seq<nat>, e: Event)
    requires Healthy(m, sizes) && Allowed(m, e) && !e.Create? && !e.Destroy?
    ensures Strip(After(m, e)) == Strip(m)
  {
    hide SortByBase, Build, FindThread, FindPart, SortedByBase, DynOk, FixedOk, Allowed;
    assert Settled(m);
    if m.scheme.Dinamicas? {
      assert DynOk(m);
      OtherEventsKeepList(m, e);
    }
    var k := FindProc(m.procs, e.pid);
    hide FindProc;
    if k < |m.procs| {
      EventOnOwn(m, e);
      assert BareProcs(m.procs[k := Effect(m.procs[k], e)]) == BareProcs(m.procs);
    }
  }
}
