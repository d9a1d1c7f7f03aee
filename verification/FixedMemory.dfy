/** The fixed scheme over all runs: partitions never move, and processes and occupied partitions
    correspond one to one. */
module FixedMemory {
  import opened Lists
  import opened Partitions
  import opened Memory

  function PrefixSum(sizes: seq<nat>, i: nat): nat
    requires i <= |sizes|
  {
    if i == 0 then 0 else PrefixSum(sizes, i - 1) + sizes[i - 1]
  }

  /** build_static_partition_list: each base is the limit of the partition before. */
  function BuildStatic(sizes: seq<nat>): (parts: seq<Partition>)
    ensures |parts| == |sizes|
  {
    if sizes == [] then []
    else
      var init := BuildStatic(sizes[..|sizes| - 1]);
      var base := if init == [] then 0 else init[|init| - 1].limite;
      var size := sizes[|sizes| - 1];
      init + [Partition(-1, base, base + size, size, true)]
  }

  function Start(criteria: string, tam: nat, sizes: seq<nat>): State {
    State(Fijas, criteria, tam, [], BuildStatic(sizes))
  }

  /** Bases are the prefix sums of the configured sizes. */
  predicate Layout(parts: seq<Partition>, sizes: seq<nat>) {
    |parts| == |sizes| &&
    forall i :: 0 <= i < |parts| ==>
      parts[i].base == PrefixSum(sizes, i) && parts[i].size == sizes[i] && parts[i].limite == PrefixSum(sizes, i + 1)
  }

  /** The partition that bears the process's PID, and the process inside it. */
  predicate Housed(p: Proc, parts: seq<Partition>) {
    var i := FindPart(parts, p.pid);
    && i < |parts| && !parts[i].isFree
    && p.base == parts[i].base && p.limite == p.base + p.size && p.limite <= parts[i].limite
  }

  /** An occupied partition is the only one with its PID, which a live process has. */
  predicate Tenanted(i: nat, parts: seq<Partition>, procs: seq<Proc>)
    requires i < |parts|
  {
    parts[i].pid >= 0 && FindPart(parts, parts[i].pid) == i && FindProc(procs, parts[i].pid) < |procs|
  }

  predicate FreeIffUnassigned(parts: seq<Partition>) {
    forall i :: 0 <= i < |parts| ==> (parts[i].isFree <==> parts[i].pid == -1)
  }

  predicate AllHoused(procs: seq<Proc>, parts: seq<Partition>) {
    forall k :: 0 <= k < |procs| ==> Housed(procs[k], parts)
  }

  predicate DistinctPids(procs: seq<Proc>) {
    forall k, l :: 0 <= k < l < |procs| ==> procs[k].pid != procs[l].pid
  }

  predicate AllTenanted(parts: seq<Partition>, procs: seq<Proc>) {
    forall i :: 0 <= i < |parts| && !parts[i].isFree ==> Tenanted(i, parts, procs)
  }

  predicate FixedOk(m: State, sizes: seq<nat>) {
    && m.scheme.Fijas? && Layout(m.parts, sizes) && FreeIffUnassigned(m.parts)
    && AllHoused(m.procs, m.parts) && DistinctPids(m.procs) && AllTenanted(m.parts, m.procs)
  }

  /** The events of the fixed scheme: PIDs are new, and write-backs keep the process's bounds. */
  predicate AllowedFixed(m: State, e: Event) {
    match e
    case Create(pid, _) => FindProc(m.procs, pid) == |m.procs|
    case WriteBack(_, _, _) => Allowed(m, e)
    case _ => true
  }

  lemma {:induction false} PrefixOfPrefix(sizes: seq<nat>, i: nat)
    requires i < |sizes|
    ensures PrefixSum(sizes, i) == PrefixSum(sizes[..|sizes| - 1], i)
  {
    if i > 0 {
      PrefixOfPrefix(sizes, i - 1);
    }
  }

  lemma {:induction false} BuildStaticLayout(sizes: seq<nat>)
    ensures Layout(BuildStatic(sizes), sizes)
    ensures forall i :: 0 <= i < |sizes| ==> BuildStatic(sizes)[i].isFree && BuildStatic(sizes)[i].pid == -1
  {
    if sizes != [] {
      var n := |sizes| - 1;
      var init := BuildStatic(sizes[..n]);
      BuildStaticLayout(sizes[..n]);
      var parts := BuildStatic(sizes);
      PrefixOfPrefix(sizes, n);
      assert PrefixSum(sizes, n + 1) == PrefixSum(sizes, n) + sizes[n];
      forall i | 0 <= i < |parts|
        ensures parts[i].base == PrefixSum(sizes, i) && parts[i].size == sizes[i]
        ensures parts[i].limite == PrefixSum(sizes, i + 1)
        ensures parts[i].isFree && parts[i].pid == -1
      {
        if i < n {
          assert parts[i] == init[i];
          PrefixOfPrefix(sizes, i);
          PrefixOfPrefix(sizes, i + 1);
        } else {
          assert n > 0 ==> init[n - 1].limite == PrefixSum(sizes[..n], n);
        }
      }
    }
  }

  lemma {:induction false} FindPartUpdate(parts: seq<Partition>, i: nat, p: Partition, pid: int)
    requires i < |parts| && pid != p.pid && pid != parts[i].pid
    ensures FindPart(parts[i := p], pid) == FindPart(parts, pid)
  {
    if i == 0 {
      assert parts[i := p][1..] == parts[1..];
    } else {
      FindPartUpdate(parts[1..], i - 1, p, pid);
      assert parts[i := p][1..] == parts[1..][i - 1 := p];
    }
  }

  lemma {:induction false} FindPartNew(parts: seq<Partition>, i: nat, p: Partition)
    requires i < |parts| && FindPart(parts, p.pid) == |parts|
    ensures FindPart(parts[i := p], p.pid) == i
  {
    if i > 0 {
      FindPartNew(parts[1..], i - 1, p);
      assert parts[i := p][1..] == parts[1..][i - 1 := p];
    }
  }

  lemma {:induction false} FindProcAppend(procs: seq<Proc>, p: Proc, pid: nat)
    ensures FindProc(procs + [p], pid) ==
      if FindProc(procs, pid) < |procs| then FindProc(procs, pid) else if p.pid == pid then |procs| else |procs| + 1
  {
    var a, b := FindProc(procs, pid), FindProc(procs + [p], pid);
    if b < |procs| {
      assert (procs + [p])[b] == procs[b];
    }
    if a < |procs| {
      assert (procs + [p])[a] == procs[a];
    }
    assert (procs + [p])[|procs|] == p;
  }

  /** A PID no process has is on no partition either. */
  lemma {:induction false} NewPidHasNoPartition(parts: seq<Partition>, procs: seq<Proc>, pid: nat)
    requires FreeIffUnassigned(parts) && AllTenanted(parts, procs) && FindProc(procs, pid) == |procs|
    ensures FindPart(parts, pid) == |parts|
  {
  }

  /** Giving partition i to a new process, or taking it back, leaves the others' homes alone. */
  lemma StillHoused(procs: seq<Proc>, parts: seq<Partition>, i: nat, part: Partition, k: nat)
    requires i < |parts| && k < |procs| && Housed(procs[k], parts)
    requires procs[k].pid != part.pid && procs[k].pid != parts[i].pid
    ensures Housed(procs[k], parts[i := part])
  {
    hide FindPart;
    FindPartUpdate(parts, i, part, procs[k].pid);
  }

  lemma CreateHouses(procs: seq<Proc>, parts: seq<Partition>, i: nat, p: Proc)
    requires AllHoused(procs, parts) && i < |parts| && parts[i].isFree && parts[i].pid == -1
    requires FindProc(procs, p.pid) == |procs| && FindPart(parts, p.pid) == |parts|
    requires p.base == parts[i].base && p.limite == p.base + p.size && p.limite <= parts[i].limite
    ensures AllHoused(procs + [p], parts[i := parts[i].(isFree := false, pid := p.pid)])
  {
    hide FindPart, Housed;
    var part := parts[i].(isFree := false, pid := p.pid);
    forall k | 0 <= k < |procs| + 1 ensures Housed((procs + [p])[k], parts[i := part]) {
      if k < |procs| {
        assert procs[k].pid != p.pid;
        StillHoused(procs, parts, i, part, k);
      } else {
        NewIsHoused(parts, i, p);
      }
    }
  }

  lemma {:induction false} NewIsHoused(parts: seq<Partition>, i: nat, p: Proc)
    requires i < |parts| && FindPart(parts, p.pid) == |parts|
    requires p.base == parts[i].base && p.limite == p.base + p.size && p.limite <= parts[i].limite
    ensures Housed(p, parts[i := parts[i].(isFree := false, pid := p.pid)])
  {
    hide FindPart;
    FindPartNew(parts, i, parts[i].(isFree := false, pid := p.pid));
  }

  lemma CreateTenants(procs: seq<Proc>, parts: seq<Partition>, i: nat, p: Proc)
    requires AllTenanted(parts, procs) && i < |parts| && parts[i].isFree && parts[i].pid == -1
    requires FindProc(procs, p.pid) == |procs| && FindPart(parts, p.pid) == |parts|
    ensures AllTenanted(parts[i := parts[i].(isFree := false, pid := p.pid)], procs + [p])
  {
    hide FindPart, FindProc;
    var part := parts[i].(isFree := false, pid := p.pid);
    var after := parts[i := part];
    FindPartNew(parts, i, part);
    forall j | 0 <= j < |after| && !after[j].isFree ensures Tenanted(j, after, procs + [p]) {
      if j != i {
        assert Tenanted(j, parts, procs);
        FindPartUpdate(parts, i, part, parts[j].pid);
        FindProcAppend(procs, p, parts[j].pid);
      } else {
        FindProcAppend(procs, p, p.pid);
      }
    }
  }

  lemma {:induction false} CreateFixed(m: State, sizes: seq<nat>, pid: nat, size: nat)
    requires FixedOk(m, sizes) && FindProc(m.procs, pid) == |m.procs|
    ensures FixedOk(After(m, Create(pid, size)), sizes)
  {
    hide Select, FindPart, FindProc, AllHoused, AllTenanted, Rebuild;
    var i := Select(m.criteria, m.parts, size);
    if i < |m.parts| {
      var p := NewProc(pid, m.parts[i].base, size);
      NewPidHasNoPartition(m.parts, m.procs, pid);
      LayoutLimits(m.parts, sizes, i);
      CreateHouses(m.procs, m.parts, i, p);
      CreateTenants(m.procs, m.parts, i, p);
    }
  }

  lemma LayoutLimits(parts: seq<Partition>, sizes: seq<nat>, i: nat)
    requires Layout(parts, sizes) && i < |parts|
    ensures parts[i].limite == parts[i].base + parts[i].size
  {
    assert PrefixSum(sizes, i + 1) == PrefixSum(sizes, i) + sizes[i];
  }

  /** Some free partition can take a process of that size under the criterion: BEST only ever considers
      those below INT_MAX, and WORST those that are not empty. */
  predicate RoomFor(parts: seq<Partition>, criteria: string, size: nat) {
    && (criteria == "FIRST" || criteria == "BEST" || criteria == "WORST")
    && exists i ::
         && 0 <= i < |parts| && parts[i].isFree && parts[i].size >= size
         && (criteria == "BEST" ==> parts[i].size < 0x7FFF_FFFF)
         && (criteria == "WORST" ==> parts[i].size > 0)
  }

  lemma {:induction false} SelectsIffRoom(parts: seq<Partition>, criteria: string, size: nat)
    ensures Select(criteria, parts, size) < |parts| <==> RoomFor(parts, criteria, size)
  {
    WhenEachCriterionSucceeds(parts, size);
    hide Select;
    if RoomFor(parts, criteria, size) {
      var i :| 0 <= i < |parts| && parts[i].isFree && parts[i].size >= size
        && (criteria == "BEST" ==> parts[i].size < 0x7FFF_FFFF) && (criteria == "WORST" ==> parts[i].size > 0);
      assert Fits(parts[i], size);
    }
  }

  /** Partition i goes from free to that process and nothing else changes. */
  predicate Given(m: State, t: State, i: nat, pid: nat, size: nat) {
    && i < |m.parts| == |t.parts| && m.parts[i].isFree && m.parts[i].size >= size
    && t.parts[i].pid == pid && !t.parts[i].isFree
    && t.parts[i].base == m.parts[i].base && t.parts[i].limite == m.parts[i].limite
    && t.parts[i].size == m.parts[i].size
    && (forall j :: 0 <= j < |m.parts| && j != i ==> t.parts[j] == m.parts[j])
    && t.procs == m.procs + [Proc(pid, m.parts[i].base, m.parts[i].base + size, size, [])]
    && t.scheme == m.scheme && t.criteria == m.criteria && t.tam == m.tam
  }

  /** Among the free partitions that are big enough, FIRST gives the first, BEST the first of the smallest
      and WORST the first of the biggest. */
  predicate ByCriterion(m: State, i: nat, size: nat)
    requires i < |m.parts|
  {
    forall j :: 0 <= j < |m.parts| && m.parts[j].isFree && m.parts[j].size >= size ==>
      && (m.criteria == "FIRST" ==> i <= j)
      && (m.criteria == "BEST" ==> m.parts[i].size < m.parts[j].size || (m.parts[i].size == m.parts[j].size && i <= j))
      && (m.criteria == "WORST" ==> m.parts[i].size > m.parts[j].size || (m.parts[i].size == m.parts[j].size && i <= j))
  }

  lemma {:induction false} SelectedByCriterion(m: State, i: nat, size: nat)
    requires i == Select(m.criteria, m.parts, size) < |m.parts|
    ensures ByCriterion(m, i, size)
  {
    forall j | 0 <= j < |m.parts| && m.parts[j].isFree && m.parts[j].size >= size
      ensures m.criteria == "FIRST" ==> i <= j
      ensures m.criteria == "BEST" ==>
        m.parts[i].size < m.parts[j].size || (m.parts[i].size == m.parts[j].size && i <= j)
      ensures m.criteria == "WORST" ==>
        m.parts[i].size > m.parts[j].size || (m.parts[i].size == m.parts[j].size && i <= j)
    {
      assert Fits(m.parts[j], size);
      if m.criteria == "BEST" && m.parts[j].size < INT_MAX {
        assert Candidate(m.criteria, m.parts[j], size);
      }
      if m.criteria == "WORST" && m.parts[j].size > 0 {
        assert Candidate(m.criteria, m.parts[j], size);
      }
    }
  }

  /** A creation of a new PID in the fixed scheme makes the process known if and only if there is room for it;
      then exactly one partition changes, the one the criterion names, and otherwise nothing does. */
  lemma {:induction false} CreateFixedIff(m: State, sizes: seq<nat>, pid: nat, size: nat)
    requires FixedOk(m, sizes) && FindProc(m.procs, pid) == |m.procs|
    ensures var t := After(m, Create(pid, size)); var room := RoomFor(m.parts, m.criteria, size);
      && (FindProc(t.procs, pid) < |t.procs| <==> room)
      && (if room then exists i :: Given(m, t, i, pid, size) && ByCriterion(m, i, size)
          else t == m)
  {
    hide FindPart, AllHoused, AllTenanted, Rebuild, RoomFor, Layout;
    SelectsIffRoom(m.parts, m.criteria, size);
    var i := Select(m.criteria, m.parts, size);
    var t := After(m, Create(pid, size));
    if i < |m.parts| {
      FindProcAppend(m.procs, NewProc(pid, m.parts[i].base, size), pid);
      SelectedByCriterion(m, i, size);
      hide Select, FindProc;
      assert Given(m, t, i, pid, size);
    }
  }

  /** Partition i goes from that process to free, the process leaves the list, and nothing else changes. */
  predicate Freed(m: State, t: State, i: nat, k: nat, pid: nat) {
    && i < |m.parts| == |t.parts| && m.parts[i].pid == pid && !m.parts[i].isFree
    && t.parts[i].isFree && t.parts[i].pid == -1
    && t.parts[i].base == m.parts[i].base && t.parts[i].limite == m.parts[i].limite
    && t.parts[i].size == m.parts[i].size
    && (forall j :: 0 <= j < |m.parts| && j != i ==> t.parts[j] == m.parts[j])
    && k < |m.procs| && m.procs[k].pid == pid && t.procs == m.procs[..k] + m.procs[k + 1..]
    && t.scheme == m.scheme && t.criteria == m.criteria && t.tam == m.tam
  }

  /** Deleting a process frees exactly the partition that bears its PID. */
  lemma {:induction false} DeleteFixedFrees(m: State, sizes: seq<nat>, pid: nat)
    requires FixedOk(m, sizes)
    ensures var t := Delete(m, pid);
      && FindProc(t.procs, pid) == |t.procs|
      && (if FindProc(m.procs, pid) == |m.procs| then t == m
          else exists i, k :: Freed(m, t, i, k, pid))
  {
    hide Rebuild, Layout, AllTenanted;
    var k := FindProc(m.procs, pid);
    if k < |m.procs| {
      assert Housed(m.procs[k], m.parts);
      var left := RemoveAt(m.procs, k);
      assert forall l :: 0 <= l < |left| ==> left[l] == m.procs[if l < k then l else l + 1];
      assert Freed(m, Delete(m, pid), FindPart(m.parts, pid), k, pid);
    }
  }

  lemma {:induction false} FindProcRemove(procs: seq<Proc>, k: nat, pid: nat)
    requires k < |procs| && procs[k].pid != pid && FindProc(procs, pid) < |procs|
    ensures FindProc(RemoveAt(procs, k), pid) < |procs| - 1
  {
    var a := FindProc(procs, pid);
    var at := if a < k then a else a - 1;
    assert RemoveAt(procs, k)[at].pid == pid;
  }

  lemma {:induction false} DeleteHouses(procs: seq<Proc>, parts: seq<Partition>, k: nat)
    requires AllHoused(procs, parts) && DistinctPids(procs) && k < |procs|
    requires FindPart(parts, procs[k].pid) < |parts|
    ensures var i := FindPart(parts, procs[k].pid);
      AllHoused(RemoveAt(procs, k), parts[i := parts[i].(isFree := true, pid := -1)])
  {
    hide FindPart, Housed;
    var i := FindPart(parts, procs[k].pid);
    var left := RemoveAt(procs, k);
    var part := parts[i].(isFree := true, pid := -1);
    forall l | 0 <= l < |left| ensures Housed(left[l], parts[i := part]) {
      var was := if l < k then l else l + 1;
      assert left[l] == procs[was] && procs[was].pid != procs[k].pid;
      StillHoused(procs, parts, i, part, was);
    }
  }

  lemma {:induction false} DeleteTenants(procs: seq<Proc>, parts: seq<Partition>, k: nat)
    requires AllTenanted(parts, procs) && k < |procs| && FindPart(parts, procs[k].pid) < |parts|
    ensures var i := FindPart(parts, procs[k].pid);
      AllTenanted(parts[i := parts[i].(isFree := true, pid := -1)], RemoveAt(procs, k))
  {
    hide FindPart, FindProc;
    var i := FindPart(parts, procs[k].pid);
    var part := parts[i].(isFree := true, pid := -1);
    var after := parts[i := part];
    forall j | 0 <= j < |after| && !after[j].isFree ensures Tenanted(j, after, RemoveAt(procs, k)) {
      assert Tenanted(j, parts, procs);
      assert parts[j].pid != procs[k].pid;
      FindPartUpdate(parts, i, part, parts[j].pid);
      FindProcRemove(procs, k, parts[j].pid);
    }
  }

  lemma RemoveDistinct(procs: seq<Proc>, k: nat)
    requires DistinctPids(procs) && k < |procs|
    ensures DistinctPids(RemoveAt(procs, k))
  {
    assert forall l :: 0 <= l < |procs| - 1 ==> RemoveAt(procs, k)[l] == procs[if l < k then l else l + 1];
  }

  lemma DeleteFixed(m: State, sizes: seq<nat>, pid: nat)
    requires FixedOk(m, sizes)
    ensures FixedOk(Delete(m, pid), sizes)
  {
    hide FindPart, FindProc, AllTenanted, DistinctPids, Rebuild;
    var k := FindProc(m.procs, pid);
    if k < |m.procs| {
      assert Housed(m.procs[k], m.parts);
      hide AllHoused;
      DeleteHouses(m.procs, m.parts, k);
      DeleteTenants(m.procs, m.parts, k);
      RemoveDistinct(m.procs, k);
    }
  }

  lemma {:induction false} SamePidsSameFind(a: seq<Proc>, b: seq<Proc>, pid: nat)
    requires |a| == |b| && forall i :: 0 <= i < |a| ==> a[i].pid == b[i].pid
    ensures FindProc(a, pid) == FindProc(b, pid)
  {
    if a != [] {
      SamePidsSameFind(a[1..], b[1..], pid);
    }
  }

  lemma ThreadsDoNotHouse(a: seq<Proc>, b: seq<Proc>, parts: seq<Partition>)
    requires SameBounds(a, b) && AllHoused(b, parts) && DistinctPids(b) && AllTenanted(parts, b)
    ensures AllHoused(a, parts) && DistinctPids(a) && AllTenanted(parts, a)
  {
    hide FindPart, FindProc;
    forall k | 0 <= k < |a| ensures Housed(a[k], parts) {
      assert Housed(b[k], parts);
    }
    forall i | 0 <= i < |parts| && !parts[i].isFree ensures Tenanted(i, parts, a) {
      assert Tenanted(i, parts, b);
      SamePidsSameFind(a, b, parts[i].pid);
    }
  }

  lemma OtherFixed(m: State, sizes: seq<nat>, e: Event)
    requires FixedOk(m, sizes) && AllowedFixed(m, e) && !e.Create? && !e.Destroy?
    ensures FixedOk(After(m, e), sizes)
  {
    hide FindThread, FindProc, AllHoused, AllTenanted, DistinctPids, Layout, Rebuild;
    ThreadsDoNotHouse(After(m, e).procs, m.procs, m.parts);
  }

  lemma EventKeepsFixed(m: State, sizes: seq<nat>, e: Event)
    requires FixedOk(m, sizes) && AllowedFixed(m, e)
    ensures FixedOk(After(m, e), sizes)
  {
    hide FixedOk, FindProc, Select, Rebuild;
    if e.Create? {
      CreateFixed(m, sizes, e.pid, e.size);
    } else if e.Destroy? {
      DeleteFixed(m, sizes, e.pid);
    } else {
      OtherFixed(m, sizes, e);
    }
  }

  predicate AllAllowedFixed(m: State, events: seq<Event>)
    decreases |events|
  {
    events == [] || (AllowedFixed(m, events[0]) && AllAllowedFixed(After(m, events[0]), events[1..]))
  }

  lemma {:induction false} RunKeepsFixed(m: State, sizes: seq<nat>, events: seq<Event>)
    requires FixedOk(m, sizes) && AllAllowedFixed(m, events)
    ensures FixedOk(AfterAll(m, events), sizes)
    decreases |events|
  {
    hide FixedOk, AllowedFixed, After;
    if events != [] {
      EventKeepsFixed(m, sizes, events[0]);
      RunKeepsFixed(After(m, events[0]), sizes, events[1..]);
    }
  }

  /** Over every run bases and sizes never change, a partition is free exactly when its PID is -1,
      each live process sits inside the one partition that bears its PID, and each occupied
      partition bears the PID of a live process. */
  lemma {:induction false} FixedOverAllRuns(criteria: string, tam: nat, sizes: seq<nat>, events: seq<Event>)
    requires AllAllowedFixed(Start(criteria, tam, sizes), events)
    ensures var m := AfterAll(Start(criteria, tam, sizes), events);
      Layout(m.parts, sizes) && FreeIffUnassigned(m.parts) && OneToOne(m.procs, m.parts)
  {
    hide AllAllowedFixed, AfterAll, FindPart, FindProc, Layout;
    BuildStaticLayout(sizes);
    RunKeepsFixed(Start(criteria, tam, sizes), sizes, events);
    var m := AfterAll(Start(criteria, tam, sizes), events);
    HousedIsOneToOne(m.procs, m.parts);
  }

  predicate Holds(part: Partition, p: Proc) {
    !part.isFree && part.pid == p.pid && part.base == p.base && p.limite == p.base + p.size && p.limite <= part.limite
  }

  predicate HasHome(p: Proc, parts: seq<Partition>) {
    exists i :: 0 <= i < |parts| && Holds(parts[i], p)
  }

  predicate HasTenant(part: Partition, procs: seq<Proc>) {
    exists k :: 0 <= k < |procs| && Holds(part, procs[k])
  }

  predicate DistinctTenants(parts: seq<Partition>) {
    forall i, j :: 0 <= i < j < |parts| && !parts[i].isFree && !parts[j].isFree ==> parts[i].pid != parts[j].pid
  }

  /** Live processes and occupied partitions pair up by PID, each process inside its partition. */
  predicate OneToOne(procs: seq<Proc>, parts: seq<Partition>) {
    && (forall k :: 0 <= k < |procs| ==> HasHome(procs[k], parts))
    && (forall i :: 0 <= i < |parts| && !parts[i].isFree ==> HasTenant(parts[i], procs))
    && DistinctTenants(parts) && DistinctPids(procs)
  }

  lemma HousedIsOneToOne(procs: seq<Proc>, parts: seq<Partition>)
    requires AllHoused(procs, parts) && DistinctPids(procs) && AllTenanted(parts, procs)
    ensures OneToOne(procs, parts)
  {
    hide FindPart, FindProc;
    forall k | 0 <= k < |procs| ensures HasHome(procs[k], parts) {
      assert Housed(procs[k], parts);
      assert Holds(parts[FindPart(parts, procs[k].pid)], procs[k]);
    }
    forall i | 0 <= i < |parts| && !parts[i].isFree ensures HasTenant(parts[i], procs) {
      assert Tenanted(i, parts, procs);
      var k := FindProc(procs, parts[i].pid);
      assert Housed(procs[k], parts);
      assert Holds(parts[i], procs[k]);
    }
    forall i, j | 0 <= i < j < |parts| && !parts[i].isFree && !parts[j].isFree ensures parts[i].pid != parts[j].pid {
      assert Tenanted(i, parts, procs) && Tenanted(j, parts, procs);
    }
  }
}
