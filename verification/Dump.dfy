/** DUMP_MEMORY end to end: the bytes copied out of the user memory, and the file they end up in. */
module Dump {
  import opened Lists
  import opened Words
  import opened Partitions
  import opened LocalEdits
  import opened Memory
  import opened DynamicMemory
  import opened FixedMemory
  import opened Contexts
  import opened BareMemory
  import B = BlockFile
  import Bits = Bitmap
  import FS = FileSystem
  import Runs = FileRuns

  predicate Within(p: Proc, mem: seq<byte>) {
    p.base <= p.limite <= |mem|
  }

  /** memcpy from the word that base falls in, as many bytes as the process is long. */
  function CopyOf(p: Proc, mem: seq<byte>): seq<byte>
    requires Within(p, mem)
  {
    var from := 4 * (p.base / 4);
    mem[from..from + (p.limite - p.base)]
  }

  /** obtener_memoria_proceso: nothing for a missing process or one longer than its size. */
  function Copied(m: State, mem: seq<byte>, pid: nat): Option<seq<byte>>
    requires forall k :: 0 <= k < |m.procs| ==> Within(m.procs[k], mem)
  {
    var p := Lookup(m.procs, pid);
    if p.None? || p.value.limite - p.value.base > p.value.size then None else Some(CopyOf(p.value, mem))
  }

  /** On every memory of n bytes the copy is the process's own bytes. */
  ghost predicate Exact(p: Proc, n: nat)
    requires p.base <= p.limite <= n
  {
    forall mem: seq<byte> :: |mem| == n ==> CopyOf(p, mem) == mem[p.base..p.limite]
  }

  /** A memory whose only non-zero byte is the process's last one. */
  function LastByteSet(p: Proc, n: nat): (mem: seq<byte>)
    ensures |mem| == n
  {
    seq(n, i => if i == p.limite - 1 then 1 else 0)
  }

  lemma UnalignedCopyDiffers(p: Proc, n: nat)
    requires p.base < p.limite <= n && p.base % 4 != 0
    ensures CopyOf(p, LastByteSet(p, n)) != LastByteSet(p, n)[p.base..p.limite]
  {
    var mem := LastByteSet(p, n);
    var used := p.limite - p.base;
    assert mem[p.base..p.limite][used - 1] == 1;
    assert CopyOf(p, mem)[used - 1] == 0;
  }

  /** The copy is exact, whatever the memory holds, if and only if the base is on a word boundary or
      there is nothing to copy. */
  lemma CopyIsExactIffAligned(p: Proc, n: nat)
    requires p.base <= p.limite <= n
    ensures Exact(p, n) <==> p.base % 4 == 0 || p.base == p.limite
  {
    if p.base % 4 != 0 && p.base < p.limite {
      UnalignedCopyDiffers(p, n);
    }
  }

  /** Two creations reach such a process: the first is not a whole number of words, and a dump of the
      second gives other bytes than its own. */
  lemma {:induction false} UnalignedDump(tam: nat, first: nat, a: nat, second: nat, b: nat, events: seq<Event>)
    requires events == [Create(first, a), Create(second, b)] && first != second
    requires a % 4 != 0 && 0 < b && a + b <= tam
    ensures var m := AfterAll(Empty("FIRST", tam), events); var p := NewProc(second, a, b);
      var mem := LastByteSet(p, tam);
      && AllAllowed(Empty("FIRST", tam), events) && Lookup(m.procs, second) == Some(p)
      && (forall k :: 0 <= k < |m.procs| ==> Within(m.procs[k], mem))
      && Copied(m, mem, second) != Some(mem[a..a + b])
  {
    hide AfterAll, AllAllowed, CopyOf;
    TwoCreated(tam, first, a, second, b, events);
    var m := AfterAll(Empty("FIRST", tam), events);
    UnalignedCopyDiffers(NewProc(second, a, b), tam);
    assert FindProc(m.procs, second) == 1;
  }

  // From a memory state to the file

  /** What happens to those bytes when they are stored in a new file: it is created exactly when there is
      something to store and room for it, and then they can be read back, whatever is stored afterwards. */
  ghost predicate StoredFaithfully(data: seq<byte>, disk: B.Disk, bs: nat, later: seq<seq<byte>>)
    requires B.Geometry(disk, bs) && |data| < 0x1_0000_0000 && Runs.AllStorable(later, bs)
  {
    && (Runs.Storable(data, bs) <==>
          |data| % 4 == 0 && B.Rounds(|data|, bs) && FS.IndexFits(|data|, bs) && (bs % 4 == 0 || |data| < bs))
    && (Runs.Create(disk, data, bs).Some? <==>
          data != [] && |Bits.FreeSet(disk.bits)| >= B.Needed(|data|, bs) + 1)
    && (Runs.Storable(data, bs) && Runs.Create(disk, data, bs).Some? ==>
          FS.Holds(Runs.CreateAll(Runs.DiskAfter(disk, data, bs), later, bs), Runs.Create(disk, data, bs).value.index,
                   data, bs))
  }

  lemma {:induction false} AlwaysStoredFaithfully(data: seq<byte>, disk: B.Disk, bs: nat, later: seq<seq<byte>>)
    requires B.Geometry(disk, bs) && |data| < 0x1_0000_0000 && Runs.AllStorable(later, bs)
    ensures StoredFaithfully(data, disk, bs, later)
  {
    hide FS.Allocate, FS.Holds, FS.IndexFits, Bits.FreeSet, B.Needed, Runs.Create;
    Runs.CreatesIff(disk, data, bs);
    if Runs.Storable(data, bs) && Runs.Create(disk, data, bs).Some? {
      Runs.CreatedReadsBack(disk, data, bs);
      Runs.FilesStay(Runs.DiskAfter(disk, data, bs), Runs.Create(disk, data, bs).value.index, data, later, bs);
    }
  }

  lemma {:induction false} AllWithin(m: State, sizes: seq<nat>, mem: seq<byte>)
    requires Healthy(m, sizes) && |mem| >= Extent(m, sizes)
    ensures forall k :: 0 <= k < |m.procs| ==>
      Within(m.procs[k], mem) && m.procs[k].limite == m.procs[k].base + m.procs[k].size
  {
    hide FindPart, SortedByBase, FindProc;
    forall k | 0 <= k < |m.procs|
      ensures Within(m.procs[k], mem) && m.procs[k].limite == m.procs[k].base + m.procs[k].size
    {
      if m.scheme.Dinamicas? {
        LaidOutBelow(m.procs, 0, m.tam, k);
      } else {
        assert Housed(m.procs[k], m.parts);
        PrefixSumGrows(sizes, FindPart(m.parts, m.procs[k].pid) + 1, |sizes|);
      }
    }
  }

  lemma WordBoundary(base: nat)
    requires base % 4 == 0
    ensures 4 * (base / 4) == base
  {
  }

  /** In any orderly memory of either scheme a dump fails only for a process memory does not know; it copies
      the process's own bytes if the process starts on a word boundary. */
  lemma {:induction false} DumpCopies(m: State, sizes: seq<nat>, mem: seq<byte>, pid: nat)
    requires Healthy(m, sizes) && |mem| >= Extent(m, sizes)
    ensures forall k :: 0 <= k < |m.procs| ==> Within(m.procs[k], mem)
    ensures Copied(m, mem, pid).Some? <==> exists k :: 0 <= k < |m.procs| && m.procs[k].pid == pid
    ensures Lookup(m.procs, pid).Some? ==>
      var p := Lookup(m.procs, pid).value;
      && p.base <= p.limite <= |mem| && p.size == p.limite - p.base
      && Copied(m, mem, pid).Some?
      && (p.base % 4 == 0 ==> Copied(m, mem, pid) == Some(mem[p.base..p.limite]))
  {
    hide Healthy, FindProc;
    AllWithin(m, sizes, mem);
    if FindProc(m.procs, pid) < |m.procs| {
      var p := m.procs[FindProc(m.procs, pid)];
      assert Within(p, mem);
      if p.base % 4 == 0 {
        WordBoundary(p.base);
      }
    }
  }

  lemma {:induction false} DynamicHealth(criteria: string, tam: nat, events: seq<Event>)
    requires 0 < tam < 0x1_0000_0000 && AllAllowed(Empty(criteria, tam), events)
    ensures var m := AfterAll(Empty(criteria, tam), events); Healthy(m, []) && m.tam == tam
  {
    hide AllAllowed, AfterAll;
    EmptyOk(criteria, tam);
    RunKeepsOk(Empty(criteria, tam), events);
    var m := AfterAll(Empty(criteria, tam), events);
    LaidOutSorted(m.procs, 0, m.tam);
  }

  lemma AlignedLength(base: nat, limite: nat)
    requires base % 4 == 0 && limite % 4 == 0 && base <= limite
    ensures (limite - base) % 4 == 0
  {
  }

  /** In every state that word-sized processes can lead to in the dynamic scheme, a dump copies exactly the
      bytes of its process, and the file made of them, exactly when there is room, gives them back. */
  lemma {:induction false} DumpsAreFaithful(criteria: string, tam: nat, events: seq<Event>, mem: seq<byte>, pid: nat,
                                            disk: B.Disk, bs: nat, later: seq<seq<byte>>)
    requires 0 < tam < 0x1_0000_0000 && AllAllowed(Empty(criteria, tam), events) && WordSized(events) && |mem| == tam
    requires Lookup(AfterAll(Empty(criteria, tam), events).procs, pid).Some?
    requires B.Geometry(disk, bs) && Runs.AllStorable(later, bs)
    ensures var m := AfterAll(Empty(criteria, tam), events); var p := Lookup(m.procs, pid).value;
      && p.base <= p.limite <= |mem| && p.size == p.limite - p.base && p.size % 4 == 0
      && (forall k :: 0 <= k < |m.procs| ==> Within(m.procs[k], mem))
      && Copied(m, mem, pid) == Some(mem[p.base..p.limite])
      && StoredFaithfully(mem[p.base..p.limite], disk, bs, later)
  {
    hide AllAllowed, AfterAll, FindProc, StoredFaithfully, Healthy;
    var m := AfterAll(Empty(criteria, tam), events);
    BasesStayAligned(criteria, tam, events);
    assert Healthy(m, []) && m.tam == tam by { DynamicHealth(criteria, tam, events); }
    DumpCopies(m, [], mem, pid);
    var p := m.procs[FindProc(m.procs, pid)];
    AlignedLength(p.base, p.limite);
    AlwaysStoredFaithfully(mem[p.base..p.limite], disk, bs, later);
  }

  // The same in the fixed scheme

  predicate WordMultiples(sizes: seq<nat>) {
    forall i :: 0 <= i < |sizes| ==> sizes[i] % 4 == 0
  }

  lemma {:induction false} PrefixOnWords(sizes: seq<nat>, i: nat)
    requires WordMultiples(sizes) && i <= |sizes|
    ensures PrefixSum(sizes, i) % 4 == 0
  {
    if i > 0 {
      PrefixOnWords(sizes, i - 1);
    }
  }

  lemma FixedAllows(m: State, e: Event)
    requires AllowedFixed(m, e)
    ensures Allowed(m, e)
  {
  }

  lemma {:induction false} FixedKeepsAligned(m: State, sizes: seq<nat>, e: Event)
    requires FixedOk(m, sizes) && AllowedFixed(m, e) && WordMultiples(sizes) && Aligned(m.procs)
    requires e.Create? ==> e.size % 4 == 0
    ensures Aligned(After(m, e).procs)
  {
    hide FindPart, FindProc, AllHoused, AllTenanted, Select, Rebuild;
    if e.Create? {
      var i := Select(m.criteria, m.parts, e.size);
      if i < |m.parts| {
        PrefixOnWords(sizes, i);
        SumOfMultiples(m.parts[i].base, e.size);
      }
    } else {
      FixedAllows(m, e);
      OtherAligned(m, e);
    }
  }

  lemma {:induction false} FixedRunAligned(m: State, sizes: seq<nat>, events: seq<Event>)
    requires FixedOk(m, sizes) && AllAllowedFixed(m, events) && WordMultiples(sizes) && Aligned(m.procs)
    requires WordSized(events)
    ensures Aligned(AfterAll(m, events).procs)
    decreases |events|
  {
    hide FixedOk, AllowedFixed, After, Aligned;
    if events != [] {
      EventKeepsFixed(m, sizes, events[0]);
      FixedKeepsAligned(m, sizes, events[0]);
      FixedRunAligned(After(m, events[0]), sizes, events[1..]);
    }
  }

  lemma {:induction false} FixedHealth(criteria: string, tam: nat, sizes: seq<nat>, events: seq<Event>)
    requires AllAllowedFixed(Start(criteria, tam, sizes), events) && PrefixSum(sizes, |sizes|) < 0x1_0000_0000
    ensures var m := AfterAll(Start(criteria, tam, sizes), events); FixedOk(m, sizes) && Healthy(m, sizes)
  {
    hide AllAllowedFixed, AfterAll, FindPart, FindProc, Layout;
    BuildStaticLayout(sizes);
    RunKeepsFixed(Start(criteria, tam, sizes), sizes, events);
  }

  lemma {:induction false} StartFixed(criteria: string, tam: nat, sizes: seq<nat>)
    ensures FixedOk(Start(criteria, tam, sizes), sizes)
  {
    BuildStaticLayout(sizes);
  }

  lemma {:induction false} FixedScheme(m: State, sizes: seq<nat>)
    requires FixedOk(m, sizes)
    ensures Extent(m, sizes) == PrefixSum(sizes, |sizes|)
  {
  }

  /** The same in the fixed scheme, when the configured partitions and the processes come in whole words. */
  lemma {:induction false} FixedDumpsAreFaithful(criteria: string, tam: nat, sizes: seq<nat>, events: seq<Event>,
                                                 mem: seq<byte>, pid: nat, disk: B.Disk, bs: nat, later: seq<seq<byte>>)
    requires AllAllowedFixed(Start(criteria, tam, sizes), events) && WordSized(events) && WordMultiples(sizes)
    requires PrefixSum(sizes, |sizes|) <= |mem| < 0x1_0000_0000
    requires Lookup(AfterAll(Start(criteria, tam, sizes), events).procs, pid).Some?
    requires B.Geometry(disk, bs) && Runs.AllStorable(later, bs)
    ensures var m := AfterAll(Start(criteria, tam, sizes), events); var p := Lookup(m.procs, pid).value;
      && p.base <= p.limite <= |mem| && p.size == p.limite - p.base && p.size % 4 == 0
      && (forall k :: 0 <= k < |m.procs| ==> Within(m.procs[k], mem))
      && Copied(m, mem, pid) == Some(mem[p.base..p.limite])
      && StoredFaithfully(mem[p.base..p.limite], disk, bs, later)
  {
    hide AllAllowedFixed, AfterAll, FindProc, StoredFaithfully, Healthy, FixedOk;
    var m := AfterAll(Start(criteria, tam, sizes), events);
    FixedHealth(criteria, tam, sizes, events);
    StartFixed(criteria, tam, sizes);
    FixedRunAligned(Start(criteria, tam, sizes), sizes, events);
    FixedScheme(m, sizes);
    DumpCopies(m, sizes, mem, pid);
    var p := m.procs[FindProc(m.procs, pid)];
    AlignedLength(p.base, p.limite);
    AlwaysStoredFaithfully(mem[p.base..p.limite], disk, bs, later);
  }
}
