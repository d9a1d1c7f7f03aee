/** Many files one after another, and exactly when a file can be read back. */
module FileRuns {
  import opened Lists
  import opened Words
  import opened Bitmap
  import opened BlockFile
  import opened FileSystem

  // Runs

  /** crear_archivo refuses empty files. */
  ghost function Create(d: Disk, data: seq<byte>, bs: nat): Option<Allocation>
    requires Geometry(d, bs) && |data| < 0x1_0000_0000
  {
    if data == [] then None else Allocate(d, data, bs)
  }

  /** A file is created exactly when it is not empty and its data blocks and one more are free; it takes
      that many, and its index block is the least free block. */
  lemma CreatesIff(d: Disk, data: seq<byte>, bs: nat)
    requires Geometry(d, bs) && |data| < 0x1_0000_0000
    ensures Create(d, data, bs).Some? <==> data != [] && |FreeSet(d.bits)| >= Needed(|data|, bs) + 1
    ensures Create(d, data, bs).Some? ==>
      var a := Create(d, data, bs).value;
      |FreeSet(a.disk.bits)| == |FreeSet(d.bits)| - Needed(|data|, bs) - 1
      && a.index in FreeSet(d.bits) && forall b :: b in FreeSet(d.bits) ==> a.index <= b
  {
    hide FreeSet, Needed;
    AllocationTakes(d, data, bs);
    if Create(d, data, bs).Some? {
      IndexTaken(d.bits, Needed(|data|, bs));
    }
  }

  predicate Storable(data: seq<byte>, bs: nat) {
    Representable(|data|, bs) && Rounds(|data|, bs) && WholeWords(|data|, bs) && IndexFits(|data|, bs)
  }

  predicate AllStorable(files: seq<seq<byte>>, bs: nat) {
    forall i :: 0 <= i < |files| ==> Storable(files[i], bs)
  }

  ghost function DiskAfter(d: Disk, data: seq<byte>, bs: nat): (r: Disk)
    requires Geometry(d, bs) && Storable(data, bs)
    ensures Geometry(r, bs)
  {
    var a := Create(d, data, bs);
    if a.None? then d
    else
      AllocationKeepsGeometry(d, data, bs);
      a.value.disk
  }

  ghost function CreateAll(d: Disk, files: seq<seq<byte>>, bs: nat): (r: Disk)
    requires Geometry(d, bs) && AllStorable(files, bs)
    ensures Geometry(r, bs)
    decreases |files|
  {
    if files == [] then d else CreateAll(DiskAfter(d, files[0], bs), files[1..], bs)
  }

  /** The index block each file got, if it was created. */
  ghost function Indices(d: Disk, files: seq<seq<byte>>, bs: nat): (r: seq<Option<nat>>)
    requires Geometry(d, bs) && AllStorable(files, bs)
    ensures |r| == |files|
    decreases |files|
  {
    if files == [] then []
    else
      var a := Create(d, files[0], bs);
      [if a.None? then None else Some(a.value.index)] + Indices(DiskAfter(d, files[0], bs), files[1..], bs)
  }

  /** Whatever is created later, a file stays readable and unchanged. */
  lemma {:induction false} FilesStay(d: Disk, index: nat, data: seq<byte>, files: seq<seq<byte>>, bs: nat)
    requires Holds(d, index, data, bs) && AllStorable(files, bs)
    ensures Holds(CreateAll(d, files, bs), index, data, bs)
    decreases |files|
  {
    hide Allocate, Readable, Read;
    assert Geometry(d, bs) by { HeldOnDisk(d, index, data, bs); }
    if files != [] {
      if Create(d, files[0], bs).Some? {
        LaterAllocationsSpare(d, index, |data|, files[0], bs);
      }
      FilesStay(DiskAfter(d, files[0], bs), index, data, files[1..], bs);
    }
  }

  lemma HeldOnDisk(d: Disk, index: nat, data: seq<byte>, bs: nat)
    requires Holds(d, index, data, bs)
    ensures Geometry(d, bs)
  {
  }

  /** Free blocks left after those files, by arithmetic alone: each that is not empty and for which there is
      room takes its data blocks and one more. */
  function FreeLeft(free: nat, files: seq<seq<byte>>, bs: nat): nat
    requires AllStorable(files, bs)
    decreases |files|
  {
    if files == [] then free
    else
      var taken := Needed(|files[0]|, bs) + 1;
      FreeLeft(if files[0] != [] && free >= taken then free - taken else free, files[1..], bs)
  }

  lemma CreatedReadsBack(d: Disk, data: seq<byte>, bs: nat)
    requires Geometry(d, bs) && Storable(data, bs) && Create(d, data, bs).Some?
    ensures Holds(DiskAfter(d, data, bs), Create(d, data, bs).value.index, data, bs)
  {
    hide Allocate, Holds;
    AllocatedReadsBack(d, data, bs);
  }

  /** After any sequence of creations every file that is not empty and found enough free blocks has been
      created, no other has, and each one created reads back as its own bytes. */
  lemma {:induction false} EveryFileReadsBack(d: Disk, files: seq<seq<byte>>, bs: nat, i: nat)
    requires Geometry(d, bs) && AllStorable(files, bs) && i < |files|
    ensures Indices(d, files, bs)[i].Some? <==>
      files[i] != [] && FreeLeft(|FreeSet(d.bits)|, files[..i], bs) >= Needed(|files[i]|, bs) + 1
    ensures Indices(d, files, bs)[i].Some? ==>
      Holds(CreateAll(d, files, bs), Indices(d, files, bs)[i].value, files[i], bs)
    decreases |files|
  {
    hide Allocate, Holds, Create, FreeSet, Needed;
    CreatesIff(d, files[0], bs);
    if i == 0 {
      if Create(d, files[0], bs).Some? {
        CreatedReadsBack(d, files[0], bs);
        FilesStay(DiskAfter(d, files[0], bs), Indices(d, files, bs)[0].value, files[0], files[1..], bs);
      }
    } else {
      EveryFileReadsBack(DiskAfter(d, files[0], bs), files[1..], bs, i - 1);
      assert files[..i][1..] == files[1..][..i - 1];
    }
  }

  // Exactly when a file reads back

  /** Following the pointers that were written gives the data back. */
  ghost predicate ReadsBack(d: Disk, data: seq<byte>, bs: nat)
    requires Geometry(d, bs) && |data| < 0x1_0000_0000 && Allocate(d, data, bs).Some?
  {
    var a := Allocate(d, data, bs).value;
    var n := Needed(|data|, bs);
    var blocks := DataBlocks(d, |data|, bs);
    && At(a.index, bs) + 4 * n <= |a.disk.bytes|
    && Pointers(a.disk.bytes, a.index, n, bs) == blocks
    && Inside(a.disk.bytes, blocks, bs)
    && ReadBlocks(a.disk.bytes, blocks, |data|, bs) == data
  }

  ghost predicate AlwaysReadsBack(size: nat, bs: nat)
    requires Representable(size, bs)
  {
    forall d: Disk, data: seq<byte> ::
      Geometry(d, bs) && |data| == size && Allocate(d, data, bs).Some? ==> ReadsBack(d, data, bs)
  }

  lemma FitsReadsBack(d: Disk, data: seq<byte>, bs: nat)
    requires Geometry(d, bs) && |data| < 0x1_0000_0000 && IndexFits(|data|, bs)
    requires WholeWords(|data|, bs) && Rounds(|data|, bs) && Allocate(d, data, bs).Some?
    ensures ReadsBack(d, data, bs)
  {
    hide Allocate, WriteBlocks, ReadBlocks, Pointers, At, BlockAt, Needed, WholeWords, Distinct;
    AllocationTakes(d, data, bs);
    AllocationKeepsGeometry(d, data, bs);
    DataReadsBack(d, data, bs);
    IndexReadsBack(d, data, bs);
    ReadSame(WriteBlocks(d.bytes, DataBlocks(d, |data|, bs), data, bs), Allocate(d, data, bs).value.disk.bytes,
             DataBlocks(d, |data|, bs), |data|, bs);
  }

  function ZeroDisk(m: nat, bs: nat): Disk {
    Disk(seq(m, _ => 0), seq(8 * m * bs, _ => 0))
  }

  lemma {:induction false} ZeroCount(m: nat, n: nat)
    requires n <= 8 * m
    ensures CountFree(seq(m, _ => 0 as bv8), n) == n
  {
    if n > 0 {
      ZeroCount(m, n - 1);
      ZeroUnused(m, n - 1);
    }
  }

  lemma ZeroUnused(m: nat, b: nat)
    requires b < 8 * m
    ensures !Used(seq(m, _ => 0 as bv8), b)
  {
    assert (0 as bv8) & Mask(b % 8) == 0;
  }

  lemma ZeroFree(m: nat)
    ensures var bits := seq(m, _ => 0 as bv8);
      |FreeSet(bits)| == 8 * m && forall b: nat :: b in FreeSet(bits) <==> b < 8 * m
  {
    hide Used;
    var bits := seq(m, _ => 0 as bv8);
    ZeroCount(m, 8 * m);
    FreeCount(bits);
    forall b: nat | b < 8 * m ensures !Used(bits, b) {
      ZeroUnused(m, b);
    }
  }

  /** On a bitmap free from some block on, blocks are taken in order. */
  lemma {:induction false} TakeInOrder(bits: seq<bv8>, from: nat, k: nat, i: nat)
    requires k <= |FreeSet(bits)| && i < k
    requires forall b: nat :: b in FreeSet(bits) <==> from <= b < Blocks(bits)
    ensures Take(bits, k)[i] == from + i
    decreases k
  {
    hide FirstFree, FreeSet, Mark;
    assert FreeSet(bits) != {};
    var f := FirstFree(bits);
    assert f == from by {
      assert f in FreeSet(bits);
      assert from in FreeSet(bits);
    }
    MarkTakesOne(bits, f);
    if i > 0 {
      TakeInOrder(Mark(bits, f), from + 1, k - 1, i - 1);
    }
  }

  function Filled(size: nat, v: byte): (data: seq<byte>)
    ensures |data| == size && forall i :: 0 <= i < size ==> data[i] == v
  {
    seq(size, _ => v)
  }

  /** Which blocks an empty disk gives: the first is the index, the next ones hold the data. */
  lemma {:induction false} OnZeroDisk(size: nat, bs: nat, m: nat, data: seq<byte>)
    requires Representable(size, bs) && |data| == size
    requires 8 * m > Needed(size, bs) && 8 * m * bs < 0x1_0000_0000
    ensures var d := ZeroDisk(m, bs); var n := Needed(size, bs);
      && Geometry(d, bs) && |FreeSet(d.bits)| >= n + 1
      && Allocate(d, data, bs).Some? && Allocate(d, data, bs).value.index == 0
      && var blocks := DataBlocks(d, size, bs);
         && |blocks| == n && Distinct(blocks) && Inside(d.bytes, blocks, bs)
         && (forall i :: 0 <= i < n ==> blocks[i] == i + 1 && blocks[i] < 0x1_0000_0000)
         && Allocate(d, data, bs).value.disk.bytes
            == Splice(WriteBlocks(d.bytes, blocks, Whole(data), bs), At(0, bs), PointerBytes(blocks))
  {
    hide FirstFree, Mark, FreeSet, MarkAll, WriteBlocks, PointerBytes, Splice, At, Used, Needed, Elements, Distinct;
    var d := ZeroDisk(m, bs);
    var n := Needed(size, bs);
    ZeroFree(m);
    IndexTaken(d.bits, n);
    assert FirstFree(d.bits) == 0 by {
      assert 0 in FreeSet(d.bits);
    }
    TakenInside(d, 0, n, bs);
    TakeEffect(Mark(d.bits, 0), n);
    forall i | 0 <= i < n ensures DataBlocks(d, size, bs)[i] == i + 1 {
      TakeInOrder(Mark(d.bits, 0), 1, n, i);
    }
  }

  /** On an empty disk, pointers that overflow the index block run into the file's own first data
      block, and a file of any other byte comes back changed. */
  lemma OverflowCorrupts(size: nat, bs: nat, m: nat) returns (data: seq<byte>)
    requires Representable(size, bs) && Rounds(size, bs) && !IndexFits(size, bs)
    requires 8 * m > Needed(size, bs) && 8 * m * bs < 0x1_0000_0000
    ensures |data| == size && Geometry(ZeroDisk(m, bs), bs) && Allocate(ZeroDisk(m, bs), data, bs).Some?
    ensures !ReadsBack(ZeroDisk(m, bs), data, bs)
  {
    hide FirstFree, FreeSet, WriteBlocks, PointerBytes, BlockAt, Used, Needed, Elements, Distinct, Pointers, Allocate,
      ReadBlocks, Splice, At, ZeroDisk, Geometry, Filled;
    var d := ZeroDisk(m, bs);
    var n := Needed(size, bs);
    OnZeroDisk(size, bs, m, Filled(size, 0));
    var blocks := DataBlocks(d, size, bs);
    var written := PointerBytes(blocks);
    var v: byte := if written[bs] == 0 then 1 else 0;
    data := Filled(size, v);
    OnZeroDisk(size, bs, m, data);
    var a := Allocate(d, data, bs).value;
    NeededIsCeilingIff(size, bs);
    SomeData(n, size, bs);
    if ReadsBack(d, data, bs) {
      FirstByte(a.disk.bytes, blocks, size, bs);
      SplicedByte(WriteBlocks(d.bytes, blocks, Whole(data), bs), written, bs);
      assert false;
    }
  }

  lemma SomeData(n: nat, size: nat, bs: nat)
    requires Covers(n, size, bs) && n > 0
    ensures size > 0
  {
    assert (n - 1) * bs >= 0;
  }

  lemma {:induction false} FirstByte(bytes: seq<byte>, blocks: seq<nat>, size: nat, bs: nat)
    requires blocks != [] && blocks[0] == 1 && Inside(bytes, blocks, bs) && size > 0 && bs > 0
    ensures bs < |bytes| && |ReadBlocks(bytes, blocks, size, bs)| > 0
    ensures ReadBlocks(bytes, blocks, size, bs)[0] == bytes[bs]
  {
    assert At(1, bs) == bs;
  }

  lemma SplicedByte(bytes: seq<byte>, chunk: seq<byte>, bs: nat)
    requires bs < |chunk|
    ensures At(0, bs) == 0
    ensures Splice(bytes, 0, chunk)[bs] == chunk[bs]
  {
  }

  // Bytes that are never written

  predicate Zeros(bytes: seq<byte>) {
    forall j :: 0 <= j < |bytes| ==> bytes[j] == 0
  }

  ghost predicate AllZero(bytes: seq<byte>, blocks: seq<nat>, bs: nat)
    requires Inside(bytes, blocks, bs)
  {
    forall i :: 0 <= i < |blocks| ==> Zeros(BlockAt(bytes, blocks[i], bs))
  }

  /** On zeroed blocks a file that is not made of whole words, block by block, reads back with a
      zero somewhere. */
  lemma {:induction false} ZeroLeft(bytes: seq<byte>, blocks: seq<nat>, content: seq<byte>, size: nat, bs: nat)
    returns (at: nat)
    requires Inside(bytes, blocks, bs) && AllZero(bytes, blocks, bs) && Distinct(blocks) && bs > 0
    requires |content| == 4 * (size / 4) && Covers(|blocks|, size, bs) && !WholeWords(size, bs)
    ensures var read := ReadBlocks(WriteBlocks(bytes, blocks, content, bs), blocks, size, bs);
      at < |read| && read[at] == 0
    decreases |blocks|
  {
    hide At, Splice, BlockAt, Distinct;
    var chunk := 4 * (bs / 4);
    var len := Min(|content|, chunk);
    if blocks == [] {
      assert false;
    } else {
      var once := Splice(bytes, At(blocks[0], bs), content[..len]);
      SpliceBlock(bytes, blocks[0], content[..len], blocks[0], bs);
      DistinctTail(blocks);
      WriteElsewhere(once, blocks[1..], content[len..], bs, blocks[0]);
      var written := WriteBlocks(once, blocks[1..], content[len..], bs);
      SpliceRest(bytes, blocks[0], content[..len], bs);
      var first := BlockAt(written, blocks[0], bs);
      assert first == BlockAt(once, blocks[0], bs);
      if len < Min(size, bs) {
        at := len;
        assert Zeros(BlockAt(bytes, blocks[0], bs));
        assert first[len] == 0;
      } else {
        OthersZero(bytes, blocks, content[..len], bs);
        OneLess(|blocks|, size, bs);
        var rest := ZeroLeft(once, blocks[1..], content[len..], size - bs, bs);
        at := bs + rest;
      }
    }
  }

  lemma OneLess(n: nat, size: nat, bs: nat)
    requires n > 0 && bs > 0 && Covers(n, size, bs) && !WholeWords(size, bs)
    requires Min(4 * (size / 4), 4 * (bs / 4)) == Min(size, bs)
    ensures bs % 4 == 0 && bs < size && Covers(n - 1, size - bs, bs)
    ensures !WholeWords(size - bs, bs) && 4 * ((size - bs) / 4) == 4 * (size / 4) - bs
  {
    assert n * bs == (n - 1) * bs + bs;
    if n > 1 {
      assert (n - 1) * bs == (n - 2) * bs + bs;
    }
  }

  lemma OthersZero(bytes: seq<byte>, blocks: seq<nat>, chunk: seq<byte>, bs: nat)
    requires blocks != [] && Inside(bytes, blocks, bs) && AllZero(bytes, blocks, bs) && Distinct(blocks)
    requires |chunk| <= bs
    ensures var once := Splice(bytes, At(blocks[0], bs), chunk);
      Inside(once, blocks[1..], bs) && AllZero(once, blocks[1..], bs)
  {
    hide At, Splice, BlockAt, Distinct;
    DistinctTail(blocks);
    var once := Splice(bytes, At(blocks[0], bs), chunk);
    SpliceBlock(bytes, blocks[0], chunk, blocks[0], bs);
    forall i | 0 <= i < |blocks[1..]|
      ensures At(blocks[1..][i], bs) + bs <= |once|
      ensures Zeros(BlockAt(once, blocks[1..][i], bs))
    {
      assert blocks[1..][i] == blocks[i + 1];
      SpliceBlock(bytes, blocks[0], chunk, blocks[1..][i], bs);
    }
  }

  lemma {:induction false} RaggedRead(bytes: seq<byte>, blocks: seq<nat>, size: nat, bs: nat)
    requires Inside(bytes, blocks, bs) && AllZero(bytes, blocks, bs) && Distinct(blocks) && bs > 0
    requires Covers(|blocks|, size, bs) && !WholeWords(size, bs)
    ensures ReadBlocks(WriteBlocks(bytes, blocks, Whole(Filled(size, 1)), bs), blocks, size, bs) != Filled(size, 1)
  {
    hide Inside, AllZero, Distinct, Covers, WholeWords, ReadBlocks, WriteBlocks, Filled;
    assert forall i :: 0 <= i < |blocks| ==> At(blocks[i], bs) + bs <= |bytes| by { InsideMeans(bytes, blocks, bs); }
    var at := ZeroLeft(bytes, blocks, Whole(Filled(size, 1)), size, bs);
  }

  lemma InsideMeans(bytes: seq<byte>, blocks: seq<nat>, bs: nat)
    requires Inside(bytes, blocks, bs)
    ensures forall i :: 0 <= i < |blocks| ==> At(blocks[i], bs) + bs <= |bytes|
  {
  }

  /** On an empty disk a file of ones that is not made of whole words comes back with a zero. */
  lemma RaggedCorrupts(size: nat, bs: nat, m: nat)
    requires Representable(size, bs) && Rounds(size, bs) && IndexFits(size, bs) && !WholeWords(size, bs)
    requires 8 * m > Needed(size, bs) && 8 * m * bs < 0x1_0000_0000
    ensures Geometry(ZeroDisk(m, bs), bs) && Allocate(ZeroDisk(m, bs), Filled(size, 1), bs).Some?
    ensures !ReadsBack(ZeroDisk(m, bs), Filled(size, 1), bs)
  {
    hide FirstFree, FreeSet, WriteBlocks, ReadBlocks, PointerBytes, Splice, BlockAt, At, Used, Needed, Elements,
      Distinct,
      Pointers, Allocate, WholeWords, ZeroDisk, Geometry, Filled, AllZero, Whole, Covers;
    var d, data := ZeroDisk(m, bs), Filled(size, 1);
    OnZeroDisk(size, bs, m, data);
    NeededIsCeilingIff(size, bs);
    var blocks := DataBlocks(d, size, bs);
    ZeroBlocks(m, blocks, bs);
    RaggedRead(d.bytes, blocks, size, bs);
    IndexReadsBack(d, data, bs);
    ReadSame(WriteBlocks(d.bytes, blocks, Whole(data), bs), Allocate(d, data, bs).value.disk.bytes, blocks, size, bs);
  }

  lemma ZeroBlocks(m: nat, blocks: seq<nat>, bs: nat)
    requires Inside(ZeroDisk(m, bs).bytes, blocks, bs)
    ensures AllZero(ZeroDisk(m, bs).bytes, blocks, bs)
  {
    hide At;
  }

  // Bytes that have no block

  lemma {:induction false} ReadAtMost(bytes: seq<byte>, blocks: seq<nat>, size: nat, bs: nat)
    requires Inside(bytes, blocks, bs)
    ensures |ReadBlocks(bytes, blocks, size, bs)| <= |blocks| * bs
    decreases |blocks|
  {
    hide At, BlockAt;
    if blocks != [] {
      ReadAtMost(bytes, blocks[1..], size - Min(size, bs), bs);
      assert |blocks| * bs == (|blocks| - 1) * bs + bs;
    }
  }

  lemma WrapIsShort(size: nat, bs: nat)
    requires Representable(size, bs) && !Rounds(size, bs)
    ensures Needed(size, bs) * bs < size
  {
    var x := size + bs - 1 - 0x1_0000_0000;
    var q := x / bs;
    assert x == q * bs + x % bs;
    assert Needed(size, bs) == q;
  }

  /** When the rounding wraps around, too few blocks are taken for the file to come back whole. */
  lemma WrapCorrupts(d: Disk, data: seq<byte>, bs: nat)
    requires Geometry(d, bs) && |data| < 0x1_0000_0000 && !Rounds(|data|, bs) && Allocate(d, data, bs).Some?
    ensures !ReadsBack(d, data, bs)
  {
    hide Allocate, ReadBlocks, Pointers, At, Needed, Inside;
    if ReadsBack(d, data, bs) {
      var n := Needed(|data|, bs);
      AllocationTakes(d, data, bs);
      ReadAtMost(Allocate(d, data, bs).value.disk.bytes, DataBlocks(d, |data|, bs), |data|, bs);
      WrapIsShort(|data|, bs);
      assert false;
    }
  }

  /** Some disk is large enough for the index block and the data blocks of a file of this size. */
  predicate SomeDiskHolds(size: nat, bs: nat)
    requires Representable(size, bs)
  {
    8 * (Needed(size, bs) / 8 + 1) * bs < 0x1_0000_0000
  }

  lemma NoDiskNoFile(d: Disk, data: seq<byte>, bs: nat)
    requires Geometry(d, bs) && |data| < 0x1_0000_0000 && !SomeDiskHolds(|data|, bs)
    ensures Allocate(d, data, bs).None?
  {
    hide Allocate, FreeSet, Needed;
    var n := Needed(|data|, bs);
    FreeAtMost(d.bits);
    if Blocks(d.bits) >= n + 1 {
      WholeBytes(n, |d.bits|);
      Grows(8 * (n / 8 + 1), Blocks(d.bits), bs);
      assert false;
    }
    NoneWithoutBlocks(d, data, bs);
  }

  lemma NoneWithoutBlocks(d: Disk, data: seq<byte>, bs: nat)
    requires Geometry(d, bs) && |data| < 0x1_0000_0000 && |FreeSet(d.bits)| < Needed(|data|, bs) + 1
    ensures Allocate(d, data, bs).None?
  {
    hide FreeSet, Needed;
  }

  lemma WholeBytes(n: nat, m: nat)
    requires 8 * m >= n + 1
    ensures 8 * (n / 8 + 1) <= 8 * m
  {
  }

  lemma Grows(a: nat, b: nat, bs: nat)
    requires a <= b
    ensures a * bs <= b * bs
  {
    if a < b {
      Ordered(a, b, bs);
    }
  }

  lemma FreeAtMost(bits: seq<bv8>)
    ensures |FreeSet(bits)| <= Blocks(bits)
  {
    hide Used;
    FreeCount(bits);
    CountAtMost(bits, Blocks(bits));
  }

  lemma {:induction false} CountAtMost(bits: seq<bv8>, n: nat)
    requires n <= Blocks(bits)
    ensures CountFree(bits, n) <= n
  {
    hide Used;
    if n > 0 {
      CountAtMost(bits, n - 1);
    }
  }

  /** Files of a given size always read back, on every disk and for every content, if and only if
      no disk is large enough to hold one, or the rounding does not wrap, the pointers fit in one
      block and the data comes in whole words. */
  lemma ReadsBackIff(size: nat, bs: nat)
    requires Representable(size, bs)
    ensures AlwaysReadsBack(size, bs)
      <==> !SomeDiskHolds(size, bs) || (Rounds(size, bs) && IndexFits(size, bs) && WholeWords(size, bs))
  {
    hide Geometry, Allocate, ReadsBack, WholeWords, Needed, Rounds, IndexFits;
    if !SomeDiskHolds(size, bs) {
      forall d: Disk, data: seq<byte> | Geometry(d, bs) && |data| == size ensures Allocate(d, data, bs).None? {
        NoDiskNoFile(d, data, bs);
      }
    } else if Rounds(size, bs) && IndexFits(size, bs) && WholeWords(size, bs) {
      forall d: Disk, data: seq<byte> | Geometry(d, bs) && |data| == size && Allocate(d, data, bs).Some?
        ensures ReadsBack(d, data, bs)
      {
        FitsReadsBack(d, data, bs);
      }
    } else {
      var m := Needed(size, bs) / 8 + 1;
      var data := SomethingLost(size, bs, m);
    }
  }

  lemma SomethingLost(size: nat, bs: nat, m: nat) returns (data: seq<byte>)
    requires Representable(size, bs) && !(Rounds(size, bs) && IndexFits(size, bs) && WholeWords(size, bs))
    requires 8 * m > Needed(size, bs) && 8 * m * bs < 0x1_0000_0000
    ensures |data| == size && Geometry(ZeroDisk(m, bs), bs) && Allocate(ZeroDisk(m, bs), data, bs).Some?
    ensures !ReadsBack(ZeroDisk(m, bs), data, bs)
  {
    hide Geometry, Allocate, ReadsBack, WholeWords, Needed, Rounds, IndexFits, ZeroDisk, Filled;
    if !Rounds(size, bs) {
      data := Filled(size, 0);
      OnZeroDisk(size, bs, m, data);
      WrapCorrupts(ZeroDisk(m, bs), data, bs);
    } else if !IndexFits(size, bs) {
      data := OverflowCorrupts(size, bs, m);
    } else {
      data := Filled(size, 1);
      RaggedCorrupts(size, bs, m);
    }
  }
}
