/** Allocating files: what one allocation takes and writes, what can be read back, and what later
    allocations leave alone. */
module FileSystem {
  import opened Lists
  import opened Words
  import opened Bitmap
  import opened BlockFile

  /** asignar_bloques: None, with nothing changed, when the blocks do not suffice. */
  ghost function Allocate(d: Disk, data: seq<byte>, bs: nat): Option<Allocation>
    requires Geometry(d, bs) && |data| < 0x1_0000_0000
  {
    var n := Needed(|data|, bs);
    if |FreeSet(d.bits)| < n + 1 then None
    else
      var index := FirstFree(d.bits);
      IndexTaken(d.bits, n);
      var bits := Mark(d.bits, index);
      var blocks := Take(bits, n);
      TakenInside(d, index, n, bs);
      var bytes := WriteBlocks(d.bytes, blocks, Whole(data), bs);
      Some(Allocation(Disk(MarkAll(bits, blocks), Splice(bytes, At(index, bs), PointerBytes(blocks))), index))
  }

  /** The data blocks an allocation takes. */
  ghost function DataBlocks(d: Disk, size: nat, bs: nat): seq<nat>
    requires Geometry(d, bs) && size < 0x1_0000_0000 && |FreeSet(d.bits)| >= Needed(size, bs) + 1
  {
    IndexTaken(d.bits, Needed(size, bs));
    Take(Mark(d.bits, FirstFree(d.bits)), Needed(size, bs))
  }

  lemma IndexTaken(bits: seq<bv8>, n: nat)
    requires |FreeSet(bits)| >= n + 1
    ensures FirstFree(bits) < Blocks(bits) && FirstFree(bits) in FreeSet(bits)
    ensures FreeSet(Mark(bits, FirstFree(bits))) == FreeSet(bits) - {FirstFree(bits)}
    ensures |FreeSet(Mark(bits, FirstFree(bits)))| == |FreeSet(bits)| - 1
  {
    hide FirstFree, Mark, FreeSet;
    assert FreeSet(bits) != {};
    MarkTakesOne(bits, FirstFree(bits));
  }

  lemma FreeInRange(bits: seq<bv8>, b: nat)
    ensures b in FreeSet(bits) <==> b < Blocks(bits) && !Used(bits, b)
  {
  }

  lemma {:induction false} TakenInside(d: Disk, index: nat, n: nat, bs: nat)
    requires Geometry(d, bs) && |FreeSet(d.bits)| >= n + 1 && index == FirstFree(d.bits)
    ensures index < Blocks(d.bits) && |FreeSet(Mark(d.bits, index))| >= n
    ensures At(index, bs) + bs <= |d.bytes|
    ensures var blocks := Take(Mark(d.bits, index), n);
      && Inside(d.bytes, blocks, bs)
      && (forall i :: 0 <= i < |blocks| ==>
            blocks[i] < Blocks(d.bits) && blocks[i] < 0x1_0000_0000 && blocks[i] != index)
  {
    hide FirstFree, Mark, FreeSet, Used, At;
    IndexTaken(d.bits, n);
    BlockInside(d, index, bs);
    var bits := Mark(d.bits, index);
    TakeEffect(bits, n);
    var blocks := Take(bits, n);
    forall i | 0 <= i < |blocks|
      ensures blocks[i] < Blocks(d.bits) && blocks[i] != index && At(blocks[i], bs) + bs <= |d.bytes|
      ensures blocks[i] < 0x1_0000_0000
    {
      assert blocks[i] in Elements(blocks);
      FreeInRange(bits, blocks[i]);
      BlockInside(d, blocks[i], bs);
      OffsetBound(blocks[i], bs);
    }
  }

  lemma OffsetBound(block: nat, bs: nat)
    requires bs > 0
    ensures block <= At(block, bs)
  {
    assert block * bs >= block;
  }

  /** Enough free blocks is all an allocation needs; it then takes one index block and the data
      blocks computed, exactly those that cover the size unless the rounding wraps; all distinct, all
      free before and the least ones that were, and the free count drops by exactly that many. */
  lemma AllocationTakes(d: Disk, data: seq<byte>, bs: nat)
    requires Geometry(d, bs) && |data| < 0x1_0000_0000
    ensures var n := Needed(|data|, bs);
      && (Covers(n, |data|, bs) <==> Rounds(|data|, bs))
      && (Allocate(d, data, bs).Some? <==> |FreeSet(d.bits)| >= n + 1)
      && (Allocate(d, data, bs).Some? ==>
            var a := Allocate(d, data, bs).value; var taken := [a.index] + DataBlocks(d, |data|, bs);
            && |taken| == n + 1 && Distinct(taken) && Elements(taken) <= FreeSet(d.bits)
            && FreeSet(a.disk.bits) == FreeSet(d.bits) - Elements(taken)
            && |FreeSet(a.disk.bits)| == |FreeSet(d.bits)| - (n + 1)
            && (forall t, b :: t in Elements(taken) && b in FreeSet(a.disk.bits) ==> t < b))
  {
    hide FirstFree, Mark, FreeSet, MarkAll, Distinct, Elements, WriteBlocks, Splice, PointerBytes;
    NeededIsCeilingIff(|data|, bs);
    var n := Needed(|data|, bs);
    if |FreeSet(d.bits)| >= n + 1 {
      IndexTaken(d.bits, n);
      var index := FirstFree(d.bits);
      TakeEffect(Mark(d.bits, index), n);
      var blocks := DataBlocks(d, |data|, bs);
      ElementsCons(index, blocks);
      OneMoreTaken(FreeSet(d.bits), index, Elements(blocks), FreeSet(MarkAll(Mark(d.bits, index), blocks)), n);
    }
  }

  /** The pointers of a file fit in its index block. */
  predicate IndexFits(size: nat, bs: nat)
    requires Representable(size, bs)
  {
    4 * Needed(size, bs) <= bs
  }

  /** Whole words only are written, and a block is filled only if it is a whole number of words. */
  predicate WholeWords(size: nat, bs: nat) {
    size % 4 == 0 && (bs % 4 == 0 || size < bs)
  }

  lemma SpliceKeepsLength(bytes: seq<byte>, index: nat, chunk: seq<byte>, bs: nat)
    requires At(index, bs) + bs <= |bytes| && |chunk| <= bs
    ensures |Splice(bytes, At(index, bs), chunk)| == |bytes|
  {
    hide At;
  }

  lemma AllocationKeepsGeometry(d: Disk, data: seq<byte>, bs: nat)
    requires Geometry(d, bs) && |data| < 0x1_0000_0000 && IndexFits(|data|, bs) && Allocate(d, data, bs).Some?
    ensures Geometry(Allocate(d, data, bs).value.disk, bs)
    ensures Blocks(Allocate(d, data, bs).value.disk.bits) == Blocks(d.bits)
  {
    hide FirstFree, Mark, FreeSet, MarkAll, WriteBlocks, Splice, PointerBytes, At;
    var n := Needed(|data|, bs);
    IndexTaken(d.bits, n);
    TakenInside(d, FirstFree(d.bits), n, bs);
    var blocks := DataBlocks(d, |data|, bs);
    SpliceKeepsLength(WriteBlocks(d.bytes, blocks, Whole(data), bs), FirstFree(d.bits), PointerBytes(blocks), bs);
  }

  /** A block that was in use holds the same bytes after any later allocation. */
  lemma UsedBlocksKeep(d: Disk, data: seq<byte>, bs: nat, block: nat)
    requires Geometry(d, bs) && |data| < 0x1_0000_0000 && IndexFits(|data|, bs) && Allocate(d, data, bs).Some?
    requires block < Blocks(d.bits) && Used(d.bits, block)
    ensures var a := Allocate(d, data, bs).value.disk;
      && At(block, bs) + bs <= |d.bytes| == |a.bytes| && block < Blocks(a.bits) && Used(a.bits, block)
      && BlockAt(a.bytes, block, bs) == BlockAt(d.bytes, block, bs)
  {
    hide FirstFree, Mark, FreeSet, MarkAll, WriteBlocks, Splice, PointerBytes, At, BlockAt, Used, Needed, Elements,
      Distinct;
    var n := Needed(|data|, bs);
    var index := FirstFree(d.bits);
    AllocationKeepsGeometry(d, data, bs);
    AllocationTakes(d, data, bs);
    TakenInside(d, index, n, bs);
    BlockInside(d, block, bs);
    FreeInRange(d.bits, block);
    FreeInRange(Allocate(d, data, bs).value.disk.bits, block);
    var blocks := DataBlocks(d, |data|, bs);
    forall i | 0 <= i < |blocks| ensures blocks[i] != block {
      ElementIn(blocks, i);
      ElementsCons(index, blocks);
    }
    var bytes := WriteBlocks(d.bytes, blocks, Whole(data), bs);
    WriteElsewhere(d.bytes, blocks, Whole(data), bs, block);
    SpliceBlock(bytes, index, PointerBytes(blocks), block, bs);
    IndexTaken(d.bits, n);
  }

  lemma ElementIn(blocks: seq<nat>, i: nat)
    requires i < |blocks|
    ensures blocks[i] in Elements(blocks)
  {
  }

  // Files

  /** The file with this index block and size can be read, and only through blocks in use. */
  ghost predicate Readable(d: Disk, index: nat, size: nat, bs: nat) {
    && Geometry(d, bs) && size < 0x1_0000_0000 && IndexFits(size, bs)
    && index < Blocks(d.bits) && Used(d.bits, index)
    && At(index, bs) + bs <= |d.bytes|
    && forall i :: 0 <= i < Needed(size, bs) ==>
         var b := Pointers(d.bytes, index, Needed(size, bs), bs)[i];
         b < Blocks(d.bits) && Used(d.bits, b) && At(b, bs) + bs <= |d.bytes|
  }

  /** What a reader that follows the index block gets. */
  ghost function Read(d: Disk, index: nat, size: nat, bs: nat): seq<byte>
    requires Readable(d, index, size, bs)
  {
    ReadBlocks(d.bytes, Pointers(d.bytes, index, Needed(size, bs), bs), size, bs)
  }

  ghost predicate Holds(d: Disk, index: nat, data: seq<byte>, bs: nat) {
    Readable(d, index, |data|, bs) && Read(d, index, |data|, bs) == data
  }

  lemma OneBlockIfSmall(n: nat, size: nat, bs: nat)
    requires Covers(n, size, bs) && WholeWords(size, bs)
    ensures var chunk := 4 * (bs / 4); (chunk == bs || n <= 1) && size <= n * chunk
  {
    MoreThanOne(n, bs);
    if bs % 4 == 0 {
      assert 4 * (bs / 4) == bs;
    } else {
      assert n <= 1;
    }
  }

  lemma MoreThanOne(n: nat, bs: nat)
    ensures n >= 2 ==> (n - 1) * bs >= bs
  {
    if n >= 2 {
      assert (n - 1) * bs == (n - 2) * bs + bs;
    }
  }

  lemma {:induction false} DataReadsBack(d: Disk, data: seq<byte>, bs: nat)
    requires Geometry(d, bs) && |data| < 0x1_0000_0000 && WholeWords(|data|, bs) && Rounds(|data|, bs)
    requires |FreeSet(d.bits)| >= Needed(|data|, bs) + 1
    ensures var blocks := DataBlocks(d, |data|, bs);
      && Inside(d.bytes, blocks, bs) && Distinct(blocks) && Whole(data) == data
      && ReadBlocks(WriteBlocks(d.bytes, blocks, data, bs), blocks, |data|, bs) == data
  {
    hide FirstFree, Mark, FreeSet, MarkAll, WriteBlocks, ReadBlocks, At, Elements, Distinct, Needed;
    var n := Needed(|data|, bs);
    NeededIsCeilingIff(|data|, bs);
    OneBlockIfSmall(n, |data|, bs);
    TakenInside(d, FirstFree(d.bits), n, bs);
    TakeEffect(Mark(d.bits, FirstFree(d.bits)), n);
    WriteThenRead(d.bytes, DataBlocks(d, |data|, bs), data, bs, 4 * (bs / 4));
  }

  /** The index block written last holds the pointers, and no data block is touched by it. */
  lemma {:induction false} IndexReadsBack(d: Disk, data: seq<byte>, bs: nat)
    requires Geometry(d, bs) && |data| < 0x1_0000_0000 && IndexFits(|data|, bs) && Allocate(d, data, bs).Some?
    ensures var a := Allocate(d, data, bs).value; var blocks := DataBlocks(d, |data|, bs); var n := Needed(|data|, bs);
      && Inside(d.bytes, blocks, bs) && |a.disk.bytes| == |d.bytes| && At(a.index, bs) + bs <= |d.bytes|
      && Pointers(a.disk.bytes, a.index, n, bs) == blocks
      && forall i :: 0 <= i < n ==>
           BlockAt(a.disk.bytes, blocks[i], bs) == BlockAt(WriteBlocks(d.bytes, blocks, Whole(data), bs), blocks[i], bs)
  {
    hide FirstFree, Mark, FreeSet, MarkAll, WriteBlocks, Pointers, Splice, PointerBytes, At, BlockAt, Used, Needed;
    var n := Needed(|data|, bs);
    var index := FirstFree(d.bits);
    AllocationKeepsGeometry(d, data, bs);
    TakenInside(d, index, n, bs);
    IndexTaken(d.bits, n);
    var blocks := DataBlocks(d, |data|, bs);
    var bytes := WriteBlocks(d.bytes, blocks, Whole(data), bs);
    SpliceHere(bytes, At(index, bs), PointerBytes(blocks));
    PointersRead(Allocate(d, data, bs).value.disk.bytes, index, blocks, bs);
    forall i | 0 <= i < n
      ensures BlockAt(Allocate(d, data, bs).value.disk.bytes, blocks[i], bs) == BlockAt(bytes, blocks[i], bs)
    {
      SpliceBlock(bytes, index, PointerBytes(blocks), blocks[i], bs);
    }
  }

  /** The index block lists the data blocks in the order they are filled, four bytes each with the least
      significant first, also where the list runs past the block. */
  lemma {:induction false} IndexBytes(d: Disk, data: seq<byte>, bs: nat, i: nat, j: nat)
    requires Geometry(d, bs) && |data| < 0x1_0000_0000 && Allocate(d, data, bs).Some?
    requires i < Needed(|data|, bs) && j < 4
    ensures var a := Allocate(d, data, bs).value; var p := At(a.index, bs) + 4 * i + j;
      p < |a.disk.bytes| && a.disk.bytes[p] == DataBlocks(d, |data|, bs)[i] / PowerOf256(j) % 256
  {
    hide FirstFree, Mark, FreeSet, MarkAll, WriteBlocks, PointerBytes, At, Needed, PowerOf256;
    TakenInside(d, FirstFree(d.bits), Needed(|data|, bs), bs);
    PointerByte(DataBlocks(d, |data|, bs), i, j);
  }

  /** The blocks of a new file are marked. */
  lemma TakenAreUsed(d: Disk, data: seq<byte>, bs: nat)
    requires Geometry(d, bs) && |data| < 0x1_0000_0000 && Allocate(d, data, bs).Some?
    ensures var a := Allocate(d, data, bs).value; var blocks := DataBlocks(d, |data|, bs);
      && a.index < Blocks(a.disk.bits) && Used(a.disk.bits, a.index)
      && forall i :: 0 <= i < |blocks| ==> blocks[i] < Blocks(a.disk.bits) && Used(a.disk.bits, blocks[i])
  {
    hide FirstFree, Mark, FreeSet, MarkAll, WriteBlocks, Splice, PointerBytes, At, Used, Needed, Elements, Distinct;
    var index := FirstFree(d.bits);
    var a := Allocate(d, data, bs).value;
    AllocationTakes(d, data, bs);
    TakenInside(d, index, Needed(|data|, bs), bs);
    var blocks := DataBlocks(d, |data|, bs);
    ElementsCons(index, blocks);
    FreeInRange(a.disk.bits, index);
    forall i | 0 <= i < |blocks| ensures blocks[i] < Blocks(a.disk.bits) && Used(a.disk.bits, blocks[i]) {
      ElementIn(blocks, i);
      FreeInRange(a.disk.bits, blocks[i]);
    }
  }

  /** What was just allocated reads back through the index block as exactly the bytes given. */
  lemma AllocatedReadsBack(d: Disk, data: seq<byte>, bs: nat)
    requires Geometry(d, bs) && |data| < 0x1_0000_0000 && IndexFits(|data|, bs)
    requires WholeWords(|data|, bs) && Rounds(|data|, bs) && Allocate(d, data, bs).Some?
    ensures var a := Allocate(d, data, bs).value; Holds(a.disk, a.index, data, bs)
  {
    hide Allocate, WriteBlocks, ReadBlocks, Pointers, At, BlockAt, Used, Needed, WholeWords, Distinct;
    var a := Allocate(d, data, bs).value;
    AllocationTakes(d, data, bs);
    var blocks := DataBlocks(d, |data|, bs);
    AllocationKeepsGeometry(d, data, bs);
    DataReadsBack(d, data, bs);
    IndexReadsBack(d, data, bs);
    TakenAreUsed(d, data, bs);
    ReadSame(WriteBlocks(d.bytes, blocks, data, bs), a.disk.bytes, blocks, |data|, bs);
  }

  /** A later allocation, whatever it stores, leaves every earlier file readable and unchanged. */
  lemma LaterAllocationsSpare(d: Disk, index: nat, size: nat, data: seq<byte>, bs: nat)
    requires Readable(d, index, size, bs)
    requires |data| < 0x1_0000_0000 && IndexFits(|data|, bs) && Allocate(d, data, bs).Some?
    ensures var a := Allocate(d, data, bs).value.disk;
      Readable(a, index, size, bs) && Read(a, index, size, bs) == Read(d, index, size, bs)
  {
    hide Allocate, ReadBlocks, Pointers, At, BlockAt, Used, Needed;
    var a := Allocate(d, data, bs).value.disk;
    var n := Needed(size, bs);
    AllocationKeepsGeometry(d, data, bs);
    UsedBlocksKeep(d, data, bs, index);
    PointersSame(d.bytes, a.bytes, index, n, bs);
    var blocks := Pointers(d.bytes, index, n, bs);
    forall i | 0 <= i < n
      ensures At(blocks[i], bs) + bs <= |d.bytes| && blocks[i] < Blocks(a.bits) && Used(a.bits, blocks[i])
      ensures BlockAt(a.bytes, blocks[i], bs) == BlockAt(d.bytes, blocks[i], bs)
    {
      UsedBlocksKeep(d, data, bs, blocks[i]);
    }
    ReadSame(d.bytes, a.bytes, blocks, size, bs);
  }
}
