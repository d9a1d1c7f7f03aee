/** The filesystem as it runs: the bitmap marked in place, and bloques.dat written through. */
module BlockDevice {
  import opened Words
  import opened Bitmap
  import opened BlockFile
  import opened FileSystem
  import opened FileRuns

  /** The data loop under way: what was taken and written, together with what remains to be taken
      and written from here, is the whole allocation. */
  ghost predicate InProgress(start: Disk, now: Disk, content: seq<byte>, bs: nat, needed: nat, pointers: seq<nat>,
                             at: nat) {
    && needed <= |FreeSet(start.bits)| && |pointers| <= needed && at <= |content|
    && needed - |pointers| <= |FreeSet(now.bits)|
    && |now.bits| == |start.bits| && |now.bytes| == |start.bytes|
    && var all, left := Take(start.bits, needed), Take(now.bits, needed - |pointers|);
       && all == pointers + left
       && Inside(start.bytes, all, bs) && Inside(now.bytes, left, bs)
       && MarkAll(start.bits, all) == MarkAll(now.bits, left)
       && WriteBlocks(start.bytes, all, content, bs) == WriteBlocks(now.bytes, left, content[at..], bs)
  }

  lemma {:induction false} OneBlock(start: Disk, now: Disk, content: seq<byte>, bs: nat, needed: nat,
                                    pointers: seq<nat>, at: nat)
    requires InProgress(start, now, content, bs, needed, pointers, at) && |pointers| < needed
    ensures FreeSet(now.bits) != {} && FirstFree(now.bits) < Blocks(now.bits)
    ensures At(FirstFree(now.bits), bs) + bs <= |now.bytes|
    ensures var block := FirstFree(now.bits); var len := Min(|content| - at, 4 * (bs / 4));
      InProgress(start, Disk(Mark(now.bits, block), Splice(now.bytes, At(block, bs), content[at..at + len])),
                 content, bs, needed, pointers + [block], at + len)
  {
    hide FirstFree, FreeSet, Mark, At, Splice, Used;
    var k := needed - |pointers|;
    assert FreeSet(now.bits) != {};
    var block := FirstFree(now.bits);
    MarkTakesOne(now.bits, block);
    var all, left := Take(start.bits, needed), Take(now.bits, k);
    assert all[|pointers|] == left[0] == block;
    var len := Min(|content| - at, 4 * (bs / 4));
    assert content[at..][..len] == content[at..at + len] && content[at..][len..] == content[at + len..];
    SpliceBlock(now.bytes, block, content[at..at + len], block, bs);
    assert left[1..] == Take(Mark(now.bits, block), k - 1);
    assert pointers + left == (pointers + [block]) + left[1..];
  }

  lemma {:induction false} Starting(start: Disk, content: seq<byte>, bs: nat, needed: nat)
    requires needed <= |FreeSet(start.bits)| && Inside(start.bytes, Take(start.bits, needed), bs)
    ensures InProgress(start, start, content, bs, needed, [], 0)
  {
    hide FreeSet, Take, MarkAll, WriteBlocks;
    assert content[0..] == content;
  }

  lemma {:induction false} Finished(start: Disk, now: Disk, content: seq<byte>, bs: nat, needed: nat,
                                    pointers: seq<nat>, at: nat)
    requires InProgress(start, now, content, bs, needed, pointers, at) && |pointers| == needed
    ensures pointers == Take(start.bits, needed) && Inside(start.bytes, pointers, bs)
    ensures now == Disk(MarkAll(start.bits, pointers), WriteBlocks(start.bytes, pointers, content, bs))
  {
    hide FreeSet;
  }

  /** The one size whose block count, plus the index block, is not representable: 2^32 - 1 bytes in
      one-byte blocks. */
  predicate Unpayable(size: nat, bs: nat)
    requires Representable(size, bs)
  {
    Needed(size, bs) + 1 == 0x1_0000_0000
  }

  lemma UnpayableIs(size: nat, bs: nat)
    requires Representable(size, bs)
    ensures Unpayable(size, bs) <==> bs == 1 && size == 0xFFFF_FFFF
  {
    if bs >= 2 {
      AtMostHalf((size + bs - 1) % 0x1_0000_0000, bs);
    }
  }

  lemma QuotientAtMost(x: nat, bs: nat)
    requires bs > 0
    ensures x / bs <= x
  {
    if bs > 1 {
      AtMostHalf(x, bs);
    }
  }

  lemma AtMostHalf(x: nat, bs: nat)
    requires bs >= 2
    ensures 2 * (x / bs) <= x
  {
    var q := x / bs;
    assert x == bs * q + x % bs;
    Grows(2, bs, q);
  }

  /** Every block taken and written to, and no index: what such a request leaves behind. */
  ghost function Exhausted(d: Disk, data: seq<byte>, bs: nat): Disk
    requires Geometry(d, bs) && |data| < 0x1_0000_0000
  {
    if FreeSet(d.bits) == {} then d
    else
      var index := FirstFree(d.bits);
      var bits := Mark(d.bits, index);
      var blocks := AllFree(d, bs);
      Disk(MarkAll(bits, blocks), WriteBlocks(d.bytes, blocks, Whole(data), bs))
  }

  /** The blocks left once an index block is taken. */
  ghost function AllFree(d: Disk, bs: nat): (blocks: seq<nat>)
    requires Geometry(d, bs) && FreeSet(d.bits) != {}
    ensures Inside(d.bytes, blocks, bs)
  {
    IndexTaken(d.bits, |FreeSet(d.bits)| - 1);
    TakenInside(d, FirstFree(d.bits), |FreeSet(d.bits)| - 1, bs);
    Take(Mark(d.bits, FirstFree(d.bits)), |FreeSet(d.bits)| - 1)
  }

  /** Blocks of less than a word are never written to. */
  lemma {:induction false} NothingWritten(bytes: seq<byte>, blocks: seq<nat>, content: seq<byte>)
    requires Inside(bytes, blocks, 1)
    ensures WriteBlocks(bytes, blocks, content, 1) == bytes
    decreases |blocks|
  {
    if blocks != [] {
      assert Splice(bytes, At(blocks[0], 1), content[..0]) == bytes;
      assert content[0..] == content;
      NothingWritten(bytes, blocks[1..], content);
    }
  }

  /** The request that cannot be paid leaves no block free and not one byte changed. */
  lemma UsesUpEveryBlock(d: Disk, data: seq<byte>, bs: nat)
    requires Geometry(d, bs) && |data| < 0x1_0000_0000 && Unpayable(|data|, bs)
    ensures FreeSet(Exhausted(d, data, bs).bits) == {} && Exhausted(d, data, bs).bytes == d.bytes
  {
    hide FreeSet, FirstFree, Mark, MarkAll, Take, Inside, Needed, Elements, Distinct, WriteBlocks;
    UnpayableIs(|data|, bs);
    if FreeSet(d.bits) != {} {
      var k := |FreeSet(d.bits)| - 1;
      IndexTaken(d.bits, k);
      TakeEffect(Mark(d.bits, FirstFree(d.bits)), k);
      NothingWritten(d.bytes, AllFree(d, bs), Whole(data));
    }
  }

  lemma FewerThanNeeded(d: Disk, size: nat, bs: nat)
    requires Geometry(d, bs) && Representable(size, bs) && Unpayable(size, bs)
    ensures |FreeSet(d.bits)| < Needed(size, bs)
  {
    hide FreeSet;
    UnpayableIs(size, bs);
    FreeAtMost(d.bits);
  }

  lemma Refused(d: Disk, data: seq<byte>, bs: nat)
    requires Geometry(d, bs) && |data| < 0x1_0000_0000
    ensures |FreeSet(d.bits)| < Needed(|data|, bs) + 1 ==> Allocate(d, data, bs).None?
    ensures FreeSet(d.bits) == {} ==> Exhausted(d, data, bs) == d
  {
    hide FreeSet, Needed;
  }

  /** What the pieces written amount to, when there was room and when there was not. */
  lemma {:induction false} Amounts(d: Disk, data: seq<byte>, bs: nat, target: nat, now: Disk)
    requires Geometry(d, bs) && |data| < 0x1_0000_0000 && |FreeSet(d.bits)| >= target + 1
    requires FirstFree(d.bits) < Blocks(d.bits) && target <= |FreeSet(Mark(d.bits, FirstFree(d.bits)))|
    requires var bits := Mark(d.bits, FirstFree(d.bits));
      && Inside(d.bytes, Take(bits, target), bs)
      && now == Disk(MarkAll(bits, Take(bits, target)), WriteBlocks(d.bytes, Take(bits, target), Whole(data), bs))
    ensures target == |FreeSet(d.bits)| - 1 ==> now == Exhausted(d, data, bs)
    ensures target == Needed(|data|, bs) ==>
      var a := Allocate(d, data, bs);
      && a.Some? && a.value.index == FirstFree(d.bits) && At(a.value.index, bs) <= |now.bytes|
      && DataBlocks(d, |data|, bs) == Take(Mark(d.bits, FirstFree(d.bits)), target)
      && (forall i :: 0 <= i < target ==> DataBlocks(d, |data|, bs)[i] < 0x1_0000_0000)
      && a.value.disk
         == now.(bytes := Splice(now.bytes, At(a.value.index, bs), PointerBytes(DataBlocks(d, |data|, bs))))
  {
    hide FreeSet, Needed, FirstFree, Mark, MarkAll, Take, WriteBlocks, Splice, PointerBytes;
    TakenInside(d, FirstFree(d.bits), target, bs);
  }

  class Device {
    const blockSize: u32
    const bitmap: array<bv8>
    var file: seq<byte>

    ghost function OnDisk(): Disk
      reads this, bitmap
    {
      Disk(bitmap[..], file)
    }

    ghost predicate Valid()
      reads this, bitmap
    {
      Geometry(OnDisk(), blockSize)
    }

    constructor (blockSize: u32, bitmap: array<bv8>, file: seq<byte>)
      requires Geometry(Disk(bitmap[..], file), blockSize)
      ensures Valid() && OnDisk() == Disk(bitmap[..], file)
      ensures this.blockSize == blockSize && this.bitmap == bitmap
    {
      this.blockSize, this.bitmap, this.file := blockSize, bitmap, file;
    }

    /** fseek and fwrite on bloques.dat: the chunk's bytes land at the offset, every other byte is
        as it was, and the file is as long as that takes. */
    method WriteAt(p: nat, chunk: seq<byte>)
      requires p <= |file|
      modifies this`file
      ensures |file| == if p + |chunk| <= old(|file|) then old(|file|) else p + |chunk|
      ensures forall i :: 0 <= i < |chunk| ==> file[p + i] == chunk[i]
      ensures forall i :: 0 <= i < old(|file|) && !(p <= i < p + |chunk|) ==> file[i] == old(file)[i]
    {
      var after := if p + |chunk| <= |file| then file[p + |chunk|..] else [];
      file := file[..p] + chunk + after;
    }

    /** The data loop of asignar_bloques: blocks taken and written until the file is done, or until
        no block is left. */
    method WriteData(data: seq<byte>, needed: nat, ghost target: nat) returns (pointers: seq<nat>, done: bool)
      requires Valid() && target <= needed && target <= |FreeSet(bitmap[..])|
      requires target < needed ==> target == |FreeSet(bitmap[..])|
      requires Inside(file, Take(bitmap[..], target), blockSize)
      modifies this`file, bitmap
      ensures done <==> target == needed
      ensures var start := old(OnDisk()); var blocks := Take(start.bits, target);
        && (done ==> pointers == blocks)
        && OnDisk() == Disk(MarkAll(start.bits, blocks), WriteBlocks(start.bytes, blocks, Whole(data), blockSize))
    {
      hide FirstFree, FreeSet, Mark, MarkAll, Splice, WriteBlocks, Used, Take, InProgress, Inside;
      ghost var start := OnDisk();
      pointers := [];
      done := true;
      var words := |data| / 4;
      var at := 0;
      var i := 0;
      Starting(start, Whole(data), blockSize, target);
      while i < needed
        invariant 0 <= i <= target && |pointers| == i && 0 <= at && at + 4 * words == |Whole(data)|
        invariant InProgress(start, OnDisk(), Whole(data), blockSize, target, pointers, at)
        decreases needed - i
      {
        if i < target {
          OneBlock(start, OnDisk(), Whole(data), blockSize, target, pointers, at);
        } else {
          NoneLeft(start, OnDisk(), Whole(data), blockSize, target, pointers, at);
        }
        var block := FindFree(bitmap);
        if block == -1 {
          done := false;
          return;
        }
        SetBlock(bitmap, block, true);
        pointers := pointers + [block];
        var wordsToWrite := if words < blockSize / 4 then words else blockSize / 4;
        ghost var before := file;
        WriteAt(block * blockSize, data[at..at + 4 * wordsToWrite]);
        SpliceIs(before, file, block * blockSize, data[at..at + 4 * wordsToWrite]);
        assert data[at..at + 4 * wordsToWrite] == Whole(data)[at..at + 4 * wordsToWrite];
        at := at + 4 * wordsToWrite;
        words := words - wordsToWrite;
        i := i + 1;
      }
      Finished(start, OnDisk(), Whole(data), blockSize, target, pointers, at);
    }

    /** Data blocks for that many bytes, and one more for the index, in 32 bits. */
    method BlocksNeeded(size: u32) returns (needed: nat, total: nat)
      requires blockSize > 0
      ensures needed == Needed(size, blockSize)
      ensures total == if Unpayable(size, blockSize) then 0 else needed + 1
    {
      var rounded := (size as int + blockSize as int - 1) % 0x1_0000_0000;
      needed := rounded / blockSize;
      QuotientAtMost(rounded, blockSize);
      total := (needed + 1) % 0x1_0000_0000;
    }

    /** The index block: every pointer in four bytes, one after the other. */
    method WritePointers(index: nat, pointers: seq<nat>)
      requires At(index, blockSize) <= |file| && forall i :: 0 <= i < |pointers| ==> pointers[i] < 0x1_0000_0000
      modifies this`file
      ensures file == Splice(old(file), At(index, blockSize), PointerBytes(pointers))
    {
      hide Splice;
      var p := index * blockSize;
      WriteAt(p, PointerBytes(pointers));
      SpliceIs(old(file), file, p, PointerBytes(pointers));
    }

    /** asignar_bloques: the index block, or -1. With room for the file its inner failure exit is
        never taken, and a refusal changes nothing; the one size whose count wraps to zero passes
        the check, uses up every block and then fails. */
    method AssignBlocks(data: seq<byte>) returns (index: int)
      requires Valid() && |data| < 0x1_0000_0000
      modifies this`file, bitmap
      ensures var d := old(OnDisk()); var a := Allocate(d, data, blockSize);
        if Unpayable(|data|, blockSize) then index == -1 && OnDisk() == Exhausted(d, data, blockSize)
        else if a.None? then index == -1 && OnDisk() == d
        else index == a.value.index && OnDisk() == a.value.disk
    {
      hide FirstFree, FreeSet, Mark, MarkAll, Splice, WriteBlocks, PointerBytes, Used, Take, Inside, Allocate,
        Exhausted, Needed, Unpayable, At;
      ghost var d := OnDisk();
      var needed, total := BlocksNeeded(|data|);
      Refused(d, data, blockSize);
      var free := CountFreeBlocks(bitmap);
      if free < total {
        return -1;
      }
      if Unpayable(|data|, blockSize) {
        FewerThanNeeded(d, |data|, blockSize);
      }
      index := FindFree(bitmap);
      if index == -1 {
        return -1;
      }
      ghost var target := if needed < free then needed else free - 1;
      IndexTaken(d.bits, target);
      TakenInside(d, index, target, blockSize);
      SetBlock(bitmap, index, true);
      var pointers, done := WriteData(data, needed, target);
      Amounts(d, data, blockSize, target, OnDisk());
      if !done {
        return -1;
      }
      WritePointers(index, pointers);
    }
  }

  /** Once every block has been taken, the free set is empty and the work done is the whole of it. */
  lemma {:induction false} NoneLeft(start: Disk, now: Disk, content: seq<byte>, bs: nat, needed: nat,
                                    pointers: seq<nat>, at: nat)
    requires InProgress(start, now, content, bs, needed, pointers, at) && |pointers| == needed
    requires |FreeSet(start.bits)| == needed
    ensures FreeSet(now.bits) == {}
    ensures pointers == Take(start.bits, needed) && Inside(start.bytes, pointers, bs)
    ensures now == Disk(MarkAll(start.bits, pointers), WriteBlocks(start.bytes, pointers, content, bs))
  {
    hide FreeSet;
    Finished(start, now, content, bs, needed, pointers, at);
    TakeEffect(start.bits, needed);
  }

  lemma SpliceIs(before: seq<byte>, after: seq<byte>, p: nat, chunk: seq<byte>)
    requires p <= |before| && |after| == if p + |chunk| <= |before| then |before| else p + |chunk|
    requires forall i :: 0 <= i < |chunk| ==> after[p + i] == chunk[i]
    requires forall i :: 0 <= i < |before| && !(p <= i < p + |chunk|) ==> after[i] == before[i]
    ensures after == Splice(before, p, chunk)
  {
    assert forall i :: p <= i < p + |chunk| ==> after[i] == chunk[i - p];
  }
}
