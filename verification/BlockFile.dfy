/** Files on the block device: data blocks and one index block each, written block by block. */
module BlockFile {
  import opened Words
  import opened Bitmap

  /** The bitmap and the bytes of bloques.dat. */
  datatype Disk = Disk(bits: seq<bv8>, bytes: seq<byte>)

  datatype Allocation = Allocation(disk: Disk, index: nat)

  /** The bitmap covers the block file exactly, and every offset fits in 32 bits. */
  predicate Geometry(d: Disk, bs: nat) {
    0 < bs < 0x1_0000_0000 && |d.bytes| == Blocks(d.bits) * bs && |d.bytes| < 0x1_0000_0000
  }

  // Sizes

  /** Sizes as the code can hold them. */
  predicate Representable(size: nat, bs: nat) {
    size < 0x1_0000_0000 && 0 < bs < 0x1_0000_0000
  }

  /** The rounding does not wrap around. */
  predicate Rounds(size: nat, bs: nat) {
    size + bs - 1 < 0x1_0000_0000
  }

  /** (size + block_size - 1) / block_size in unsigned 32-bit arithmetic. */
  function Needed(size: u32, bs: u32): nat
    requires bs > 0
  {
    (size as int + bs as int - 1) % 0x1_0000_0000 / bs
  }

  predicate Covers(n: nat, size: nat, bs: nat) {
    size <= n * bs && (n > 0 ==> (n - 1) * bs < size)
  }

  lemma CeilingBounds(x: nat, size: nat, bs: nat)
    requires bs > 0 && x == size + bs - 1
    ensures Covers(x / bs, size, bs)
  {
    var q := x / bs;
    assert x == q * bs + x % bs;
    assert (q - 1) * bs == q * bs - bs;
  }

  /** The number of data blocks is the exact number that covers the file if and only if the
      rounding does not wrap around. */
  lemma NeededIsCeilingIff(size: u32, bs: u32)
    requires bs > 0
    ensures Covers(Needed(size, bs), size, bs) <==> Rounds(size, bs)
  {
    var x := size as int + bs as int - 1;
    if x < 0x1_0000_0000 {
      CeilingBounds(x, size, bs);
    } else {
      var q := (x - 0x1_0000_0000) / bs;
      assert x % 0x1_0000_0000 == x - 0x1_0000_0000;
      assert x - 0x1_0000_0000 == q * bs + (x - 0x1_0000_0000) % bs;
      assert q * bs <= x - 0x1_0000_0000 < size;
      assert Needed(size, bs) == q;
    }
  }

  /** In any case it is the quotient of the wrapped sum. */
  lemma NeededIsQuotient(size: u32, bs: u32)
    requires bs > 0
    ensures var sum := size as int + bs as int - 1; var x := if sum < 0x1_0000_0000 then sum else sum - 0x1_0000_0000;
      Needed(size, bs) * bs <= x < Needed(size, bs) * bs + bs
  {
    var sum := size as int + bs as int - 1;
    var x := sum % 0x1_0000_0000;
    assert x == x / bs * bs + x % bs;
  }

  // Taking blocks

  /** The next k free blocks, each found after the one before was marked. */
  ghost function Take(bits: seq<bv8>, k: nat): (blocks: seq<nat>)
    requires k <= |FreeSet(bits)|
    ensures |blocks| == k
    decreases k
  {
    if k == 0 then []
    else
      assert FreeSet(bits) != {};
      MarkTakesOne(bits, FirstFree(bits));
      [FirstFree(bits)] + Take(Mark(bits, FirstFree(bits)), k - 1)
  }

  function MarkAll(bits: seq<bv8>, blocks: seq<nat>): (r: seq<bv8>)
    ensures |r| == |bits|
    decreases |blocks|
  {
    if blocks == [] || blocks[0] >= Blocks(bits) then bits else MarkAll(Mark(bits, blocks[0]), blocks[1..])
  }

  ghost predicate Distinct(blocks: seq<nat>) {
    forall i, j :: 0 <= i < j < |blocks| ==> blocks[i] != blocks[j]
  }

  ghost function Elements(blocks: seq<nat>): set<nat> {
    set i | 0 <= i < |blocks| :: blocks[i]
  }

  /** k distinct blocks, all of them free before and the least ones that were, and no other block
      changes hands. */
  lemma {:induction false} TakeEffect(bits: seq<bv8>, k: nat)
    requires k <= |FreeSet(bits)|
    ensures var blocks := Take(bits, k);
      && Distinct(blocks) && Elements(blocks) <= FreeSet(bits)
      && FreeSet(MarkAll(bits, blocks)) == FreeSet(bits) - Elements(blocks)
      && |FreeSet(MarkAll(bits, blocks))| == |FreeSet(bits)| - k
      && (forall t, b :: t in Elements(blocks) && b in FreeSet(MarkAll(bits, blocks)) ==> t < b)
    decreases k
  {
    hide FirstFree, Mark, FreeSet, Used, Distinct, Elements;
    if k == 0 {
      NoElements();
    } else {
      assert FreeSet(bits) != {};
      var f := FirstFree(bits);
      MarkTakesOne(bits, f);
      TakeEffect(Mark(bits, f), k - 1);
      var rest := Take(Mark(bits, f), k - 1);
      assert Take(bits, k)[1..] == rest;
      ElementsCons(f, rest);
      OneMoreTaken(FreeSet(bits), f, Elements(rest), FreeSet(MarkAll(Mark(bits, f), rest)), k - 1);
    }
  }

  /** The least free block, and then some more of the least ones. */
  lemma OneMoreTaken(free: set<nat>, f: nat, rest: set<nat>, left: set<nat>, k: nat)
    requires f in free && (forall b :: b in free ==> f <= b) && k < |free|
    requires rest <= free - {f} && left == free - {f} - rest && |left| == |free - {f}| - k
    requires forall t, b :: t in rest && b in left ==> t < b
    ensures {f} + rest <= free && left == free - ({f} + rest) && |left| == |free| - (k + 1)
    ensures forall t, b :: t in {f} + rest && b in left ==> t < b
  {
  }

  lemma NoElements()
    ensures Elements([]) == {} && Distinct([])
  {
  }

  lemma ElementsCons(f: nat, rest: seq<nat>)
    ensures Elements([f] + rest) == {f} + Elements(rest)
    ensures f !in Elements(rest) && Distinct(rest) ==> Distinct([f] + rest)
  {
    forall b | b in {f} + Elements(rest) ensures b in Elements([f] + rest) {
      if b == f {
        assert ([f] + rest)[0] == f;
      } else {
        var i :| 0 <= i < |rest| && rest[i] == b;
        assert ([f] + rest)[i + 1] == b;
      }
    }
  }

  // Positions in the block file

  function At(block: nat, bs: nat): nat {
    block * bs
  }

  lemma {:induction false} Ordered(a: nat, b: nat, bs: nat)
    requires a < b
    ensures a * bs + bs <= b * bs
    decreases b
  {
    if a + 1 < b {
      Ordered(a, b - 1, bs);
    }
  }

  lemma BlocksApart(a: nat, b: nat, bs: nat)
    requires a != b
    ensures At(a, bs) + bs <= At(b, bs) || At(b, bs) + bs <= At(a, bs)
  {
    if a < b {
      Ordered(a, b, bs);
    } else {
      Ordered(b, a, bs);
    }
  }

  lemma BlockInside(d: Disk, block: nat, bs: nat)
    requires Geometry(d, bs) && block < Blocks(d.bits)
    ensures At(block, bs) + bs <= |d.bytes|
  {
    Ordered(block, Blocks(d.bits), bs);
  }

  /** Every listed block lies inside the file. */
  ghost predicate Inside(bytes: seq<byte>, blocks: seq<nat>, bs: nat) {
    forall i :: 0 <= i < |blocks| ==> At(blocks[i], bs) + bs <= |bytes|
  }

  function BlockAt(bytes: seq<byte>, block: nat, bs: nat): (r: seq<byte>)
    requires At(block, bs) + bs <= |bytes|
    ensures |r| == bs
  {
    bytes[At(block, bs)..At(block, bs) + bs]
  }

  // Writing

  /** fseek and fwrite: bytes overwritten in place, the file growing when they pass its end. */
  function Splice(bytes: seq<byte>, p: nat, chunk: seq<byte>): (r: seq<byte>)
    requires p <= |bytes|
  {
    bytes[..p] + chunk + (if p + |chunk| <= |bytes| then bytes[p + |chunk|..] else [])
  }

  function Min(a: nat, b: nat): nat {
    if a < b then a else b
  }

  /** The data loop: whole words only, block by block. */
  function WriteBlocks(bytes: seq<byte>, blocks: seq<nat>, content: seq<byte>, bs: nat): (r: seq<byte>)
    requires forall i :: 0 <= i < |blocks| ==> At(blocks[i], bs) + bs <= |bytes|
    ensures |r| == |bytes|
    decreases |blocks|
  {
    if blocks == [] then bytes
    else
      var len := Min(|content|, 4 * (bs / 4));
      WriteBlocks(Splice(bytes, At(blocks[0], bs), content[..len]), blocks[1..], content[len..], bs)
  }

  function PointerBytes(blocks: seq<nat>): (r: seq<byte>)
    requires forall i :: 0 <= i < |blocks| ==> blocks[i] < 0x1_0000_0000
    ensures |r| == 4 * |blocks|
  {
    if blocks == [] then [] else PointerBytes(blocks[..|blocks| - 1]) + Bytes(blocks[|blocks| - 1])
  }

  /** Whole words of the data; what is left over is never written. */
  function Whole(data: seq<byte>): seq<byte> {
    data[..4 * (|data| / 4)]
  }

  // Reading back

  function ReadBlocks(bytes: seq<byte>, blocks: seq<nat>, size: nat, bs: nat): seq<byte>
    requires forall i :: 0 <= i < |blocks| ==> At(blocks[i], bs) + bs <= |bytes|
  {
    if blocks == [] then []
    else
      var len := Min(size, bs);
      BlockAt(bytes, blocks[0], bs)[..len] + ReadBlocks(bytes, blocks[1..], size - len, bs)
  }

  function Pointers(bytes: seq<byte>, index: nat, n: nat, bs: nat): (r: seq<nat>)
    requires At(index, bs) + 4 * n <= |bytes|
    ensures |r| == n
  {
    if n == 0 then [] else Pointers(bytes, index, n - 1, bs) + [ReadWord(bytes, At(index, bs) + 4 * (n - 1))]
  }

  lemma SpliceElsewhere(bytes: seq<byte>, p: nat, chunk: seq<byte>, a: nat, b: nat)
    requires p + |chunk| <= |bytes| && a <= b <= |bytes| && (b <= p || p + |chunk| <= a)
    ensures |Splice(bytes, p, chunk)| == |bytes|
    ensures Splice(bytes, p, chunk)[a..b] == bytes[a..b]
  {
  }

  lemma SpliceBlock(bytes: seq<byte>, block: nat, chunk: seq<byte>, other: nat, bs: nat)
    requires At(block, bs) + bs <= |bytes| && At(other, bs) + bs <= |bytes| && |chunk| <= bs
    ensures |Splice(bytes, At(block, bs), chunk)| == |bytes|
    ensures other != block ==> BlockAt(Splice(bytes, At(block, bs), chunk), other, bs) == BlockAt(bytes, other, bs)
    ensures BlockAt(Splice(bytes, At(block, bs), chunk), block, bs)[..|chunk|] == chunk
  {
    hide At, Splice;
    SpliceHere(bytes, At(block, bs), chunk);
    if other != block {
      BlocksApart(block, other, bs);
      SpliceElsewhere(bytes, At(block, bs), chunk, At(other, bs), At(other, bs) + bs);
    }
    assert BlockAt(Splice(bytes, At(block, bs), chunk), block, bs)[..|chunk|]
        == Splice(bytes, At(block, bs), chunk)[At(block, bs)..At(block, bs) + |chunk|];
  }

  lemma SpliceHere(bytes: seq<byte>, p: nat, chunk: seq<byte>)
    requires p + |chunk| <= |bytes|
    ensures |Splice(bytes, p, chunk)| == |bytes|
    ensures Splice(bytes, p, chunk)[p..p + |chunk|] == chunk
  {
  }

  /** Past the bytes written, a block is as it was. */
  lemma SpliceRest(bytes: seq<byte>, block: nat, chunk: seq<byte>, bs: nat)
    requires At(block, bs) + bs <= |bytes| && |chunk| <= bs
    ensures |Splice(bytes, At(block, bs), chunk)| == |bytes|
    ensures forall j :: |chunk| <= j < bs ==>
      BlockAt(Splice(bytes, At(block, bs), chunk), block, bs)[j] == BlockAt(bytes, block, bs)[j]
  {
    hide At;
  }

  /** The data loop changes no block but the listed ones. */
  lemma {:induction false} WriteElsewhere(bytes: seq<byte>, blocks: seq<nat>, content: seq<byte>, bs: nat, other: nat)
    requires Inside(bytes, blocks, bs) && At(other, bs) + bs <= |bytes|
    requires forall i :: 0 <= i < |blocks| ==> blocks[i] != other
    ensures BlockAt(WriteBlocks(bytes, blocks, content, bs), other, bs) == BlockAt(bytes, other, bs)
    decreases |blocks|
  {
    hide At, Splice, BlockAt;
    if blocks != [] {
      var len := Min(|content|, 4 * (bs / 4));
      SpliceBlock(bytes, blocks[0], content[..len], other, bs);
      WriteElsewhere(Splice(bytes, At(blocks[0], bs), content[..len]), blocks[1..], content[len..], bs, other);
    }
  }

  /** Reading depends only on the listed blocks. */
  lemma {:induction false} ReadSame(bytes: seq<byte>, after: seq<byte>, blocks: seq<nat>, size: nat, bs: nat)
    requires Inside(bytes, blocks, bs) && |after| == |bytes|
    requires forall i :: 0 <= i < |blocks| ==> BlockAt(after, blocks[i], bs) == BlockAt(bytes, blocks[i], bs)
    ensures ReadBlocks(after, blocks, size, bs) == ReadBlocks(bytes, blocks, size, bs)
    decreases |blocks|
  {
    hide At, BlockAt;
    if blocks != [] {
      ReadSame(bytes, after, blocks[1..], size - Min(size, bs), bs);
    }
  }

  /** Blocks of whole words, or a single block that is not filled, hold the content, read back in
      order. */
  lemma {:induction false} WriteThenRead(bytes: seq<byte>, blocks: seq<nat>, content: seq<byte>, bs: nat, chunk: nat)
    requires Inside(bytes, blocks, bs) && Distinct(blocks)
    requires chunk == 4 * (bs / 4) && (chunk == bs || |blocks| <= 1) && |content| <= |blocks| * chunk
    ensures ReadBlocks(WriteBlocks(bytes, blocks, content, bs), blocks, |content|, bs) == content
    decreases |blocks|
  {
    hide At, Splice, BlockAt, Distinct;
    if blocks != [] {
      var len := Min(|content|, chunk);
      TailBound(|blocks|, chunk, |content|);
      assert len == Min(|content|, bs);
      var once := Splice(bytes, At(blocks[0], bs), content[..len]);
      SpliceBlock(bytes, blocks[0], content[..len], blocks[0], bs);
      DistinctTail(blocks);
      WriteThenRead(once, blocks[1..], content[len..], bs, chunk);
      WriteElsewhere(once, blocks[1..], content[len..], bs, blocks[0]);
      var written := WriteBlocks(bytes, blocks, content, bs);
      assert written == WriteBlocks(once, blocks[1..], content[len..], bs);
      assert BlockAt(written, blocks[0], bs)[..len] == content[..len];
      assert content == content[..len] + content[len..];
    }
  }

  function ByteFrom(content: seq<byte>, chunk: nat, from: nat, j: nat, before: byte): byte {
    if j < chunk && from + j < |content| then content[from + j] else before
  }

  /** What byte j of the i-th block becomes: the next one of the content as far as whole words of the block
      and the content go, and what was there before from then on. */
  function ByteOf(content: seq<byte>, bs: nat, i: nat, j: nat, before: byte): byte {
    ByteFrom(content, 4 * (bs / 4), i * (4 * (bs / 4)), j, before)
  }

  lemma NextChunk(content: seq<byte>, chunk: nat, from: nat, j: nat, before: byte)
    ensures ByteFrom(content[Min(|content|, chunk)..], chunk, from, j, before)
      == ByteFrom(content, chunk, from + chunk, j, before)
  {
  }

  lemma OneMoreTime(i: nat, chunk: nat)
    requires i > 0
    ensures (i - 1) * chunk >= 0 && i * chunk == (i - 1) * chunk + chunk
  {
  }

  lemma NextBlock(content: seq<byte>, bs: nat, i: nat, j: nat, before: byte)
    requires i > 0
    ensures ByteOf(content[Min(|content|, 4 * (bs / 4))..], bs, i - 1, j, before) == ByteOf(content, bs, i, j, before)
  {
    hide ByteFrom, Min;
    var chunk := 4 * (bs / 4);
    OneMoreTime(i, chunk);
    NextChunk(content, chunk, (i - 1) * chunk, j, before);
  }

  lemma {:induction false} FirstBlock(bytes: seq<byte>, block: nat, content: seq<byte>, bs: nat, j: nat)
    requires At(block, bs) + bs <= |bytes| && j < bs
    ensures var once := Splice(bytes, At(block, bs), content[..Min(|content|, 4 * (bs / 4))]);
      |once| == |bytes| && BlockAt(once, block, bs)[j] == ByteOf(content, bs, 0, j, BlockAt(bytes, block, bs)[j])
  {
    hide At, Splice, BlockAt;
    var len := Min(|content|, 4 * (bs / 4));
    SpliceBlock(bytes, block, content[..len], block, bs);
    SpliceRest(bytes, block, content[..len], bs);
    if j < len {
      assert BlockAt(Splice(bytes, At(block, bs), content[..len]), block, bs)[..len][j] == content[..len][j];
    }
  }

  /** Every byte of the listed blocks after the data loop, for any block size and content. */
  lemma {:induction false} WrittenByte(bytes: seq<byte>, blocks: seq<nat>, content: seq<byte>, bs: nat, i: nat, j: nat)
    requires Inside(bytes, blocks, bs) && Distinct(blocks) && i < |blocks| && j < bs
    ensures BlockAt(WriteBlocks(bytes, blocks, content, bs), blocks[i], bs)[j]
      == ByteOf(content, bs, i, j, BlockAt(bytes, blocks[i], bs)[j])
    decreases |blocks|
  {
    hide At, Splice, BlockAt, Distinct, ByteOf;
    var len := Min(|content|, 4 * (bs / 4));
    var once := Splice(bytes, At(blocks[0], bs), content[..len]);
    SpliceBlock(bytes, blocks[0], content[..len], blocks[i], bs);
    DistinctTail(blocks);
    if i == 0 {
      WriteElsewhere(once, blocks[1..], content[len..], bs, blocks[0]);
      FirstBlock(bytes, blocks[0], content, bs, j);
    } else {
      assert blocks[i] == blocks[1..][i - 1] && blocks[i] != blocks[0];
      WrittenByte(once, blocks[1..], content[len..], bs, i - 1, j);
      NextBlock(content, bs, i, j, BlockAt(bytes, blocks[i], bs)[j]);
    }
  }

  lemma TailBound(n: nat, chunk: nat, size: nat)
    requires n > 0 && size <= n * chunk
    ensures size - Min(size, chunk) <= (n - 1) * chunk
    ensures n == 1 ==> size <= chunk
  {
    assert n * chunk == (n - 1) * chunk + chunk;
  }

  lemma DistinctTail(blocks: seq<nat>)
    requires blocks != [] && Distinct(blocks)
    ensures Distinct(blocks[1..]) && forall i :: 0 <= i < |blocks[1..]| ==> blocks[1..][i] != blocks[0]
  {
  }

  /** Pointers follow one another in list order, each with its least significant byte first. */
  lemma {:induction false} PointerByte(blocks: seq<nat>, i: nat, j: nat)
    requires forall k :: 0 <= k < |blocks| ==> blocks[k] < 0x1_0000_0000
    requires i < |blocks| && j < 4
    ensures PointerBytes(blocks)[4 * i + j] == blocks[i] / PowerOf256(j) % 256
    decreases |blocks|
  {
    hide Bytes, PowerOf256;
    var n := |blocks| - 1;
    if i < n {
      PointerByte(blocks[..n], i, j);
    } else {
      Digits(blocks[n], j);
    }
  }

  lemma WordRead(bytes: seq<byte>, p: nat, v: u32)
    requires p + 4 <= |bytes| && bytes[p..p + 4] == Bytes(v)
    ensures ReadWord(bytes, p) == v
  {
    hide Bytes, Value;
    ValueOfBytes(v);
  }

  lemma SliceInTwo(bytes: seq<byte>, p: nat, n: nat, m: nat, first: seq<byte>, second: seq<byte>)
    requires p + n + m <= |bytes| && |first| == n && |second| == m && bytes[p..p + n + m] == first + second
    ensures bytes[p..p + n] == first && bytes[p + n..p + n + m] == second
  {
    var all := bytes[p..p + n + m];
    assert bytes[p..p + n] == all[..n] && bytes[p + n..p + n + m] == all[n..];
  }

  lemma {:induction false} PointersRead(bytes: seq<byte>, index: nat, blocks: seq<nat>, bs: nat)
    requires forall i :: 0 <= i < |blocks| ==> blocks[i] < 0x1_0000_0000
    requires At(index, bs) + 4 * |blocks| <= |bytes|
    requires bytes[At(index, bs)..At(index, bs) + 4 * |blocks|] == PointerBytes(blocks)
    ensures Pointers(bytes, index, |blocks|, bs) == blocks
    decreases |blocks|
  {
    hide At, ReadWord, Bytes;
    if blocks != [] {
      var n := |blocks| - 1;
      SliceInTwo(bytes, At(index, bs), 4 * n, 4, PointerBytes(blocks[..n]), Bytes(blocks[n]));
      PointersRead(bytes, index, blocks[..n], bs);
      WordRead(bytes, At(index, bs) + 4 * n, blocks[n]);
      assert blocks == blocks[..n] + [blocks[n]];
    }
  }

  lemma WordOfBlock(bytes: seq<byte>, block: nat, i: nat, bs: nat)
    requires At(block, bs) + bs <= |bytes| && 4 * i + 4 <= bs
    ensures ReadWord(bytes, At(block, bs) + 4 * i) == Value(BlockAt(bytes, block, bs)[4 * i..4 * i + 4])
  {
    hide Value;
    var p := At(block, bs);
    hide At;
    assert bytes[p..p + bs][4 * i..4 * i + 4] == bytes[p + 4 * i..p + 4 * i + 4];
  }

  lemma {:induction false} PointersSame(bytes: seq<byte>, after: seq<byte>, index: nat, n: nat, bs: nat)
    requires |after| == |bytes| && At(index, bs) + bs <= |bytes| && 4 * n <= bs
    requires BlockAt(after, index, bs) == BlockAt(bytes, index, bs)
    ensures Pointers(after, index, n, bs) == Pointers(bytes, index, n, bs)
    decreases n
  {
    hide At, ReadWord;
    if n > 0 {
      PointersSame(bytes, after, index, n - 1, bs);
      var p := At(index, bs) + 4 * (n - 1);
      WordOfBlock(after, index, n - 1, bs);
      WordOfBlock(bytes, index, n - 1, bs);
    }
  }
}
