/** The block bitmap: one bit per block, searched and marked in place. */
module Bitmap {

  /** 1 << bit, for the bits of one byte. */
  function Mask(bit: nat): bv8
    requires bit < 8
  {
    if bit == 0 then 1 else if bit == 1 then 2 else if bit == 2 then 4 else if bit == 3 then 8
    else if bit == 4 then 16 else if bit == 5 then 32 else if bit == 6 then 64 else 128
  }

  function Blocks(bits: seq<bv8>): nat {
    8 * |bits|
  }

  predicate Lit(x: bv8, bit: nat)
    requires bit < 8
  {
    x & Mask(bit) != 0
  }

  function Raise(x: bv8, bit: nat): bv8
    requires bit < 8
  {
    x | Mask(bit)
  }

  function Lower(x: bv8, bit: nat): bv8
    requires bit < 8
  {
    x & !Mask(bit)
  }

  predicate Used(bits: seq<bv8>, block: nat)
    requires block < Blocks(bits)
  {
    Lit(bits[block / 8], block % 8)
  }

  function Mark(bits: seq<bv8>, block: nat): (r: seq<bv8>)
    requires block < Blocks(bits)
    ensures |r| == |bits|
  {
    bits[block / 8 := Raise(bits[block / 8], block % 8)]
  }

  function Clear(bits: seq<bv8>, block: nat): (r: seq<bv8>)
    requires block < Blocks(bits)
    ensures |r| == |bits|
  {
    bits[block / 8 := Lower(bits[block / 8], block % 8)]
  }

  lemma SetBit(x: bv8, i: nat, j: nat)
    requires i < 8 && j < 8
    ensures Lit(Raise(x, i), j) <==> i == j || Lit(x, j)
  {
  }

  lemma ClearBit(x: bv8, i: nat, j: nat)
    requires i < 8 && j < 8
    ensures Lit(Lower(x, i), j) <==> i != j && Lit(x, j)
  {
  }

  // Which bit of which byte stands for a block

  function PowerOfTwo(k: nat): (p: nat)
    ensures p > 0
  {
    if k == 0 then 1 else 2 * PowerOfTwo(k - 1)
  }

  /** 1 shifted left, as the code writes it. */
  function Weight(bit: nat): bv8
    requires bit < 8
  {
    (1 as bv8) << bit
  }

  lemma Halved(x: bv8)
    ensures (x >> 1) as int == x as int / 2 && (x & 1) as int == x as int % 2
  {
  }

  lemma ShiftedOnceMore(x: bv8, k: nat)
    requires k < 7
    ensures x >> (k + 1) == (x >> k) >> 1
  {
  }

  lemma DivideTwice(x: nat, p: nat)
    requires p > 0
    ensures x / p / 2 == x / (2 * p)
  {
    var q, r := x / p, x % p;
    assert x == p * q + r;
    assert q == 2 * (q / 2) + q % 2;
    assert x == (2 * p) * (q / 2) + (p * (q % 2) + r);
    QuotientIs(x, 2 * p, q / 2, p * (q % 2) + r);
  }

  lemma Scaled(a: int, b: int, d: nat)
    requires a <= b
    ensures d * a <= d * b
  {
  }

  lemma QuotientIs(x: nat, d: nat, q: nat, r: nat)
    requires x == d * q + r && r < d
    ensures x / d == q
  {
    if x / d < q {
      Scaled(x / d, q - 1, d);
    } else if x / d > q {
      Scaled(q + 1, x / d, d);
    }
  }

  lemma {:induction false} ShiftDivides(x: bv8, k: nat)
    requires k < 8
    ensures (x >> k) as int == x as int / PowerOfTwo(k)
  {
    if k > 0 {
      ShiftDivides(x, k - 1);
      ShiftedOnceMore(x, k - 1);
      Halved(x >> (k - 1));
      DivideTwice(x as int, PowerOfTwo(k - 1));
    }
  }

  lemma LitIsShift(x: bv8, bit: nat)
    requires bit < 8
    ensures Mask(bit) == Weight(bit)
    ensures Lit(x, bit) <==> (x >> bit) & 1 == 1
  {
  }

  /** y is x + w without overflow. */
  predicate Exceeds(y: bv8, x: bv8, w: bv8) {
    x <= 255 - w && y == x + w
  }

  lemma RaisedByMask(x: bv8, m: bv8)
    ensures x & m == 0 ==> Exceeds(x | m, x, m)
    ensures x & m == m ==> Exceeds(x, x & !m, m)
  {
  }

  lemma MaskIsOneBit(x: bv8, bit: nat)
    requires bit < 8
    ensures x & Mask(bit) == 0 || x & Mask(bit) == Mask(bit)
  {
  }

  /** The binary digit of a byte at that position. */
  function Digit(x: bv8, k: nat): int {
    x as int / PowerOfTwo(k) % 2
  }

  lemma BitOfByte(x: bv8, bit: nat)
    requires bit < 8
    ensures Lit(x, bit) <==> Digit(x, bit) == 1
  {
    hide Lit, PowerOfTwo;
    LitIsShift(x, bit);
    ShiftDivides(x, bit);
    Halved(x >> bit);
  }

  lemma MarkedByte(x: bv8, bit: nat)
    requires bit < 8
    ensures !Lit(x, bit) ==> Exceeds(Raise(x, bit), x, Weight(bit))
    ensures Lit(x, bit) ==> Exceeds(x, Lower(x, bit), Weight(bit))
  {
    hide Mask, Weight, Exceeds;
    LitIsShift(x, bit);
    MaskIsOneBit(x, bit);
    RaisedByMask(x, Mask(bit));
  }

  /** A block is in use exactly when digit b % 8, from the least significant on, of byte b / 8 is one. */
  lemma UsedIsDigit(bits: seq<bv8>, b: nat)
    requires b < Blocks(bits)
    ensures Used(bits, b) <==> Digit(bits[b / 8], b % 8) == 1
  {
    hide Lit, Digit;
    BitOfByte(bits[b / 8], b % 8);
  }

  /** Taking a free block adds 1 << (b % 8) to its byte, and giving one back takes it away. */
  lemma MarkAddsWeight(bits: seq<bv8>, b: nat)
    requires b < Blocks(bits)
    ensures !Used(bits, b) ==>
      Mark(bits, b) == bits[b / 8 := Mark(bits, b)[b / 8]] && Exceeds(Mark(bits, b)[b / 8], bits[b / 8], Weight(b % 8))
    ensures Used(bits, b) ==>
      Clear(bits, b) == bits[b / 8 := Clear(bits, b)[b / 8]]
        && Exceeds(bits[b / 8], Clear(bits, b)[b / 8], Weight(b % 8))
  {
    hide Lit, Raise, Lower, Weight, Exceeds;
    MarkedByte(bits[b / 8], b % 8);
  }

  /** Marking a block changes that block's bit and no other. */
  lemma MarkChangesOne(bits: seq<bv8>, block: nat, other: nat)
    requires block < Blocks(bits) && other < Blocks(bits)
    ensures Used(Mark(bits, block), other) <==> other == block || Used(bits, other)
    ensures Used(Clear(bits, block), other) <==> other != block && Used(bits, other)
  {
    hide Lit, Raise, Lower;
    SetBit(bits[block / 8], block % 8, other % 8);
    ClearBit(bits[block / 8], block % 8, other % 8);
  }

  ghost function FreeSet(bits: seq<bv8>): set<nat> {
    set b: nat | 0 <= b < Blocks(bits) && !Used(bits, b)
  }

  lemma MarkTakesOne(bits: seq<bv8>, block: nat)
    requires block < Blocks(bits)
    ensures FreeSet(Mark(bits, block)) == FreeSet(bits) - {block}
    ensures FreeSet(Clear(bits, block)) == FreeSet(bits) + {block}
  {
    hide Used, Mark, Clear;
    forall b: nat | b < Blocks(bits) {
      MarkChangesOne(bits, block, b);
    }
  }

  /** The least free block from `from` on, or the number of blocks when there is none. */
  function FirstFreeFrom(bits: seq<bv8>, from: nat): (b: nat)
    requires from <= Blocks(bits)
    ensures from <= b <= Blocks(bits)
    ensures b < Blocks(bits) ==> !Used(bits, b)
    ensures forall c :: from <= c < b ==> Used(bits, c)
    decreases Blocks(bits) - from
  {
    if from == Blocks(bits) || !Used(bits, from) then from else FirstFreeFrom(bits, from + 1)
  }

  function FirstFree(bits: seq<bv8>): (b: nat)
    ensures b < Blocks(bits) ==> b in FreeSet(bits) && forall c :: c in FreeSet(bits) ==> b <= c
    ensures b == Blocks(bits) <==> FreeSet(bits) == {}
    ensures b <= Blocks(bits)
  {
    var b := FirstFreeFrom(bits, 0);
    assert b < Blocks(bits) ==> b in FreeSet(bits);
    b
  }

  /** Free blocks among the first `n`. */
  function CountFree(bits: seq<bv8>, n: nat): nat
    requires n <= Blocks(bits)
  {
    if n == 0 then 0 else CountFree(bits, n - 1) + (if Used(bits, n - 1) then 0 else 1)
  }

  ghost function FreeBelow(bits: seq<bv8>, n: nat): set<nat>
    requires n <= Blocks(bits)
  {
    set b: nat | 0 <= b < n && !Used(bits, b)
  }

  lemma {:induction false} CountIsCardinality(bits: seq<bv8>, n: nat)
    requires n <= Blocks(bits)
    ensures CountFree(bits, n) == |FreeBelow(bits, n)|
  {
    hide Used;
    if n == 0 {
      assert FreeBelow(bits, 0) == {};
    } else {
      CountIsCardinality(bits, n - 1);
      if Used(bits, n - 1) {
        assert FreeBelow(bits, n) == FreeBelow(bits, n - 1);
      } else {
        assert FreeBelow(bits, n) == FreeBelow(bits, n - 1) + {n - 1};
      }
    }
  }

  /** The free count is the cardinality of the free set. */
  lemma {:induction false} FreeCount(bits: seq<bv8>)
    ensures CountFree(bits, Blocks(bits)) == |FreeSet(bits)|
  {
    CountIsCardinality(bits, Blocks(bits));
    assert FreeBelow(bits, Blocks(bits)) == FreeSet(bits);
  }

  /** How the nested loops see a block. */
  lemma UsedAt(bits: seq<bv8>, byte: nat, bit: nat)
    requires byte < |bits| && bit < 8
    ensures Used(bits, 8 * byte + bit) <==> bits[byte] & Mask(bit) != 0
  {
    assert (8 * byte + bit) / 8 == byte && (8 * byte + bit) % 8 == bit;
    hide Mask;
  }

  lemma LeastIsFirst(bits: seq<bv8>, block: nat)
    requires block < Blocks(bits) && !Used(bits, block) && forall b :: 0 <= b < block ==> Used(bits, b)
    ensures block == FirstFree(bits) && FreeSet(bits) != {}
  {
    hide Used;
    assert block in FreeSet(bits);
  }

  // The operations, on the byte array

  /** buscar_bloque_libre: the least free block, or -1. */
  method FindFree(bitmap: array<bv8>) returns (block: int)
    ensures block == -1 <==> FreeSet(bitmap[..]) == {}
    ensures block != -1 ==> block == FirstFree(bitmap[..])
  {
    hide Used, Mask;
    var byte := 0;
    while byte < bitmap.Length
      invariant 0 <= byte <= bitmap.Length
      invariant forall b :: 0 <= b < 8 * byte ==> Used(bitmap[..], b)
    {
      var bit := 0;
      while bit < 8
        invariant 0 <= bit <= 8
        invariant forall b :: 0 <= b < 8 * byte + bit ==> Used(bitmap[..], b)
      {
        UsedAt(bitmap[..], byte, bit);
        if bitmap[byte] & Mask(bit) == 0 {
          LeastIsFirst(bitmap[..], 8 * byte + bit);
          return 8 * byte + bit;
        }
        bit := bit + 1;
      }
      byte := byte + 1;
    }
    return -1;
  }

  /** contar_bloques_libres. */
  method CountFreeBlocks(bitmap: array<bv8>) returns (free: nat)
    ensures free == |FreeSet(bitmap[..])|
  {
    hide Used, Mask;
    free := 0;
    var byte := 0;
    while byte < bitmap.Length
      invariant 0 <= byte <= bitmap.Length
      invariant free == CountFree(bitmap[..], 8 * byte)
    {
      var bit := 0;
      while bit < 8
        invariant 0 <= bit <= 8
        invariant free == CountFree(bitmap[..], 8 * byte + bit)
      {
        UsedAt(bitmap[..], byte, bit);
        if bitmap[byte] & Mask(bit) == 0 {
          free := free + 1;
        }
        bit := bit + 1;
      }
      byte := byte + 1;
    }
    FreeCount(bitmap[..]);
  }

  /** marcar_bloque: one bit set or cleared, every other left as it was. */
  method SetBlock(bitmap: array<bv8>, block: nat, occupied: bool)
    requires block < 8 * bitmap.Length
    modifies bitmap
    ensures bitmap[..] == if occupied then Mark(old(bitmap[..]), block) else Clear(old(bitmap[..]), block)
    ensures FreeSet(bitmap[..])
      == if occupied then FreeSet(old(bitmap[..])) - {block} else FreeSet(old(bitmap[..])) + {block}
  {
    hide Used, FreeSet, Raise, Lower;
    var byte, bit := block / 8, block % 8;
    if occupied {
      bitmap[byte] := Raise(bitmap[byte], bit);
    } else {
      bitmap[byte] := Lower(bitmap[byte], bit);
    }
    MarkTakesOne(old(bitmap[..]), block);
  }
}
