/** 32-bit words stored little-endian in a byte memory. */
module Words {
  type u32 = x: int | 0 <= x < 0x1_0000_0000
  type byte = x: int | 0 <= x < 256

  function Bytes(v: u32): (b: seq<byte>)
    ensures |b| == 4
  {
    [v % 256, v / 256 % 256, v / 65536 % 256, v / 16777216]
  }

  function Value(b: seq<byte>): u32
    requires |b| == 4
  {
    b[0] as int + 256 * (b[1] as int) + 65536 * (b[2] as int) + 16777216 * (b[3] as int)
  }

  lemma ValueOfBytes(v: u32)
    ensures Value(Bytes(v)) == v
  {
    var q1, q2 := v / 256, v / 65536;
    assert v == 256 * q1 + v % 256;
    assert q2 == q1 / 256 && q1 == 256 * q2 + q1 % 256;
    assert v / 16777216 == q2 / 256 && q2 == 256 * (q2 / 256) + q2 % 256;
  }

  function ReadWord(mem: seq<byte>, p: nat): u32
    requires p + 4 <= |mem|
  {
    Value(mem[p..p + 4])
  }

  function WriteWord(mem: seq<byte>, p: nat, v: u32): (r: seq<byte>)
    requires p + 4 <= |mem|
    ensures |r| == |mem|
  {
    mem[..p] + Bytes(v) + mem[p + 4..]
  }

  /** A word reads back as written, and everything outside its four bytes is untouched. */
  lemma ReadAfterWrite(mem: seq<byte>, p: nat, v: u32)
    requires p + 4 <= |mem|
    ensures ReadWord(WriteWord(mem, p, v), p) == v
    ensures forall k :: 0 <= k < |mem| && !(p <= k < p + 4) ==> WriteWord(mem, p, v)[k] == mem[k]
  {
    assert WriteWord(mem, p, v)[p..p + 4] == Bytes(v);
    ValueOfBytes(v);
  }

  lemma ReadElsewhere(mem: seq<byte>, p: nat, v: u32, q: nat)
    requires p + 4 <= |mem| && q + 4 <= |mem| && (q + 4 <= p || p + 4 <= q)
    ensures ReadWord(WriteWord(mem, p, v), q) == ReadWord(mem, q)
  {
    assert WriteWord(mem, p, v)[q..q + 4] == mem[q..q + 4];
  }

  // Which byte is which

  function PowerOf256(k: nat): (p: nat)
    ensures p > 0
  {
    if k == 0 then 1 else 256 * PowerOf256(k - 1)
  }

  lemma SmallPowers()
    ensures PowerOf256(0) == 1 && PowerOf256(1) == 256 && PowerOf256(2) == 65536 && PowerOf256(3) == 16777216
  {
    assert PowerOf256(1) == 256 * PowerOf256(0);
    assert PowerOf256(2) == 256 * PowerOf256(1);
    assert PowerOf256(3) == 256 * PowerOf256(2);
  }

  lemma {:induction false} Digits(v: u32, k: nat)
    requires k < 4
    ensures Bytes(v)[k] == v / PowerOf256(k) % 256
  {
    SmallPowers();
    hide PowerOf256;
  }

  /** The byte at offset k of a stored word is its digit of weight 256 to the power of k. */
  lemma {:induction false} LittleEndianWrite(mem: seq<byte>, p: nat, v: u32, k: nat)
    requires p + 4 <= |mem| && k < 4
    ensures WriteWord(mem, p, v)[p + k] == v / PowerOf256(k) % 256
  {
    hide Bytes, PowerOf256;
    Digits(v, k);
  }

  lemma LittleEndianRead(mem: seq<byte>, p: nat)
    requires p + 4 <= |mem|
    ensures ReadWord(mem, p) == mem[p] * PowerOf256(0) + mem[p + 1] * PowerOf256(1) + mem[p + 2] * PowerOf256(2)
      + mem[p + 3] * PowerOf256(3)
  {
    SmallPowers();
    hide PowerOf256;
  }
}
