/** 32-bit words as four bytes, least significant first. */
module LittleEndian {
  import opened Prelude

  type Bytes = seq<byte>

  function Le32(n: u32): (w: Bytes)
    ensures |w| == 4 && FromLe32(w) == n
  {
    Split(n);
    [n % 256, n / 256 % 256, n / 256 / 256 % 256, n / 256 / 256 / 256]
  }

  lemma Split(n: nat)
    ensures n == n % 256 + 256 * (n / 256 % 256) + 65536 * (n / 256 / 256 % 256) + 16777216 * (n / 256 / 256 / 256)
    ensures n <= U32_MAX ==> n / 256 / 256 / 256 < 256
  {
    var a := n / 256;
    var b := a / 256;
    assert n == n % 256 + 256 * a && a == a % 256 + 256 * b && b == b % 256 + 256 * (b / 256);
  }

  function FromLe32(w: Bytes): u32
    requires |w| == 4
  {
    w[0] as int + 256 * (w[1] as int) + 65536 * (w[2] as int) + 16777216 * (w[3] as int)
  }

  /** The number that bytes stand for, each next one 256 times the one before. */
  function Number(w: Bytes): nat {
    if w == [] then 0 else w[0] + 0x100 * Number(w[1..])
  }

  /** A word is read as the number of its bytes, the first the least. */
  lemma WordIsTheNumber(w: Bytes)
    requires |w| == 4
    ensures FromLe32(w) == Number(w)
    ensures FromLe32(w) == w[0] as int + 0x100 * w[1] as int + 0x1_0000 * w[2] as int + 0x100_0000 * w[3] as int
  {
    assert w[1..][1..] == w[2..] && w[2..][1..] == w[3..] && w[3..][1..] == [];
    assert Number(w[3..]) == w[3];
    assert Number(w[2..]) == w[2] as int + 0x100 * w[3] as int;
    assert Number(w[1..]) == w[1] as int + 0x100 * w[2] as int + 0x1_0000 * w[3] as int;
  }

  /** Byte `k` of a word is its `k`-th digit to the base 256. */
  lemma WordHasItsDigits(n: u32)
    ensures Le32(n) == [n % 0x100, n / 0x100 % 0x100, n / 0x1_0000 % 0x100, n / 0x100_0000 % 0x100]
    ensures Number(Le32(n)) == n
  {
    Split(n);
    assert n / 0x100 / 0x100 == n / 0x1_0000 && n / 0x1_0000 / 0x100 == n / 0x100_0000;
    WordIsTheNumber(Le32(n));
  }

  /** Four bytes are the encoding of the word they decode to. */
  lemma WordOfItsBytes(w: Bytes)
    requires |w| == 4
    ensures Le32(FromLe32(w)) == w
  {
    var n := FromLe32(w);
    var a: int, b: int, c: int, d: int := w[0], w[1], w[2], w[3];
    assert n == a + 256 * (b + 256 * (c + 256 * d));
    assert n / 256 == b + 256 * (c + 256 * d);
    assert n / 256 / 256 == c + 256 * d;
  }
}
