/** Bytes and fixed-width big-endian integers, as the wire format of `protocol.py` uses them. */
module Bytes {
  type Byte = x: int | 0 <= x < 256

  function Power256(n: nat): (p: nat)
    ensures p > 0
  {
    if n == 0 then 1 else 256 * Power256(n - 1)
  }

  /** The low `width` bytes of `v` (in two's complement when negative), most significant first. */
  function BigEndian(v: int, width: nat): (s: seq<Byte>)
    ensures |s| == width
    decreases width
  {
    if width == 0 then [] else BigEndian(v / 256, width - 1) + [v % 256]
  }

  /** What Python's struct.pack writes for an unsigned big-endian field. */
  function Pack(v: nat, width: nat): (s: seq<Byte>)
    ensures |s| == width
  {
    BigEndian(v, width)
  }

  /** The number a big-endian byte string denotes. */
  function Unsigned(s: seq<Byte>): nat {
    if s == [] then 0 else 256 * Unsigned(s[..|s| - 1]) + s[|s| - 1]
  }

  /** A byte string of `n` bytes denotes a number below 256^n. */
  lemma {:induction false} UnsignedBound(s: seq<Byte>)
    ensures Unsigned(s) < Power256(|s|)
  {
    if s != [] {
      UnsignedBound(s[..|s| - 1]);
    }
  }

  /** Reading back what was written gives the number, when it fits the width. */
  lemma {:induction false} BigEndianRoundTrip(v: nat, width: nat)
    requires v < Power256(width)
    ensures Unsigned(BigEndian(v, width)) == v
  {
    if width > 0 {
      BigEndianRoundTrip(v / 256, width - 1);
      var s := BigEndian(v, width);
      assert s[..|s| - 1] == BigEndian(v / 256, width - 1);
    }
  }

  lemma Product(d: int, m: int)
    requires m > 0
    ensures d >= 1 ==> d * m >= m
    ensures d <= -1 ==> d * m <= -m
  {
  }

  lemma Remainder(v: int, q: int, m: int, r: int)
    requires 0 <= r < m && v == q * m + r
    ensures v % m == r
  {
    var d := q - v / m;
    assert d * m == v % m - r;
    Product(d, m);
  }

  lemma LowBytes(v: int, m: int)
    requires m > 0
    ensures var low := v % (256 * m); low % 256 == v % 256 && low / 256 == (v / 256) % m
  {
    var low, q := v % (256 * m), v / (256 * m);
    assert v == q * (256 * m) + low;
    assert q * (256 * m) == 256 * (q * m);
    Remainder(v / 256, q, m, low / 256);
  }

  /** Masking a number to the width first changes none of its low bytes. */
  lemma {:induction false} MaskedBytes(v: int, width: nat)
    ensures BigEndian(v % Power256(width), width) == BigEndian(v, width)
    decreases width
  {
    if width > 0 {
      LowBytes(v, Power256(width - 1));
      MaskedBytes(v / 256, width - 1);
    }
  }

  lemma Powers()
    ensures Power256(1) == 0x100
    ensures Power256(2) == 0x1_0000
    ensures Power256(4) == 0x1_0000_0000
    ensures Power256(8) == 0x1_0000_0000_0000_0000
  {
    assert Power256(2) == 256 * Power256(1);
    assert Power256(3) == 256 * Power256(2);
    assert Power256(4) == 256 * Power256(3);
    assert Power256(5) == 256 * Power256(4);
    assert Power256(6) == 256 * Power256(5);
    assert Power256(7) == 256 * Power256(6);
    assert Power256(8) == 256 * Power256(7);
  }
}
