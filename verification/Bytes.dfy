/** Bytes, fixed-width unsigned integers and their big-endian representation. */
module Bytes {
  type byte = x: int | 0 <= x < 256
  type Bytes = seq<byte>
  type uint16 = x: int | 0 <= x < 0x1_0000
  type uint32 = x: int | 0 <= x < 0x1_0000_0000
  type uint64 = x: int | 0 <= x < 0x1_0000_0000_0000_0000

  /** 256 to the power n: the number of values n bytes can hold. */
  function Pow256(n: nat): (p: nat)
    ensures p >= 1
  {
    if n == 0 then 1 else 256 * Pow256(n - 1)
  }

  lemma Widths()
    ensures Pow256(1) == 0x100 && Pow256(2) == 0x1_0000
    ensures Pow256(4) == 0x1_0000_0000
    ensures Pow256(8) == 0x1_0000_0000_0000_0000
  {
    assert Pow256(3) == 0x100_0000;
    assert Pow256(4) == 256 * Pow256(3);
    assert Pow256(5) == 256 * Pow256(4);
    assert Pow256(6) == 256 * Pow256(5);
    assert Pow256(7) == 256 * Pow256(6);
  }

  /** The `width` low-order bytes of `value`, most significant first. */
  function BigEndian(value: nat, width: nat): (b: Bytes)
    ensures |b| == width
  {
    if width == 0 then [] else BigEndian(value / 256, width - 1) + [value % 256]
  }

  function FromBigEndian(b: Bytes): (value: nat)
    ensures value < Pow256(|b|)
  {
    if b == [] then 0 else FromBigEndian(b[..|b| - 1]) * 256 + b[|b| - 1]
  }

  /** Reading back what was written gives the value, when it fits the width. */
  lemma {:induction false} ReadAfterWrite(value: nat, width: nat)
    requires value < Pow256(width)
    ensures FromBigEndian(BigEndian(value, width)) == value
  {
    if width > 0 {
      ReadAfterWrite(value / 256, width - 1);
      assert BigEndian(value, width)[..width - 1] == BigEndian(value / 256, width - 1);
    }
  }

  /** Writing back what was read gives the bytes. */
  lemma {:induction false} WriteAfterRead(b: Bytes)
    ensures BigEndian(FromBigEndian(b), |b|) == b
  {
    hide Pow256;
    if b != [] {
      WriteAfterRead(b[..|b| - 1]);
      assert b == b[..|b| - 1] + [b[|b| - 1]];
    }
  }

  /** Byte i of the representation is what shifting right by the lower bytes and masking leaves. */
  lemma {:induction false} BigEndianAt(value: nat, width: nat, i: nat)
    requires i < width
    ensures BigEndian(value, width)[i] == value / Pow256(width - 1 - i) % 256
  {
    if i < width - 1 {
      BigEndianAt(value / 256, width - 1, i);
      var p := Pow256(width - 2 - i);
      assert Pow256(width - 1 - i) == 256 * p;
      DivDiv(value, p);
    }
  }

  lemma DivDiv(v: nat, p: nat)
    requires p >= 1
    ensures v / 256 / p == v / (256 * p)
  {
    var q, r := v / 256 / p, v / 256 % p;
    assert v / 256 == q * p + r;
    assert v == 256 * (q * p + r) + v % 256;
    var low := 256 * r + v % 256;
    assert 0 <= low < 256 * p;
    assert v == q * (256 * p) + low;
    QuotientUnique(v, 256 * p, q, low);
  }

  lemma QuotientUnique(v: nat, d: nat, q: nat, r: nat)
    requires d >= 1 && r < d && v == q * d + r
    ensures v / d == q
  {
    var e := v / d - q;
    assert e * d == r - v % d;
  }

  /** What a socket write of n bytes returns: as many as the socket accepts, or -1 if it fails. */
  function BytesTaken(accepts: int, n: nat): (taken: int)
    ensures taken <= n
  {
    if accepts < 0 then -1 else if accepts < n then accepts else n
  }
}
