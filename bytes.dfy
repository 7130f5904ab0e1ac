/**
 * Fixed-width unsigned and signed integers of the Java class file format
 * (u1, u2, u4 in the Java Virtual Machine Specification, chapter 4), the
 * big-endian byte order in which the format stores them, and the
 * two's-complement reinterpretations the decoder applies to
 * CONSTANT_Integer and CONSTANT_Long payloads.
 */
module Bytes {

  type u8 = x: int | 0 <= x < 0x100
  type u16 = x: int | 0 <= x < 0x1_0000
  type u32 = x: int | 0 <= x < 0x1_0000_0000
  type u64 = x: int | 0 <= x < 0x1_0000_0000_0000_0000
  type i32 = x: int | -0x8000_0000 <= x < 0x8000_0000
  type i64 = x: int | -0x8000_0000_0000_0000 <= x < 0x8000_0000_0000_0000

  /** 256 to the power n: the number of distinct values of n bytes. */
  function Pow256(n: nat): (r: nat)
    ensures r >= 1
  {
    if n == 0 then 1 else 256 * Pow256(n - 1)
  }

  /** The unsigned value of a byte string read most-significant byte first. */
  function BigEndian(s: seq<u8>): (v: nat)
    ensures v < Pow256(|s|)
  {
    if |s| == 0 then 0 else BigEndian(s[..|s| - 1]) * 256 + s[|s| - 1]
  }

  /** The n-byte big-endian encoding of v: the inverse of BigEndian. */
  function EncodeBigEndian(v: nat, n: nat): (s: seq<u8>)
    requires v < Pow256(n)
    ensures |s| == n
  {
    if n == 0 then [] else EncodeBigEndian(v / 256, n - 1) + [v % 256]
  }

  lemma {:induction false} BigEndianOfEncode(v: nat, n: nat)
    requires v < Pow256(n)
    ensures BigEndian(EncodeBigEndian(v, n)) == v
  {
    if n > 0 {
      var s := EncodeBigEndian(v / 256, n - 1);
      assert (s + [v % 256])[..n - 1] == s;
      BigEndianOfEncode(v / 256, n - 1);
    }
  }

  lemma {:induction false} EncodeOfBigEndian(s: seq<u8>)
    ensures EncodeBigEndian(BigEndian(s), |s|) == s
  {
    if |s| > 0 {
      var init := s[..|s| - 1];
      EncodeOfBigEndian(init);
      assert BigEndian(s) / 256 == BigEndian(init);
      assert BigEndian(s) % 256 == s[|s| - 1];
      assert init + [s[|s| - 1]] == s;
    }
  }

  /** The u2 stored most significant byte first at d[p], d[p + 1]: b0 * 2^8 + b1. */
  function BigEndian16(d: seq<u8>, p: nat): u16
    requires p + 2 <= |d|
  {
    (d[p] as int) * 0x100 + d[p + 1]
  }

  /** The u4 stored most significant byte first at d[p..p + 4]: b0 * 2^24 + b1 * 2^16 + b2 * 2^8 + b3. */
  function BigEndian32(d: seq<u8>, p: nat): u32
    requires p + 4 <= |d|
  {
    (d[p] as int) * 0x100_0000 + (d[p + 1] as int) * 0x1_0000 + (d[p + 2] as int) * 0x100 + d[p + 3]
  }

  /** Two bytes read big-endian are b0 * 2^8 + b1. */
  lemma BigEndian2(s: seq<u8>)
    requires |s| == 2
    ensures BigEndian(s) == (s[0] as int) * 0x100 + s[1]
  {
    assert s[..1][..0] == [];
  }

  /** Four bytes read big-endian are b0 * 2^24 + b1 * 2^16 + b2 * 2^8 + b3. */
  lemma BigEndian4(s: seq<u8>)
    requires |s| == 4
    ensures BigEndian(s) == (s[0] as int) * 0x100_0000 + (s[1] as int) * 0x1_0000 + (s[2] as int) * 0x100 + s[3]
  {
    assert s[..3][..2] == s[..2];
    BigEndian2(s[..2]);
    assert BigEndian(s[..3]) == BigEndian(s[..2]) * 0x100 + s[2];
    assert BigEndian(s) == BigEndian(s[..3]) * 0x100 + s[3];
  }

  /** BigEndian16 is the two-byte case of BigEndian. */
  lemma BigEndian16Is(d: seq<u8>, p: nat)
    requires p + 2 <= |d|
    ensures BigEndian16(d, p) == BigEndian(d[p..p + 2])
  {
    BigEndian2(d[p..p + 2]);
  }

  /** BigEndian32 is the four-byte case of BigEndian. */
  lemma BigEndian32Is(d: seq<u8>, p: nat)
    requires p + 4 <= |d|
    ensures BigEndian32(d, p) == BigEndian(d[p..p + 4])
  {
    BigEndian4(d[p..p + 4]);
  }

  /** Reading a concatenation big-endian shifts the first part left by the second's width. */
  lemma {:induction false} BigEndianConcat(a: seq<u8>, b: seq<u8>)
    ensures BigEndian(a + b) == BigEndian(a) * Pow256(|b|) + BigEndian(b)
  {
    if |b| > 0 {
      var b' := b[..|b| - 1];
      var z := b[|b| - 1];
      assert (a + b)[..|a + b| - 1] == a + b';
      assert BigEndian(a + b) == BigEndian(a + b') * 256 + z;
      BigEndianConcat(a, b');
      ShiftByte(BigEndian(a), Pow256(|b'|), BigEndian(b'), z);
    } else {
      assert a + b == a;
    }
  }

  lemma ShiftByte(x: int, p: int, y: int, z: int)
    ensures (x * p + y) * 256 + z == x * (256 * p) + (y * 256 + z)
  {
  }

  /** The signed 32-bit integer whose two's-complement bit pattern is v (Rust's `as i32`). */
  function Signed32(v: u32): (x: i32)
    ensures x % 0x1_0000_0000 == v
    ensures (x >= 0) == (v < 0x8000_0000)
  {
    if v < 0x8000_0000 then v else v - 0x1_0000_0000
  }

  /** The signed 64-bit integer whose two's-complement bit pattern is v (Rust's `as i64`). */
  function Signed64(v: u64): (x: i64)
    ensures x % 0x1_0000_0000_0000_0000 == v
    ensures (x >= 0) == (v < 0x8000_0000_0000_0000)
  {
    if v < 0x8000_0000_0000_0000 then v else v - 0x1_0000_0000_0000_0000
  }

  /** The 32-bit pattern of a signed integer: the inverse of Signed32. */
  function Unsigned32(x: i32): (v: u32)
    ensures Signed32(v) == x
  {
    if x >= 0 then x else x + 0x1_0000_0000
  }

  /** The 64-bit pattern of a signed integer: the inverse of Signed64. */
  function Unsigned64(x: i64): (v: u64)
    ensures Signed64(v) == x
  {
    if x >= 0 then x else x + 0x1_0000_0000_0000_0000
  }

  /**
   * Text of a byte string, one character per byte. It stands in for the
   * lossy UTF-8 decoding of constant-pool Utf8 entries: the two agree on
   * ASCII, which is all that attribute-name dispatch compares against.
   */
  function Text(bs: seq<u8>): (s: string)
    ensures |s| == |bs|
    ensures forall i | 0 <= i < |bs| :: s[i] as int == bs[i]
  {
    seq(|bs|, i requires 0 <= i < |bs| => bs[i] as char)
  }

  /** The bytes of a string whose characters are all below 256 (the inverse of Text). */
  function Latin1(s: string): (bs: seq<u8>)
    requires forall i | 0 <= i < |s| :: s[i] as int < 0x100
    ensures Text(bs) == s
  {
    seq(|s|, i requires 0 <= i < |s| => s[i] as int)
  }

  lemma Latin1OfText(bs: seq<u8>)
    ensures Latin1(Text(bs)) == bs
  {
  }
}
