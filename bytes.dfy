/** Big-endian byte strings and 32-bit two's-complement integers, as used by the
    bytecode header, the operand encoding and the VM's operand decoding. */
module Bytes {

  /** A Rust `u8`. */
  type u8 = x: int | 0 <= x < 256

  /** 256^n, the number of values `n` bytes can hold. */
  function Pow256(n: nat): (r: nat)
    ensures r >= 1
  {
    if n == 0 then 1 else 256 * Pow256(n - 1)
  }

  const I32_MIN: int := -0x8000_0000
  const I32_MAX: int := 0x7FFF_FFFF

  /** Values representable by a Rust `i32`. */
  predicate IsI32(x: int) { I32_MIN <= x <= I32_MAX }

  /** The unsigned value of `s` read most significant byte first. */
  function BigEndian(s: seq<u8>): (n: nat)
    ensures n < Pow256(|s|)
  {
    if s == [] then 0
    else BigEndian(s[..|s| - 1]) * 256 + s[|s| - 1]
  }

  /** `n` written in `width` bytes, most significant first. */
  function ToBigEndian(n: nat, width: nat): (s: seq<u8>)
    requires n < Pow256(width)
    ensures |s| == width
  {
    if width == 0 then []
    else ToBigEndian(n / 256, width - 1) + [n % 256]
  }

  /** Writing a number and reading it back gives the number. */
  lemma {:induction false} BigEndianOfToBigEndian(n: nat, width: nat)
    requires n < Pow256(width)
    ensures BigEndian(ToBigEndian(n, width)) == n
  {
    if width > 0 {
      var s := ToBigEndian(n, width);
      assert s[..|s| - 1] == ToBigEndian(n / 256, width - 1);
      BigEndianOfToBigEndian(n / 256, width - 1);
      assert BigEndian(s) == (n / 256) * 256 + n % 256;
    }
  }

  /** Reading bytes and writing the value back in as many bytes gives the bytes. */
  lemma {:induction false} ToBigEndianOfBigEndian(s: seq<u8>)
    ensures ToBigEndian(BigEndian(s), |s|) == s
  {
    if s != [] {
      var init, last := s[..|s| - 1], s[|s| - 1];
      var n := BigEndian(s);
      assert n == BigEndian(init) * 256 + last;
      SplitLowByte(BigEndian(init), last);
      ToBigEndianOfBigEndian(init);
      assert ToBigEndian(n, |s|) == ToBigEndian(BigEndian(init), |init|) + [last];
      assert init + [last] == s;
    }
  }

  /** The low byte and the rest of `q * 256 + r`. */
  lemma SplitLowByte(q: nat, r: u8)
    ensures (q * 256 + r) / 256 == q && (q * 256 + r) % 256 == r
  {
  }

  /** `i32::to_be_bytes`: the two's-complement encoding of `x` in 4 bytes. */
  function I32ToBytes(x: int): (s: seq<u8>)
    requires IsI32(x)
    ensures |s| == 4
  {
    assert Pow256(4) == 0x1_0000_0000;
    ToBigEndian(if x < 0 then x + 0x1_0000_0000 else x, 4)
  }

  /** The `i32` whose two's-complement encoding is the 4 bytes `s`. */
  function BytesToI32(s: seq<u8>): (x: int)
    requires |s| == 4
    ensures IsI32(x)
  {
    assert Pow256(4) == 0x1_0000_0000;
    var u := BigEndian(s);
    if u >= 0x8000_0000 then u - 0x1_0000_0000 else u
  }

  /** The encoding is invertible in both directions. */
  lemma I32RoundTrip(x: int, s: seq<u8>)
    requires IsI32(x) && |s| == 4
    ensures BytesToI32(I32ToBytes(x)) == x
    ensures I32ToBytes(BytesToI32(s)) == s
  {
    assert Pow256(4) == 0x1_0000_0000;
    BigEndianOfToBigEndian(if x < 0 then x + 0x1_0000_0000 else x, 4);
    ToBigEndianOfBigEndian(s);
  }
}
