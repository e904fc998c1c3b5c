/** `str::as_bytes`: the UTF-8 encoding of a string, which the assembler
    copies into the read-only section for every `.str` directive. */
module Utf8 {
  import opened Bytes

  /** The UTF-8 encoding of one Unicode scalar value: one byte below 0x80,
      then two, three or four bytes with a length-marking lead byte and
      continuation bytes `10xxxxxx`. */
  function EncodeChar(c: char): (s: seq<u8>)
    ensures 1 <= |s| <= 4
    ensures |s| == 1 <==> c as int < 0x80
    ensures |s| == 1 ==> s[0] == c as int
    ensures forall k :: 1 <= k < |s| ==> 0x80 <= s[k] < 0xC0
    ensures |s| > 1 ==> s[0] >= 0xC0
  {
    var n := c as int;
    if n < 0x80 then [n]
    else if n < 0x800 then [0xC0 + n / 0x40, 0x80 + n % 0x40]
    else if n < 0x1_0000 then [0xE0 + n / 0x1000, 0x80 + (n / 0x40) % 0x40, 0x80 + n % 0x40]
    else [0xF0 + n / 0x4_0000, 0x80 + (n / 0x1000) % 0x40, 0x80 + (n / 0x40) % 0x40, 0x80 + n % 0x40]
  }

  /** The encoding of a string: its characters' encodings in order. */
  function Encode(s: string): (b: seq<u8>)
    ensures |s| <= |b| <= 4 * |s|
  {
    if s == [] then [] else Encode(s[..|s| - 1]) + EncodeChar(s[|s| - 1])
  }

  predicate IsAscii(s: string) { forall i :: 0 <= i < |s| ==> s[i] as int < 0x80 }

  /** An ASCII string is encoded byte for byte. */
  lemma {:induction false} EncodeAscii(s: string)
    requires IsAscii(s)
    ensures |Encode(s)| == |s|
    ensures forall i :: 0 <= i < |s| ==> Encode(s)[i] == s[i] as int
  {
    if s != [] {
      EncodeAscii(s[..|s| - 1]);
    }
  }

  /** No encoding holds a zero byte unless the string holds the NUL character,
      so the terminator the assembler appends marks the string's end. */
  lemma {:induction false} EncodeHasNoZero(s: string)
    requires forall i :: 0 <= i < |s| ==> s[i] != '\0'
    ensures forall k :: 0 <= k < |Encode(s)| ==> Encode(s)[k] != 0
  {
    if s != [] {
      EncodeHasNoZero(s[..|s| - 1]);
      var c := s[|s| - 1];
      assert c as int != 0;
    }
  }

  /** A continuation byte, `10xxxxxx`. */
  predicate IsContinuation(b: u8) { 0x80 <= b < 0xC0 }

  /** The length of the well-formed UTF-8 sequence `b` starts with, by the
      table of well-formed byte sequences in section 3.9 of the Unicode
      Standard (Table 3-7), or 0 when `b` starts with an ill-formed one. */
  function SequenceLength(b: seq<u8>): (n: nat)
    requires b != []
    ensures n <= |b| && n <= 4
  {
    var b0 := b[0];
    if b0 < 0x80 then 1
    else if |b| < 2 then 0
    else if 0xC2 <= b0 <= 0xDF then (if IsContinuation(b[1]) then 2 else 0)
    else if |b| < 3 || !IsContinuation(b[2]) then 0
    else if b0 == 0xE0 then (if 0xA0 <= b[1] < 0xC0 then 3 else 0)
    else if 0xE1 <= b0 <= 0xEC || b0 == 0xEE || b0 == 0xEF then (if IsContinuation(b[1]) then 3 else 0)
    else if b0 == 0xED then (if 0x80 <= b[1] < 0xA0 then 3 else 0)
    else if |b| < 4 || !IsContinuation(b[3]) then 0
    else if b0 == 0xF0 then (if 0x90 <= b[1] < 0xC0 then 4 else 0)
    else if 0xF1 <= b0 <= 0xF3 then (if IsContinuation(b[1]) then 4 else 0)
    else if b0 == 0xF4 then (if 0x80 <= b[1] < 0x90 then 4 else 0)
    else 0
  }

  /** `str::from_utf8` succeeds: the bytes split into well-formed sequences. */
  predicate Valid(b: seq<u8>)
    decreases |b|
  {
    b == [] || (SequenceLength(b) > 0 && Valid(b[SequenceLength(b)..]))
  }

  /** One character's encoding is a single well-formed sequence. */
  lemma EncodeCharWellFormed(c: char)
    ensures SequenceLength(EncodeChar(c)) == |EncodeChar(c)|
  {
    var n := c as int;
    assert n < 0xD800 || 0xE000 <= n <= 0x10_FFFF;
  }

  /** Well-formed byte strings concatenate to a well-formed byte string. */
  lemma {:induction false} ValidConcat(a: seq<u8>, b: seq<u8>)
    requires Valid(a) && Valid(b)
    ensures Valid(a + b)
    decreases |a|
  {
    if a != [] {
      var n := SequenceLength(a);
      assert SequenceLength(a + b) == n by {
        assert (a + b)[..n] == a[..n];
        SameLead(a, a + b, n);
      }
      ValidConcat(a[n..], b);
      assert (a + b)[n..] == a[n..] + b;
      ValidStep(a + b, n);
    } else {
      assert a + b == b;
    }
  }

  /** A well-formed sequence followed by valid bytes is valid. */
  lemma ValidStep(c: seq<u8>, n: nat)
    requires c != [] && SequenceLength(c) == n && n > 0 && Valid(c[n..])
    ensures Valid(c)
  {
  }

  /** The well-formed sequence at the front is decided by its own bytes only. */
  lemma SameLead(a: seq<u8>, c: seq<u8>, n: nat)
    requires a != [] && n == SequenceLength(a) && n > 0 && n <= |c| && c[..n] == a[..n]
    ensures SequenceLength(c) == n
  {
    assert c[0] == a[0];
    assert n >= 2 ==> c[1] == a[1];
    assert n >= 3 ==> c[2] == a[2];
    assert n >= 4 ==> c[3] == a[3];
  }

  /** Every string's encoding is valid UTF-8, so `from_utf8` accepts what
      `as_bytes` produced. */
  lemma {:induction false} EncodeValid(s: string)
    ensures Valid(Encode(s))
  {
    if s != [] {
      EncodeValid(s[..|s| - 1]);
      var e := EncodeChar(s[|s| - 1]);
      EncodeCharWellFormed(s[|s| - 1]);
      assert e[|e|..] == [];
      assert Valid(e);
      ValidConcat(Encode(s[..|s| - 1]), e);
    }
  }
}
