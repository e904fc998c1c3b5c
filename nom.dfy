/** The parts of the `nom` parser-combinator library the model relies on: its
    error value, the outcomes of running a parser on a complete input, and the
    character-level primitives the assembly grammar is built from. */
module Nom {
  import opened Text
  import opened Wrappers

  /** `nom::error::ErrorKind`, reduced to the kind the toolchain reports. */
  datatype ErrorKind = IsNot

  /** `nom::error::Error`: the input that was rejected and why. */
  datatype Error = Error(input: string, kind: ErrorKind)

  /** Running a parser on a complete input: it recognises a prefix and yields a
      value with the remaining input, or rejects the input, or panics (an
      `unwrap` on an out-of-range number inside a rule). */
  datatype Parse<+T> = Parsed(value: T, rest: string) | Rejected | Panicked

  /** The separators `ws!` skips: space, tab, carriage return, newline. */
  predicate IsBlank(c: char) { c == ' ' || c == '\t' || c == '\r' || c == '\n' }

  /** The character classes the grammar's primitives recognise runs of:
      `sp`'s separators, `digit` and `alphanumeric`. */
  datatype Class = Blank | Digit | Alnum

  predicate In(c: char, k: Class) {
    match k
    case Blank => IsBlank(c)
    case Digit => IsDigit(c)
    case Alnum => IsAlnum(c)
  }

  /** Length of the longest prefix of `s` whose characters are all in class `k`. */
  function Span(s: string, k: Class): (n: nat)
    ensures n <= |s|
    ensures forall i :: 0 <= i < n ==> In(s[i], k)
    ensures n < |s| ==> !In(s[n], k)
  {
    if s == [] || !In(s[0], k) then 0 else 1 + Span(s[1..], k)
  }

  /** The span of a string whose characters all satisfy `p`, followed by one
      that starts with a character that does not, is that string. */
  lemma {:induction false} SpanOfConcat(a: string, b: string, k: Class)
    requires forall i :: 0 <= i < |a| ==> In(a[i], k)
    requires b == [] || !In(b[0], k)
    ensures Span(a + b, k) == |a|
  {
    if a != [] {
      assert (a + b)[1..] == a[1..] + b;
      SpanOfConcat(a[1..], b, k);
    }
  }

  /** The separator `ws!` applies around every element of a sequence: any run
      of blanks is skipped. */
  function Sp(s: string): string {
    s[Span(s, Blank)..]
  }

  /** An input that does not start with a blank is left alone by the separator. */
  lemma SpNoBlank(s: string)
    requires s == [] || !IsBlank(s[0])
    ensures Sp(s) == s
  {
  }

  /** `tag!(t)`: the input after the literal `t`, if it starts with it. */
  function Tag(s: string, t: string): (r: Option<string>)
    ensures r.Some? <==> |t| <= |s| && s[..|t|] == t
    ensures r.Some? ==> r.value == s[|t|..]
  {
    if |t| <= |s| && s[..|t|] == t then Some(s[|t|..]) else None
  }

  /** A literal is found at the head of any input it starts. */
  lemma TagOf(t: string, rest: string)
    ensures Tag(t + rest, t) == Some(rest)
  {
    assert (t + rest)[..|t|] == t && (t + rest)[|t|..] == rest;
  }

  /** An input whose first character differs from the literal's does not start with it. */
  lemma TagMismatch(s: string, t: string)
    requires t != [] && (s == [] || s[0] != t[0])
    ensures Tag(s, t) == None
  {
    if |t| <= |s| {
      assert s[..|t|][0] != t[0];
    }
  }

  /** Index of the first occurrence of `c` in `s`, for `take_until!`. */
  function IndexOf(s: string, c: char): (r: Option<nat>)
    ensures r.Some? ==> r.value < |s| && s[r.value] == c && forall i :: 0 <= i < r.value ==> s[i] != c
    ensures r.None? ==> forall i :: 0 <= i < |s| ==> s[i] != c
  {
    if s == [] then None
    else if s[0] == c then Some(0)
    else match IndexOf(s[1..], c)
      case Some(i) => Some(i + 1)
      case None => None
  }

  /** `digit` / `alphanumeric`: a non-empty run of characters of class `k`,
      and what follows it. */
  function Run(t: string, k: Class): (r: Parse<string>)
    ensures r.Parsed? ==> r.value != [] && t == r.value + r.rest
    ensures r.Parsed? ==> forall i :: 0 <= i < |r.value| ==> In(r.value[i], k)
    ensures r.Parsed? ==> r.rest == [] || !In(r.rest[0], k)
    ensures r.Rejected? <==> t == [] || !In(t[0], k)
    ensures !r.Panicked?
  {
    var n := Span(t, k);
    if n == 0 then Rejected
    else
      assert t == t[..n] + t[n..];
      Parsed(t[..n], t[n..])
  }

  /** A run is read whole when nothing of its class follows it. */
  lemma RunOf(run: string, rest: string, k: Class)
    requires run != [] && forall i :: 0 <= i < |run| ==> In(run[i], k)
    requires rest == [] || !In(rest[0], k)
    ensures Run(run + rest, k) == Parsed(run, rest)
  {
    SpanOfConcat(run, rest, k);
    assert (run + rest)[..|run|] == run && (run + rest)[|run|..] == rest;
  }

  /** `alt!(p | q)` on the outcomes of `p` and `q`: `q` is tried only when `p`
      rejects its input; a panic in `p` is not recovered from. */
  function Alt<T>(p: Parse<T>, q: Parse<T>): (r: Parse<T>)
    ensures r.Parsed? ==> r == p || r == q
    ensures p.Parsed? ==> r == p
    ensures r.Rejected? <==> p.Rejected? && q.Rejected?
  {
    if p.Rejected? then q else p
  }
}
