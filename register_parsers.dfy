/** Register operands of the assembly language (src/asm/register_parsers.rs):
    `$n` names integer register n and `%n` real register n. */
module RegisterParsers {
  import opened Wrappers
  import opened Text
  import opened Nom
  import opened AsmToken

  /** `digit` followed by `parse::<u8>().unwrap()`: a run of digits read as an
      index, which panics above 255. */
  function Index(t: string): (r: Parse<nat>)
    ensures r.Parsed? ==> r.value < 256
  {
    var n := Span(t, Digit);
    if n == 0 then Rejected
    else
      var idx := DecimalValue(t[..n]);
      if idx > 255 then Panicked else Parsed(idx, t[n..])
  }

  /** `ws!(tag!(prefix) >> digit)` with the digits read by `Index`. */
  function PrefixedIndex(s: string, prefix: char): (r: Parse<nat>)
    ensures r.Parsed? ==> r.value < 256
  {
    match Tag(Sp(s), [prefix])
    case None => Rejected
    case Some(afterPrefix) =>
      match Index(Sp(afterPrefix))
      case Parsed(idx, rest) => Parsed(idx, Sp(rest))
      case Rejected => Rejected
      case Panicked => Panicked
  }

  /** `iregister`. */
  function IRegister(s: string): (r: Parse<Token>)
    ensures r.Parsed? ==> r.value.IntRegister?
  {
    match PrefixedIndex(s, '$')
    case Parsed(idx, rest) => Parsed(IntRegister(idx), rest)
    case Rejected => Rejected
    case Panicked => Panicked
  }

  /** `rregister`. */
  function RRegister(s: string): (r: Parse<Token>)
    ensures r.Parsed? ==> r.value.RealRegister?
  {
    match PrefixedIndex(s, '%')
    case Parsed(idx, rest) => Parsed(RealRegister(idx), rest)
    case Rejected => Rejected
    case Panicked => Panicked
  }

  /** `register`: an integer register, else a real register. */
  function Register(s: string): (r: Parse<Token>)
    ensures r.Parsed? ==> r.value.IntRegister? || r.value.RealRegister?
  {
    match IRegister(s)
    case Rejected => RRegister(s)
    case other => other
  }

  /** A string of digits is read whole. */
  lemma IndexAccepts(digits: string)
    requires digits != [] && AllDigits(digits)
    ensures Index(digits) ==
      (if DecimalValue(digits) <= 255 then Parsed(DecimalValue(digits), "") else Panicked)
  {
    SpanOfConcat(digits, "", Digit);
    assert digits + "" == digits;
    assert digits[..|digits|] == digits && digits[|digits|..] == "";
  }

  /** One prefix followed by digits reads the digits' value, consuming everything. */
  lemma PrefixedIndexAccepts(prefix: char, digits: string)
    requires digits != [] && AllDigits(digits) && !IsBlank(prefix)
    ensures PrefixedIndex([prefix] + digits, prefix) ==
      (if DecimalValue(digits) <= 255 then Parsed(DecimalValue(digits), "") else Panicked)
  {
    var s := [prefix] + digits;
    SpNoBlank(s);
    assert s[..1] == [prefix] && s[1..] == digits;
    assert Tag(s, [prefix]) == Some(digits);
    SpNoBlank(digits);
    SpNoBlank("");
    IndexAccepts(digits);
  }

  /** `$` or `%` followed by digits names that register, the whole input being
      consumed; an index above 255 panics. */
  lemma RegisterAccepts(digits: string)
    requires digits != [] && AllDigits(digits)
    ensures var v := DecimalValue(digits);
      && Register("$" + digits) == (if v <= 255 then Parsed(IntRegister(v), "") else Panicked)
      && Register("%" + digits) == (if v <= 255 then Parsed(RealRegister(v), "") else Panicked)
  {
    IntRegisterAccepts(digits);
    RealRegisterAccepts(digits);
  }

  lemma IntRegisterAccepts(digits: string)
    requires digits != [] && AllDigits(digits)
    ensures var v := DecimalValue(digits);
      Register("$" + digits) == (if v <= 255 then Parsed(IntRegister(v), "") else Panicked)
  {
    assert "$" + digits == ['$'] + digits;
    PrefixedIndexAccepts('$', digits);
  }

  lemma RealRegisterAccepts(digits: string)
    requires digits != [] && AllDigits(digits)
    ensures var v := DecimalValue(digits);
      Register("%" + digits) == (if v <= 255 then Parsed(RealRegister(v), "") else Panicked)
  {
    var s := "%" + digits;
    assert s == ['%'] + digits;
    NoPrefix(s, '$');
    assert IRegister(s) == Rejected;
    PrefixedIndexAccepts('%', digits);
  }

  /** Input that does not start with `$` or `%`, or whose prefix is not
      followed by a digit, is rejected. */
  lemma RegisterRejects(s: string, prefix: char, t: string)
    requires s != [] && s[0] != '$' && s[0] != '%' && !IsBlank(s[0])
    requires (prefix == '$' || prefix == '%') && t != [] && !IsDigit(t[0]) && !IsBlank(t[0])
    ensures Register(s) == Rejected
    ensures Register([prefix] + t) == Rejected
  {
    assert PrefixedIndex(s, '$') == Rejected by { NoPrefix(s, '$'); }
    assert PrefixedIndex(s, '%') == Rejected by { NoPrefix(s, '%'); }
    var u := [prefix] + t;
    assert PrefixedIndex(u, prefix) == Rejected by { NoDigit(prefix, t); }
    var other := if prefix == '$' then '%' else '$';
    assert PrefixedIndex(u, other) == Rejected by { NoPrefix(u, other); }
  }

  /** Input that starts with another character than the prefix is rejected. */
  lemma NoPrefix(s: string, prefix: char)
    requires s != [] && s[0] != prefix && !IsBlank(s[0])
    ensures PrefixedIndex(s, prefix) == Rejected
  {
    SpNoBlank(s);
    TagMismatch(s, [prefix]);
  }

  /** A prefix followed by a character that is no digit is rejected. */
  lemma NoDigit(prefix: char, t: string)
    requires !IsBlank(prefix) && t != [] && !IsDigit(t[0]) && !IsBlank(t[0])
    ensures PrefixedIndex([prefix] + t, prefix) == Rejected
  {
    var u := [prefix] + t;
    SpNoBlank(u);
    TagOf([prefix], t);
    SpNoBlank(t);
    assert Index(t) == Rejected;
  }
}
