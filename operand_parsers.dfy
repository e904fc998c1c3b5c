/** Operands of the assembly language (src/asm/operand_parsers.rs): integer
    and real literals after `#`, label references, registers and quoted
    strings. */
module OperandParsers {
  import opened Wrappers
  import opened Bytes
  import opened Text
  import opened Float
  import opened Nom
  import opened AsmToken
  import LabelParsers
  import RegisterParsers

  /** The start shared by the two literal rules, `tag!("#") >> opt!(tag!("-"))`
      under `ws!`: whether a minus sign was read, and the input after it. */
  function Literal(s: string): (r: Option<(bool, string)>)
    ensures r.Some? ==> r.value.1 == [] || !IsBlank(r.value.1[0])
  {
    match Tag(Sp(s), "#")
    case None => None
    case Some(afterHash) =>
      var t := Sp(afterHash);
      match Tag(t, "-")
      case Some(afterSign) => Some((true, Sp(afterSign)))
      case None => Some((false, t))
  }

  /** The number the digits denote, negated after a minus sign. */
  function Signed(negative: bool, digits: string): (v: int)
    requires AllDigits(digits)
    ensures v == 0 || (v < 0 <==> negative)
  {
    var n: int := DecimalValue(digits);
    if negative then -n else n
  }

  /** `integer_operand`: `#`, an optional `-` and digits, read as an `i32`;
      the `unwrap` of that conversion panics when the number does not fit. */
  function IntegerOperand(s: string): (r: Parse<Token>)
    ensures r.Parsed? ==> r.value.Integer? && IsI32(r.value.intValue)
  {
    match Literal(s)
    case None => Rejected
    case Some((negative, t)) =>
      match Run(t, Digit)
      case Parsed(digits, rest) => AsI32(Signed(negative, digits), rest)
      case _ => Rejected
  }

  /** `parse::<i32>().unwrap()` on a literal's number, and the blanks after it. */
  function AsI32(v: int, rest: string): (r: Parse<Token>)
    ensures r.Parsed? <==> IsI32(v)
    ensures r.Parsed? ==> r.value == Integer(v)
  {
    if IsI32(v) then Parsed(Integer(v), Sp(rest)) else Panicked
  }

  /** The value of `left.right` written in decimal. */
  function DecimalReal(left: string, right: string): (x: real)
    requires AllDigits(left) && AllDigits(right)
    ensures x >= 0.0
  {
    DecimalValue(left) as real + DecimalValue(right) as real / Pow10(|right|) as real
  }

  /** The fraction after the point of a real literal: `tag!(".") >> digit`. */
  function Fraction(t: string): (r: Parse<string>)
    ensures r.Parsed? ==> r.value != [] && AllDigits(r.value)
    ensures !r.Panicked?
  {
    match Tag(Sp(t), ".")
    case None => Rejected
    case Some(afterPoint) =>
      match Run(Sp(afterPoint), Digit)
      case Parsed(right, rest) => Parsed(right, rest)
      case _ => Rejected
  }

  /** `real_operand`: `#`, an optional `-`, digits, `.` and digits, read as
      an `f64`. */
  function RealOperand(s: string): (r: Parse<Token>)
    ensures r.Parsed? ==> r.value.Real? && r.value.realValue.Fin?
    ensures !r.Panicked?
  {
    match Literal(s)
    case None => Rejected
    case Some((negative, t)) => RealNumber(negative, t)
  }

  /** `digit >> tag!(".") >> digit` after the sign of a real literal. */
  function RealNumber(negative: bool, t: string): (r: Parse<Token>)
    ensures r.Parsed? ==> r.value.Real? && r.value.realValue.Fin?
    ensures !r.Panicked?
  {
    match Run(t, Digit)
    case Parsed(left, afterLeft) =>
      (match Fraction(afterLeft)
       case Parsed(right, rest) =>
         var x := DecimalReal(left, right);
         Parsed(Real(Fin(if negative then -x else x)), Sp(rest))
       case _ => Rejected)
    case _ => Rejected
  }

  /** `string`: text between two single quotes, without `ws!`. */
  function StringOperand(s: string): (r: Parse<Token>)
    ensures r.Parsed? ==> r.value.DoString? && '\'' !in r.value.text
    ensures r.Parsed? ==> s == "'" + r.value.text + "'" + r.rest
    ensures !r.Panicked?
  {
    match Tag(s, "'")
    case None => Rejected
    case Some(afterQuote) =>
      match IndexOf(afterQuote, '\'')
      case None => Rejected
      case Some(i) =>
        assert s == "'" + afterQuote[..i] + "'" + afterQuote[i + 1..] by {
          assert afterQuote == afterQuote[..i] + [afterQuote[i]] + afterQuote[i + 1..];
        }
        Parsed(DoString(afterQuote[..i]), afterQuote[i + 1..])
  }

  /** `operand`: the first of a real, an integer, a label reference, a
      register and a string that accepts the input. */
  function Operand(s: string): (r: Parse<Token>)
    ensures r.Parsed? ==>
      (r.value.Real? || r.value.Integer? || r.value.LabelRef? ||
       r.value.IntRegister? || r.value.RealRegister? || r.value.DoString?)
  {
    Alt(RealOperand(s), Alt(IntegerOperand(s), Alt(LabelParsers.LabelReference(s),
      Alt(RegisterParsers.Register(s), StringOperand(s)))))
  }

  /** `#`, an optional minus sign and a non-blank rest. */
  lemma LiteralOf(negative: bool, t: string)
    requires t != [] && !IsBlank(t[0]) && t[0] != '-'
    ensures Literal("#" + (if negative then "-" else "") + t) == Some((negative, t))
  {
    if negative {
      NegativeLiteral(t);
    } else {
      assert "#" + "" + t == "#" + t;
      PositiveLiteral(t);
    }
  }

  lemma NegativeLiteral(t: string)
    requires t != [] && !IsBlank(t[0])
    ensures Literal("#" + "-" + t) == Some((true, t))
  {
    var u := "-" + t;
    assert "#" + "-" + t == "#" + u;
    AfterHash(u);
    assert Sp(u) == u by { SpNoBlank(u); }
    assert Tag(u, "-") == Some(t) by { TagOf("-", t); }
    assert Sp(t) == t by { SpNoBlank(t); }
  }

  /** A `#` at the head of the input is read and the blanks after it skipped. */
  lemma AfterHash(u: string)
    ensures Literal("#" + u) == (match Tag(Sp(u), "-")
                                 case Some(afterSign) => Some((true, Sp(afterSign)))
                                 case None => Some((false, Sp(u))))
  {
    var s := "#" + u;
    assert Sp(s) == s by { SpNoBlank(s); }
    assert Tag(s, "#") == Some(u) by { TagOf("#", u); }
  }

  lemma PositiveLiteral(t: string)
    requires t != [] && !IsBlank(t[0]) && t[0] != '-'
    ensures Literal("#" + t) == Some((false, t))
  {
    AfterHash(t);
    assert Sp(t) == t by { SpNoBlank(t); }
    assert Tag(t, "-") == None by { TagMismatch(t, "-"); }
  }

  /** `#`, an optional `-` and digits read as that number, the whole input
      being consumed; a number outside the `i32` range panics. */
  lemma IntegerOperandAccepts(negative: bool, digits: string)
    requires digits != [] && AllDigits(digits)
    ensures var v := Signed(negative, digits);
      IntegerOperand("#" + (if negative then "-" else "") + digits) ==
        (if IsI32(v) then Parsed(Integer(v), "") else Panicked)
  {
    IntegerOperandReads(negative, digits);
    AsI32AtEnd(Signed(negative, digits));
  }

  lemma IntegerOperandReads(negative: bool, digits: string)
    requires digits != [] && AllDigits(digits)
    ensures IntegerOperand("#" + (if negative then "-" else "") + digits) ==
      AsI32(Signed(negative, digits), "")
  {
    LiteralOf(negative, digits);
    RunOf(digits, "", Digit);
    assert digits + "" == digits;
  }

  lemma AsI32AtEnd(v: int)
    ensures AsI32(v, "") == (if IsI32(v) then Parsed(Integer(v), "") else Panicked)
  {
    SpNoBlank("");
  }

  /** Digits without the `#` are not an integer operand. */
  lemma IntegerOperandNeedsHash(digits: string)
    requires digits != [] && AllDigits(digits)
    ensures IntegerOperand(digits) == Rejected
  {
    assert IsDigit(digits[0]);
    SpNoBlank(digits);
    TagMismatch(digits, "#");
  }

  /** `#`, an optional `-`, digits, `.` and digits read as that decimal
      number, the whole input being consumed. */
  lemma RealOperandAccepts(negative: bool, left: string, right: string)
    requires left != [] && AllDigits(left) && right != [] && AllDigits(right)
    ensures var x := DecimalReal(left, right);
      RealOperand("#" + (if negative then "-" else "") + left + "." + right) ==
        Parsed(Real(Fin(if negative then -x else x)), "")
  {
    RealOperandReads(negative, left, right);
    SpNoBlank("");
  }

  lemma RealOperandReads(negative: bool, left: string, right: string)
    requires left != [] && AllDigits(left) && right != [] && AllDigits(right)
    ensures var x := DecimalReal(left, right);
      RealOperand("#" + (if negative then "-" else "") + left + "." + right) ==
        Parsed(Real(Fin(if negative then -x else x)), Sp(""))
  {
    var sign := if negative then "-" else "";
    var t := left + "." + right;
    assert "#" + sign + left + "." + right == "#" + sign + t;
    assert t[0] == left[0];
    LiteralOf(negative, t);
    RealNumberOf(negative, left, right);
  }

  lemma RealNumberOf(negative: bool, left: string, right: string)
    requires left != [] && AllDigits(left) && right != [] && AllDigits(right)
    ensures var x := DecimalReal(left, right);
      RealNumber(negative, left + "." + right) ==
        Parsed(Real(Fin(if negative then -x else x)), Sp(""))
  {
    var t := "." + right;
    assert left + t == left + "." + right;
    LeftDigits(left, t);
    FractionOf(right);
  }

  /** The digits before the point are read up to the point. */
  lemma LeftDigits(left: string, t: string)
    requires left != [] && AllDigits(left) && t != [] && t[0] == '.'
    ensures Run(left + t, Digit) == Parsed(left, t)
  {
    assert forall i :: 0 <= i < |left| ==> In(left[i], Digit);
    assert !In(t[0], Digit);
    RunOf(left, t, Digit);
  }

  /** A point followed by digits is a fraction, the whole input being consumed. */
  lemma FractionOf(right: string)
    requires right != [] && AllDigits(right)
    ensures Fraction("." + right) == Parsed(right, "")
  {
    var t := "." + right;
    SpNoBlank(t);
    TagOf(".", right);
    DigitRun(right);
  }

  /** A run of digits alone is read whole by `sp` and `digit`. */
  lemma DigitRun(right: string)
    requires right != [] && AllDigits(right)
    ensures Run(Sp(right), Digit) == Parsed(right, "")
  {
    assert In(right[0], Digit);
    SpNoBlank(right);
    assert forall i :: 0 <= i < |right| ==> In(right[i], Digit);
    RunOf(right, "", Digit);
    assert right + "" == right;
  }

  /** Digits without the `#` are not a real operand. */
  lemma RealOperandNeedsHash(left: string, right: string)
    requires left != [] && AllDigits(left)
    ensures RealOperand(left + "." + right) == Rejected
  {
    var s := left + "." + right;
    assert s[0] == left[0] && IsDigit(left[0]);
    SpNoBlank(s);
    TagMismatch(s, "#");
  }

  /** `#` and digits with no fraction are an integer operand, not a real one. */
  lemma WholeNumberIsInteger(digits: string)
    requires digits != [] && AllDigits(digits) && DecimalValue(digits) <= I32_MAX
    ensures Operand("#" + digits) == Parsed(Integer(DecimalValue(digits)), "")
  {
    WholeNumberIsNotReal(digits);
    IntegerOperandAccepts(false, digits);
    assert "#" + "" + digits == "#" + digits;
  }

  lemma WholeNumberIsNotReal(digits: string)
    requires digits != [] && AllDigits(digits)
    ensures RealOperand("#" + digits) == Rejected
  {
    LiteralOf(false, digits);
    assert "#" + "" + digits == "#" + digits;
    RealNumberNeedsPoint(digits);
  }

  lemma RealNumberNeedsPoint(digits: string)
    requires digits != [] && AllDigits(digits)
    ensures RealNumber(false, digits) == Rejected
  {
    RunOf(digits, "", Digit);
    assert digits + "" == digits;
    NoFraction();
  }

  lemma NoFraction()
    ensures Fraction("") == Rejected
  {
    SpNoBlank("");
  }

  /** Text with no single quote between two single quotes is a string
      operand; without its closing quote it is not. */
  lemma StringOperandAccepts(text: string, rest: string)
    requires '\'' !in text
    ensures StringOperand("'" + text + "'" + rest) == Parsed(DoString(text), rest)
    ensures StringOperand("'" + text) == Rejected
  {
    var s := "'" + text + "'" + rest;
    assert s[..1] == "'" && s[1..] == text + "'" + rest;
    var after := text + "'" + rest;
    assert after[|text|] == '\'';
    assert forall i :: 0 <= i < |text| ==> after[i] == text[i];
    assert IndexOf(after, '\'') == Some(|text|);
    assert after[..|text|] == text && after[|text| + 1..] == rest;
    var u := "'" + text;
    assert u[..1] == "'" && u[1..] == text;
    assert IndexOf(text, '\'') == None;
  }

  /** `#3.145` is the real 3.145. */
  lemma RealExample(s: string)
    requires s == "#3.145"
    ensures Operand(s) == Parsed(Real(Fin(3.145)), "")
  {
    var left, right := "3", "145";
    RealExampleValue(left, right);
    RealExampleText(s, left, right);
    RealOperandAccepts(false, left, right);
    RealFirst(s);
  }

  /** A real literal is never read as anything else. */
  lemma RealFirst(s: string)
    requires RealOperand(s).Parsed?
    ensures Operand(s) == RealOperand(s)
  {
  }

  lemma RealExampleText(s: string, left: string, right: string)
    requires s == "#3.145" && left == "3" && right == "145"
    ensures "#" + (if false then "-" else "") + left + "." + right == s
  {
  }

  lemma RealExampleValue(left: string, right: string)
    requires left == "3" && right == "145"
    ensures AllDigits(left) && AllDigits(right) && DecimalReal(left, right) == 3.145
  {
    assert DecimalValue(left) == 3;
    assert DecimalValue(right) == 145 by {
      assert right[..2] == "14" && "14"[..1] == "1" && "1"[..0] == "";
    }
    assert Pow10(|right|) == 1000;
  }

  /** `#4` is the integer 4. */
  lemma IntegerExample(s: string)
    requires s == "#4"
    ensures Operand(s) == Parsed(Integer(4), "")
  {
    var digits := "4";
    assert DecimalValue(digits) == 4;
    WholeNumberIsInteger(digits);
    assert "#" + digits == s;
  }

  /** `@test` refers to the label `test`. */
  lemma LabelExample()
    ensures Operand("@test") == Parsed(LabelRef("test"), "")
  {
    LabelNamed("test");
    LabelParsers.LabelReferenceAccepts("test");
    assert "@" + "test" == "@test";
    NotALiteral("@test");
  }

  /** A bare word is no operand. */
  lemma BareWordExample()
    ensures Operand("test") == Rejected
  {
    LabelNamed("test");
    LabelParsers.LabelReferenceNeedsAt("test");
    NotALiteral("test");
    RegisterParsers.RegisterRejects("test", '$', "x");
  }

  /** "test" is made of letters. */
  lemma LabelNamed(name: string)
    requires name == "test"
    ensures name != [] && forall i :: 0 <= i < |name| ==> In(name[i], Alnum)
  {
  }

  /** Input that does not start with `#` or a quote is neither a literal nor a string. */
  lemma NotALiteral(s: string)
    requires s != [] && !IsBlank(s[0]) && s[0] != '#' && s[0] != '\''
    ensures RealOperand(s) == Rejected && IntegerOperand(s) == Rejected
    ensures StringOperand(s) == Rejected
  {
    SpNoBlank(s);
    assert Tag(s, "#") == None;
    assert Tag(s, "'") == None;
  }
}
