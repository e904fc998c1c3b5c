/** The C++ tokenizer (src/lexer.cc, src/lexer.h): one character of lookahead
    over the source text, the keyword, builtin and operator tables, and the
    global token fields the parser reads. */
module Lexer {
  import opened Wrappers
  import opened Text

  // Token kinds (src/lexer.h). A single character that belongs to no table
  // spelling is returned as its own character code.
  const TOKEN_EOF: int := -1
  const TOKEN_IDENT: int := -2
  const TOKEN_REAL: int := -3
  const TOKEN_DO: int := -4
  const TOKEN_UNOP: int := -5
  /** The header gives `if` the same code as `not`; `IfIsUnop` states the clash. */
  const TOKEN_IF: int := -5
  const TOKEN_ELIF: int := -6
  const TOKEN_ELSE: int := -7
  const TOKEN_WHILE: int := -8
  const TOKEN_DONE: int := -9
  const TOKEN_BUILTIN: int := -10
  const TOKEN_ASSIGN: int := -11
  const TOKEN_LOGIC: int := -12
  const TOKEN_ARITH: int := -13
  const TOKEN_COMPARE: int := -14
  const TOKEN_STREAM: int := -15
  /** `func` comes from an earlier lexer generation and has no code in
      src/lexer.h; it gets one that no other kind uses. */
  const TOKEN_FUNC: int := -16

  /** The keyword table `token_map`. */
  function Keyword(s: string): Option<int>
  {
    if s == "do" then Some(TOKEN_DO)
    else if s == "if" then Some(TOKEN_IF)
    else if s == "elif" then Some(TOKEN_ELIF)
    else if s == "else" then Some(TOKEN_ELSE)
    else if s == "done" then Some(TOKEN_DONE)
    else if s == "while" then Some(TOKEN_WHILE)
    else if s == "not" then Some(TOKEN_UNOP)
    else None
  }

  /** The builtin table `builtin_map`; every entry has kind TOKEN_BUILTIN. */
  predicate IsBuiltinName(s: string)
  {
    s == "map" || s == "fold" || s == "filter" || s == "zip" || s == "read" || s == "write" || s == "length"
  }

  /** The operator table `binop_map`: the kind of each spelling and its precedence. */
  function BinOp(s: string): Option<(int, int)>
  {
    if s == "=" then Some((TOKEN_ASSIGN, 2))
    else if s == "or" || s == "xor" then Some((TOKEN_LOGIC, 5))
    else if s == "and" then Some((TOKEN_LOGIC, 6))
    else if s == "==" || s == "!=" then Some((TOKEN_COMPARE, 9))
    else if s == "<" || s == ">" || s == "<=" || s == ">=" then Some((TOKEN_COMPARE, 10))
    else if s == "+" || s == "-" then Some((TOKEN_ARITH, 20))
    else if s == "*" || s == "/" then Some((TOKEN_ARITH, 40))
    else None
  }

  /** `ValidToken`: the keyword table first, then the builtin table, then the
      operator table. */
  function ValidToken(s: string): (r: Option<int>)
    ensures r.Some? ==> TOKEN_COMPARE <= r.value <= TOKEN_DO
  {
    if Keyword(s).Some? then Keyword(s)
    else if IsBuiltinName(s) then Some(TOKEN_BUILTIN)
    else if BinOp(s).Some? then Some(BinOp(s).value.0)
    else None
  }

  /** The precedence `BinOpPrecedence` finds for an operator spelling. */
  function Precedence(op: string): (p: Option<int>)
    ensures p.Some? <==> BinOp(op).Some?
    ensures p.Some? ==> op != "" && 2 <= p.value <= 40
  {
    if BinOp(op).Some? then Some(BinOp(op).value.1) else None
  }

  /** What one call of `GetToken` leaves in the global token fields. */
  datatype Lexeme = Lexeme(kind: int, ident: string, op: string, value: real, builtin: string)

  /** The outcome of reading one token: the lexeme and the text after it, or a
      failed `assert` on an operator run that is neither a table spelling nor
      one character. */
  datatype Scanned = Scanned(token: Lexeme, rest: string) | Aborted(run: string)

  const EndOfInput := Lexeme(TOKEN_EOF, "", "", 0.0, "")

  predicate IsWordChar(c: char) { IsAlnum(c) || c == '_' || c == '-' }
  predicate IsPunct(c: char) { !IsAlnum(c) && !IsSpace(c) }

  /** The text left once leading whitespace is skipped. */
  function SkipSpace(s: string): (t: string)
    ensures |t| <= |s| && t == s[|s| - |t|..]
    ensures t != [] ==> !IsSpace(t[0])
  {
    if s != [] && IsSpace(s[0]) then SkipSpace(s[1..]) else s
  }

  /** The number of leading characters that may continue an identifier. */
  function WordTail(s: string): (n: nat)
    ensures n <= |s|
  {
    if s != [] && IsWordChar(s[0]) then 1 + WordTail(s[1..]) else 0
  }

  /** The number of characters the real-literal loop takes after the first
      digit: digits, and one `.` unless a `.` was already taken. */
  function NumberTail(s: string, seenDot: bool): (n: nat)
    ensures n <= |s|
  {
    if s == [] then 0
    else if s[0] == '.' then (if seenDot then 0 else 1 + NumberTail(s[1..], true))
    else if IsDigit(s[0]) then 1 + NumberTail(s[1..], seenDot)
    else 0
  }

  /** `NumberTail` at position `k` of `t`, one character at a time. */
  lemma NumberStep(t: string, k: nat, seen: bool)
    requires k <= |t|
    ensures k == |t| ==> NumberTail(t[k..], seen) == 0
    ensures k < |t| && t[k] == '.' ==> NumberTail(t[k..], seen) == if seen then 0 else 1 + NumberTail(t[k + 1..], true)
    ensures k < |t| && t[k] != '.' && IsDigit(t[k]) ==> NumberTail(t[k..], seen) == 1 + NumberTail(t[k + 1..], seen)
    ensures k < |t| && t[k] != '.' && !IsDigit(t[k]) ==> NumberTail(t[k..], seen) == 0
  {
    if k < |t| {
      assert t[k..][1..] == t[k + 1..];
    }
  }

  /** The number of leading characters of an operator run. */
  function PunctRun(s: string): (n: nat)
    ensures n <= |s|
  {
    if s != [] && IsPunct(s[0]) then 1 + PunctRun(s[1..]) else 0
  }

  /** The text from the first newline on (empty when there is none). */
  function SkipLine(s: string): (t: string)
    ensures |t| <= |s| && t == s[|s| - |t|..]
    ensures t != [] ==> t[0] == '\n'
  {
    if s == [] || s[0] == '\n' then s else SkipLine(s[1..])
  }

  /** All digits of a real lexeme read as one natural number. */
  function Mantissa(w: string): nat
  {
    if w == [] then 0
    else if IsDigit(w[|w| - 1]) then 10 * Mantissa(w[..|w| - 1]) + (w[|w| - 1] as int - '0' as int)
    else Mantissa(w[..|w| - 1])
  }

  /** The number of characters after the `.` of a real lexeme. */
  function Places(w: string): nat
  {
    if w == [] || w[|w| - 1] == '.' || '.' !in w then 0 else 1 + Places(w[..|w| - 1])
  }

  /** The exact decimal value of a real lexeme, which `strtod` rounds to a double. */
  function NumberValue(w: string): real
  {
    Mantissa(w) as real / Pow10(Places(w)) as real
  }

  /** The lexeme of an alphabetic word. */
  function Word(w: string): (l: Lexeme)
    ensures l.kind == TOKEN_IDENT || TOKEN_COMPARE <= l.kind <= TOKEN_DO
    ensures l.op == ""
  {
    var k := ValidToken(w);
    if k.None? then Lexeme(TOKEN_IDENT, w, "", 0.0, "")
    else Lexeme(k.value, "", "", 0.0, if k.value == TOKEN_BUILTIN then w else "")
  }

  /** A word read from an alphabetic first character. */
  function ScanWord(t: string): (r: Scanned)
    requires t != [] && IsAlpha(t[0])
    ensures r.Scanned? && |r.rest| < |t| && r.token.kind != TOKEN_EOF
  {
    var n := 1 + WordTail(t[1..]);
    Scanned(Word(t[..n]), t[n..])
  }

  /** A real literal read from a digit. */
  function ScanNumber(t: string): (r: Scanned)
    requires t != [] && IsDigit(t[0])
    ensures r.Scanned? && |r.rest| < |t| && r.token.kind == TOKEN_REAL
  {
    var n := 1 + NumberTail(t[1..], false);
    Scanned(Lexeme(TOKEN_REAL, "", "", NumberValue(t[..n]), ""), t[n..])
  }

  /** An operator run: a table spelling, a single character, or a failed assertion. */
  function ScanRun(t: string): (r: Scanned)
    requires t != [] && IsPunct(t[0])
    ensures r.Scanned? ==> |r.rest| < |t| && r.token.kind != TOKEN_EOF
  {
    var n := 1 + PunctRun(t[1..]);
    var run := t[..n];
    var k := ValidToken(run);
    if k.Some? then Scanned(Lexeme(k.value, "", run, 0.0, ""), t[n..])
    else if n == 1 then Scanned(Lexeme(t[0] as int, "", "", 0.0, ""), t[n..])
    else Aborted(run)
  }

  /** One call of `GetToken` on the text `s` that starts at the lookahead character. */
  function Scan(s: string): (r: Scanned)
    ensures r.Scanned? ==> |r.rest| <= |s|
    ensures r.Scanned? && r.token.kind != TOKEN_EOF ==> |r.rest| < |s|
    ensures r.Scanned? && r.token.kind == TOKEN_EOF ==> r == Scanned(EndOfInput, [])
    decreases |s|, 2
  {
    ScanAt(SkipSpace(s))
  }

  /** One token read from text that does not start with whitespace. */
  function ScanAt(t: string): (r: Scanned)
    requires t == [] || !IsSpace(t[0])
    ensures r.Scanned? ==> |r.rest| <= |t|
    ensures r.Scanned? && r.token.kind != TOKEN_EOF ==> |r.rest| < |t|
    ensures r.Scanned? && r.token.kind == TOKEN_EOF ==> r == Scanned(EndOfInput, [])
    decreases |t|, 1
  {
    if t == [] then Scanned(EndOfInput, [])
    else if IsAlpha(t[0]) then ScanWord(t)
    else if IsDigit(t[0]) then ScanNumber(t)
    else if t[0] == '#' then ScanComment(t)
    else ScanRun(t)
  }

  /** A comment: the rest of the line and its newline are skipped and the next
      token is read; a comment that runs to the end of input yields TOKEN_EOF. */
  function ScanComment(t: string): (r: Scanned)
    requires t != [] && t[0] == '#'
    ensures r.Scanned? ==> |r.rest| < |t|
    ensures r.Scanned? && r.token.kind == TOKEN_EOF ==> r == Scanned(EndOfInput, [])
    decreases |t|, 0
  {
    var u := SkipLine(t[1..]);
    if u == [] then Scanned(EndOfInput, []) else Scan(u[1..])
  }

  /** The tokens of a whole text up to end of input, or the run that fails the
      operator assertion. */
  function Tokenize(s: string): (r: Result<seq<Lexeme>, string>)
    ensures r.Ok? ==> forall i :: 0 <= i < |r.value| ==> r.value[i].kind != TOKEN_EOF
    decreases |s|
  {
    match Scan(s)
    case Aborted(run) => Err(run)
    case Scanned(token, rest) =>
      if token.kind == TOKEN_EOF then Ok([])
      else
        match Tokenize(rest)
        case Err(run) => Err(run)
        case Ok(more) => Ok([token] + more)
  }

  /** What `GetToken` returns: a token kind, or the failed `assert`. */
  datatype Got = Token(kind: int) | AssertionFailed

  /** The lexer's global state: the lookahead character, the unread input, and
      the fields that describe the current token. */
  class Lexer {
    /** The lookahead character; `None` once `get` has reported end of input. */
    var lastch: Option<char>
    /** The unread part of the input file. */
    var rest: string
    var currentToken: int
    var identStr: string
    var opStr: string
    var realValue: real
    /** The builtin name the parser reads as `builtin_str`. */
    var builtinStr: string

    predicate Valid()
      reads this`lastch, this`rest
    {
      lastch.None? ==> rest == []
    }

    /** The lookahead character followed by the unread input. */
    function Stream(): (s: string)
      reads this`lastch, this`rest
      requires Valid()
      ensures lastch.None? <==> s == []
      ensures lastch.Some? ==> s[0] == lastch.value && s[1..] == rest
    {
      if lastch.None? then [] else [lastch.value] + rest
    }

    /** The fields the parser reads for the current token. */
    function Current(): Lexeme
      reads this
    {
      Lexeme(currentToken, identStr, opStr, realValue, builtinStr)
    }

    /** The state before `Initialize`: the lookahead is a blank. */
    constructor (input: string)
      ensures Valid() && Stream() == [' '] + input
      ensures Current() == EndOfInput
    {
      lastch := Some(' ');
      rest := input;
      currentToken := TOKEN_EOF;
      identStr := "";
      opStr := "";
      realValue := 0.0;
      builtinStr := "";
    }

    /** `engine::file->get()` into the lookahead. */
    method Get()
      modifies this`lastch, this`rest
      requires Valid()
      ensures Valid()
      ensures Stream() == if old(Stream()) == [] then [] else old(Stream())[1..]
    {
      if rest == [] {
        lastch := None;
      } else {
        lastch := Some(rest[0]);
        rest := rest[1..];
      }
    }

    method SkipWhitespace()
      modifies this`lastch, this`rest
      requires Valid()
      ensures Valid() && Stream() == SkipSpace(old(Stream()))
    {
      while lastch.Some? && IsSpace(lastch.value)
        invariant Valid() && SkipSpace(Stream()) == SkipSpace(old(Stream()))
        decreases |Stream()|
      {
        Get();
      }
    }

    /** One step of a lexeme loop: append the lookahead to `w` and read the next character. */
    method Take(ghost t: string, w: string) returns (w': string)
      modifies this`lastch, this`rest
      requires Valid() && |w| < |t| && w == t[..|w|] && Stream() == t[|w|..]
      ensures Valid() && |w'| == |w| + 1 && w' == t[..|w'|] && Stream() == t[|w'|..]
      ensures lastch.Some? <==> |w'| < |t|
      ensures lastch.Some? ==> lastch.value == t[|w'|]
    {
      w' := w + [lastch.value];
      Get();
    }

    /** The identifier loop, from an alphabetic lookahead. */
    method ReadWord() returns (w: string)
      modifies this`lastch, this`rest
      requires Valid() && Stream() != [] && IsAlpha(Stream()[0])
      ensures Valid()
      ensures var n := 1 + WordTail(old(Stream())[1..]); w == old(Stream())[..n] && Stream() == old(Stream())[n..]
    {
      ghost var t := Stream();
      w := [];
      while true
        invariant Valid() && |w| < |t| && w == t[..|w|] && Stream() == t[|w|..]
        invariant |w| + WordTail(t[|w| + 1..]) == WordTail(t[1..])
        decreases |t| - |w|
      {
        w := Take(t, w);
        if !(lastch.Some? && IsWordChar(lastch.value)) {
          assert WordTail(t[|w|..]) == 0;
          break;
        }
        assert WordTail(t[|w|..]) == 1 + WordTail(t[|w| + 1..]);
      }
    }

    /** The real-literal loop, from a digit lookahead. */
    method ReadNumber() returns (w: string)
      modifies this`lastch, this`rest
      requires Valid() && Stream() != [] && IsDigit(Stream()[0])
      ensures Valid()
      ensures var n := 1 + NumberTail(old(Stream())[1..], false); w == old(Stream())[..n] && Stream() == old(Stream())[n..]
    {
      ghost var t := Stream();
      var hasDecimal := false;
      w := [];
      while true
        invariant Valid() && |w| < |t| && w == t[..|w|] && Stream() == t[|w|..]
        invariant |w| + NumberTail(t[|w| + 1..], hasDecimal) == NumberTail(t[1..], false)
        decreases |t| - |w|
      {
        w := Take(t, w);
        NumberStep(t, |w|, hasDecimal);
        if lastch == Some('.') {
          if !hasDecimal {
            hasDecimal := true;
          } else {
            break;
          }
        }
        if !(lastch.Some? && (IsDigit(lastch.value) || lastch.value == '.')) {
          break;
        }
      }
    }

    /** The comment loop, from a `#` lookahead: everything up to the newline. */
    method SkipComment()
      modifies this`lastch, this`rest
      requires Valid() && Stream() != [] && Stream()[0] == '#'
      ensures Valid() && Stream() == SkipLine(old(Stream())[1..])
    {
      Get();
      while lastch.Some? && lastch != Some('\n')
        invariant Valid() && SkipLine(Stream()) == SkipLine(old(Stream())[1..])
        decreases |Stream()|
      {
        Get();
      }
    }

    /** The operator loop: the longest run of characters that are neither
        alphanumeric nor whitespace. */
    method ReadRun() returns (s: string)
      modifies this`lastch, this`rest
      requires Valid()
      ensures Valid()
      ensures var n := PunctRun(old(Stream())); s == old(Stream())[..n] && Stream() == old(Stream())[n..]
    {
      ghost var t := Stream();
      s := [];
      while lastch.Some? && !IsAlnum(lastch.value) && !IsSpace(lastch.value)
        invariant Valid() && |s| <= |t| && s == t[..|s|] && Stream() == t[|s|..]
        invariant |s| + PunctRun(t[|s|..]) == PunctRun(t)
        decreases |t| - |s|
      {
        assert PunctRun(t[|s|..]) == 1 + PunctRun(t[|s| + 1..]);
        s := Take(t, s);
      }
    }

    /** The token fields agree with `r`, and the stream is what follows it. */
    predicate Yields(got: Got, r: Scanned)
      reads this
      requires Valid()
    {
      match r
      case Aborted(_) => got == AssertionFailed
      case Scanned(token, after) =>
        got == Token(token.kind) && Stream() == after
        && Lexeme(token.kind, identStr, opStr, realValue, builtinStr) == token
    }

    /** The token fields as `GetToken` leaves them after clearing. */
    predicate Cleared()
      reads this`identStr, this`opStr, this`realValue, this`builtinStr
    {
      identStr == "" && opStr == "" && realValue == 0.0 && builtinStr == ""
    }

    /** A word: a table kind, or an identifier with `ident_str` set. */
    method LexWord() returns (got: Got)
      modifies this`lastch, this`rest, this`identStr, this`builtinStr
      requires Valid() && Cleared() && Stream() != [] && IsAlpha(Stream()[0])
      ensures Valid() && Yields(got, ScanWord(old(Stream())))
    {
      var w := ReadWord();
      var k := ValidToken(w);
      if k.Some? {
        if k.value == TOKEN_BUILTIN {
          builtinStr := w;
        }
        return Token(k.value);
      }
      identStr := w;
      return Token(TOKEN_IDENT);
    }

    /** A real literal, with `real_value` set. */
    method LexNumber() returns (got: Got)
      modifies this`lastch, this`rest, this`realValue
      requires Valid() && Cleared() && Stream() != [] && IsDigit(Stream()[0])
      ensures Valid() && Yields(got, ScanNumber(old(Stream())))
    {
      var w := ReadNumber();
      realValue := NumberValue(w);
      return Token(TOKEN_REAL);
    }

    /** An operator run: a table spelling with `op_str` set, or a single
        character, or else the assertion fails. */
    method LexRun() returns (got: Got)
      modifies this`lastch, this`rest, this`opStr
      requires Valid() && Cleared() && Stream() != [] && IsPunct(Stream()[0])
      ensures Valid() && Yields(got, ScanRun(old(Stream())))
    {
      ghost var t := Stream();
      var s := ReadRun();
      assert PunctRun(t) == 1 + PunctRun(t[1..]);
      var k := ValidToken(s);
      if k.Some? {
        opStr := s;
        return Token(k.value);
      }
      if |s| != 1 {
        return AssertionFailed;
      }
      return Token(s[0] as int);
    }

    /** A comment: skip the line and its newline, then read the next token. */
    method LexComment() returns (got: Got)
      modifies this
      requires Valid() && Cleared() && Stream() != [] && Stream()[0] == '#'
      ensures Valid() && Yields(got, ScanComment(old(Stream())))
      decreases |Stream()|, 0
    {
      SkipComment();
      if lastch.Some? {
        Get();
        got := GetToken();
        return;
      }
      return Token(TOKEN_EOF);
    }

    /** `GetToken`: clear the token fields, skip whitespace, then read a word, a
        real literal, a comment or an operator run. */
    method GetToken() returns (got: Got)
      modifies this
      requires Valid()
      ensures Valid() && Yields(got, Scan(old(Stream())))
      decreases |Stream()|, 2
    {
      identStr, opStr, realValue, builtinStr := "", "", 0.0, "";
      SkipWhitespace();
      got := LexAt();
    }

    /** The dispatch of `GetToken` on the first character after whitespace. */
    method LexAt() returns (got: Got)
      modifies this
      requires Valid() && Cleared() && (Stream() == [] || !IsSpace(Stream()[0]))
      ensures Valid() && Yields(got, ScanAt(old(Stream())))
      decreases |Stream()|, 1
    {
      if lastch.Some? && IsAlpha(lastch.value) {
        got := LexWord();
        return;
      }
      if lastch.Some? && IsDigit(lastch.value) {
        got := LexNumber();
        return;
      }
      if lastch == Some('#') {
        got := LexComment();
        return;
      }
      if lastch.None? {
        return Token(TOKEN_EOF);
      }
      // The lookahead is not alphabetic here, so the source's final branch
      // (a lone non-operator character) cannot be reached.
      got := LexRun();
    }

    /** `NextToken`: read a token and store its kind as the current token. */
    method NextToken() returns (got: Got)
      modifies this
      requires Valid()
      ensures Valid()
      ensures match Scan(old(Stream()))
        case Aborted(_) => got == AssertionFailed
        case Scanned(token, after) => got == Token(token.kind) && Current() == token && Stream() == after
    {
      got := GetToken();
      if got.Token? {
        currentToken := got.kind;
      }
    }

    /** `BinOpPrecedence`: the precedence of the current operator spelling. */
    function BinOpPrecedence(): (p: Option<int>)
      reads this
      ensures p.Some? ==> opStr != ""
      ensures p == Precedence(opStr)
    {
      Precedence(opStr)
    }
  }
}
