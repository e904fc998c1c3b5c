/** What the tokenizer promises about the tokens it reads (src/lexer.cc). */
module LexerProperties {
  import opened Wrappers
  import opened Text
  import opened Lexer

  /** The token fields carry a payload only for the kind that owns it. */
  predicate FieldsAgree(l: Lexeme)
  {
    && (l.ident != "" ==> l.kind == TOKEN_IDENT)
    && (l.builtin != "" ==> l.kind == TOKEN_BUILTIN && IsBuiltinName(l.builtin))
    && (l.kind != TOKEN_REAL ==> l.value == 0.0)
    && (l.op != "" ==> BinOp(l.op).Some? && l.kind == BinOp(l.op).value.0)
    && (l.kind == TOKEN_LOGIC ==> l.op == "")
  }

  /** The word rules: keywords are looked up first, then builtins, then operators. */
  lemma TableOrder(s: string)
    ensures Keyword(s).Some? ==> ValidToken(s) == Keyword(s)
    ensures Keyword(s).None? && IsBuiltinName(s) ==> ValidToken(s) == Some(TOKEN_BUILTIN)
    ensures Keyword(s).None? && !IsBuiltinName(s) ==> ValidToken(s) == (if BinOp(s).Some? then Some(BinOp(s).value.0) else None)
  {
  }

  /** `if` and `not` read as the same kind, so the parser cannot tell them apart. */
  lemma IfIsUnop()
    ensures ValidToken("if") == ValidToken("not") == Some(TOKEN_IF) == Some(TOKEN_UNOP)
  {
  }

  /** A punctuation run has no letter in it, so it never spells a word operator. */
  lemma RunIsNoWord(t: string)
    requires t != [] && IsPunct(t[0])
    ensures var run := t[..1 + PunctRun(t[1..])];
      Keyword(run).None? && !IsBuiltinName(run) && (BinOp(run).Some? ==> BinOp(run).value.0 != TOKEN_LOGIC)
  {
    var run := t[..1 + PunctRun(t[1..])];
    assert run[0] == t[0];
    assert !IsAlpha(run[0]);
  }

  /** The payload rules of `FieldsAgree`, and no precedence for a word operator. */
  predicate GoodToken(r: Scanned)
  {
    r.Scanned? ==> FieldsAgree(r.token) && (r.token.kind == TOKEN_LOGIC ==> Precedence(r.token.op).None?)
  }

  /** A word carries an identifier, a builtin name, or nothing. */
  lemma WordFields(t: string)
    requires t != [] && IsAlpha(t[0])
    ensures GoodToken(ScanWord(t))
  {
    TableOrder(t[..1 + WordTail(t[1..])]);
  }

  /** An operator run carries a table spelling, or nothing. */
  lemma RunFields(t: string)
    requires t != [] && IsPunct(t[0])
    ensures GoodToken(ScanRun(t))
  {
    RunIsNoWord(t);
    TableOrder(t[..1 + PunctRun(t[1..])]);
  }

  /** Every token leaves an identifier only on TOKEN_IDENT, a builtin name only
      on TOKEN_BUILTIN, a value only on TOKEN_REAL, and an operator spelling
      only for a table operator. Word operators (`and`, `or`, `xor`, `not`)
      leave the spelling empty, so `BinOpPrecedence` finds nothing for them. */
  lemma {:induction false} ScanFields(s: string)
    ensures GoodToken(Scan(s))
    decreases |s|, 1
  {
    var t := SkipSpace(s);
    if t != [] {
      if IsAlpha(t[0]) {
        WordFields(t);
      } else if IsDigit(t[0]) {
      } else if t[0] == '#' {
        CommentFields(t);
      } else {
        RunFields(t);
      }
    }
  }

  /** `ScanFields` for the token read after a comment. */
  lemma {:induction false} CommentFields(t: string)
    requires t != [] && t[0] == '#'
    ensures GoodToken(ScanComment(t))
    decreases |t|, 0
  {
    var u := SkipLine(t[1..]);
    if u != [] {
      ScanFields(u[1..]);
    }
  }

  /** A failed operator assertion: a run of two or more characters that
      matches no table spelling. */
  predicate AbortsOnlyLongRuns(r: Scanned)
  {
    r.Aborted? ==> |r.run| >= 2 && ValidToken(r.run).None?
  }

  /** An operator run that fails the assertion is at least two characters
      long and matches no table spelling. */
  lemma {:induction false} AbortedRun(s: string)
    ensures AbortsOnlyLongRuns(Scan(s))
    decreases |s|, 1
  {
    var t := SkipSpace(s);
    if t != [] && !IsAlpha(t[0]) && !IsDigit(t[0]) && t[0] == '#' {
      CommentAborted(t);
    }
  }

  /** `AbortedRun` for the token read after a comment. */
  lemma {:induction false} CommentAborted(t: string)
    requires t != [] && t[0] == '#'
    ensures AbortsOnlyLongRuns(ScanComment(t))
    decreases |t|, 0
  {
    var u := SkipLine(t[1..]);
    if u != [] {
      AbortedRun(u[1..]);
    }
  }

  /** The real-literal loop takes digits and at most one `.` (beyond `seen`),
      and stops at a non-digit, or at a `.` once one has been taken. */
  lemma {:induction false} NumberTailShape(u: string, seen: bool)
    ensures var m := NumberTail(u, seen);
      && (forall i :: 0 <= i < m ==> IsDigit(u[i]) || u[i] == '.')
      && multiset(u[..m])['.'] <= (if seen then 0 else 1)
      && (m < |u| ==> !IsDigit(u[m]) && (u[m] == '.' ==> seen || '.' in u[..m]))
  {
    if u != [] && (IsDigit(u[0]) || (u[0] == '.' && !seen)) {
      var seen' := seen || u[0] == '.';
      NumberTailShape(u[1..], seen');
      var m := NumberTail(u, seen);
      assert u[..m] == [u[0]] + u[1..][..m - 1];
    }
  }

  /** A real literal holds digits and at most one `.`; a second `.` ends it
      and is left as the next character. */
  lemma NumberLexeme(t: string)
    requires t != [] && IsDigit(t[0])
    ensures var n := 1 + NumberTail(t[1..], false);
      && (forall i :: 0 <= i < n ==> IsDigit(t[i]) || t[i] == '.')
      && multiset(t[..n])['.'] <= 1
      && (n < |t| ==> !IsDigit(t[n]) && (t[n] == '.' ==> '.' in t[..n]))
  {
    NumberTailShape(t[1..], false);
    var n := 1 + NumberTail(t[1..], false);
    assert t[..n] == [t[0]] + t[1..][..n - 1];
  }

  /** The text a comment skips: no character before position `j` is a newline,
      so the line search from `k` goes on from `j`. */
  lemma {:induction false} SkipsToNewline(s: string, k: nat, j: nat)
    requires k <= j <= |s|
    requires forall i :: k <= i < j ==> s[i] != '\n'
    ensures SkipLine(s[k..]) == SkipLine(s[j..])
    decreases j - k
  {
    if k < j {
      assert s[k..][1..] == s[k + 1..];
      SkipsToNewline(s, k + 1, j);
    }
  }

  /** `Scan` on text that starts at a non-space character dispatches on it. */
  lemma ScanDispatch(t: string)
    requires t != [] && !IsSpace(t[0])
    ensures IsAlpha(t[0]) ==> Scan(t) == ScanWord(t)
    ensures !IsAlpha(t[0]) && IsDigit(t[0]) ==> Scan(t) == ScanNumber(t)
    ensures !IsAlnum(t[0]) && t[0] == '#' ==> Scan(t) == ScanComment(t)
    ensures !IsAlnum(t[0]) && t[0] != '#' ==> Scan(t) == ScanRun(t)
  {
    assert SkipSpace(t) == t;
  }

  /** A `#` comment and its newline are skipped and the next token is read. */
  lemma CommentSkipped(line: string, u: string, t: string)
    requires '\n' !in line && t == "#" + line + "\n" + u
    ensures Scan(t) == Scan(u)
  {
    var j := 1 + |line|;
    assert forall i :: 1 <= i < j ==> t[i] != '\n' by {
      assert forall i :: 1 <= i < j ==> t[i] == line[i - 1];
    }
    assert t[j] == '\n' && t[j + 1..] == u;
    CommentThen(t, j);
  }

  /** A comment whose first newline is at `j` is followed by the token after `j`. */
  lemma CommentThen(t: string, j: nat)
    requires t != [] && t[0] == '#' && j < |t| && t[j] == '\n'
    requires forall i :: 1 <= i < j ==> t[i] != '\n'
    ensures Scan(t) == Scan(t[j + 1..])
  {
    assert Scan(t) == ScanComment(t) by {
      ScanDispatch(t);
    }
    assert SkipLine(t[1..]) == t[j..] by {
      SkipsToNewline(t, 1, j);
      assert SkipLine(t[j..]) == t[j..];
    }
    assert t[j..][1..] == t[j + 1..];
  }

  /** A comment that runs to the end of input yields TOKEN_EOF. */
  lemma CommentAtEnd(line: string, t: string)
    requires '\n' !in line && t == "#" + line
    ensures Scan(t) == Scanned(EndOfInput, [])
  {
    ScanDispatch(t);
    assert SkipLine(t[1..]) == [] by {
      assert forall i :: 1 <= i < |t| ==> t[i] == line[i - 1];
      SkipsToNewline(t, 1, |t|);
    }
  }

  /** `-` continues a word, so `a-b` is one identifier. */
  lemma DashInWord(t: string)
    requires t == "a-b"
    ensures Scan(t) == Scanned(Lexeme(TOKEN_IDENT, "a-b", "", 0.0, ""), [])
  {
    ScanDispatch(t);
    assert WordTail(t[1..]) == 2 by {
      assert t[1..][1..][1..] == [];
    }
    assert t[..3] == t && t[3..] == [];
    assert ValidToken(t).None?;
  }

  /** A second `.` ends the literal: `1.2.3` reads 1.2 and leaves `.3`. */
  lemma SecondDotEndsReal(t: string)
    requires t == "1.2.3"
    ensures Scan(t) == Scanned(Lexeme(TOKEN_REAL, "", "", 1.2, ""), ".3")
  {
    ScanDispatch(t);
    assert NumberTail(t[1..], false) == 2 by {
      NumberStep(t, 1, false);
      NumberStep(t, 2, true);
      NumberStep(t, 3, true);
    }
    assert t[3..] == ".3";
    OnePointTwo(t[..3]);
  }

  lemma OnePointTwo(w: string)
    requires w == "1.2"
    ensures NumberValue(w) == 1.2
  {
    assert Mantissa(w[..2][..1][..0]) == 0;
    assert Mantissa(w[..2][..1]) == 1;
    assert Mantissa(w[..2]) == 1;
    assert Mantissa(w) == 12;
    assert Places(w[..2]) == 0;
    assert Places(w) == 1;
  }

  /** Two closing parentheses form one run that is not a table spelling, so the
      single-character assertion fails. */
  lemma DoubleParenAborts(t: string)
    requires t == "))"
    ensures Scan(t) == Aborted("))")
  {
    ScanDispatch(t);
    assert PunctRun(t[1..]) == 1 by {
      assert t[1..][1..] == [];
    }
    assert t[..2] == t;
    assert ValidToken(t).None?;
  }

  /** `and` is read as TOKEN_LOGIC with an empty operator spelling. */
  lemma AndHasNoSpelling(t: string)
    requires t == "and"
    ensures Scan(t) == Scanned(Lexeme(TOKEN_LOGIC, "", "", 0.0, ""), [])
    ensures Precedence(Scan(t).token.op).None?
  {
    ScanDispatch(t);
    assert WordTail(t[1..]) == 2 by {
      assert t[1..][1..][1..] == [];
    }
    assert t[..3] == t && t[3..] == [];
    assert ValidToken(t) == Some(TOKEN_LOGIC);
  }
}
