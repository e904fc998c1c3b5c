/** The grammar of the C++ parser (src/parser.cc) as functions over the token
    list the lexer produces: each function reads from token index `pos` and
    returns the node it builds with the index of the first token it did not
    consume, or the failure and the index where it was detected. Reading past
    the last token yields TOKEN_EOF, as the lexer does once input is exhausted. */
module Grammar {
  import Wrappers
  import opened Lexer
  import opened Ast

  datatype Parsed<T> = Ok(value: T, next: nat) | Failed(message: string, at: nat)

  /** The list `xs` in front of what a list parser read; failures pass through. */
  function Prepend<T>(xs: seq<T>, p: Parsed<seq<T>>): (r: Parsed<seq<T>>)
    ensures r.Ok? <==> p.Ok?
    ensures r.Ok? ==> r.value == xs + p.value && r.next == p.next
    ensures r.Failed? ==> r == p
  {
    match p
    case Ok(ys, n) => Ok(xs + ys, n)
    case Failed(m, at) => Failed(m, at)
  }

  /** Prepending nothing changes nothing: the start of a loop. */
  lemma PrependNothing<T>(p: Parsed<seq<T>>)
    ensures Prepend([], p) == p
  {
    if p.Ok? {
      assert [] + p.value == p.value;
    }
  }

  /** Prepending twice prepends the concatenation: the accumulator of a loop. */
  lemma PrependTwice<T>(xs: seq<T>, ys: seq<T>, p: Parsed<seq<T>>)
    ensures Prepend(xs, Prepend(ys, p)) == Prepend(xs + ys, p)
  {
    if p.Ok? {
      assert xs + (ys + p.value) == (xs + ys) + p.value;
    }
  }

  /** The token at `pos`, or end of input. */
  function TokenAt(ts: seq<Lexeme>, pos: nat): Lexeme
  {
    if pos < |ts| then ts[pos] else EndOfInput
  }

  /** `current_token` at `pos`. */
  function Kind(ts: seq<Lexeme>, pos: nat): (k: int)
    ensures k != TOKEN_EOF ==> pos < |ts|
  {
    TokenAt(ts, pos).kind
  }

  /** `BinOpPrecedence` at `pos`. */
  function PrecedenceAt(ts: seq<Lexeme>, pos: nat): (p: Wrappers.Option<int>)
    ensures p.Some? ==> pos < |ts|
  {
    Precedence(TokenAt(ts, pos).op)
  }

  /** `RValue`: an identifier, a real, a `do` call, a parenthesised
      expression or a collection literal. */
  function RValue(ts: seq<Lexeme>, pos: nat): (r: Parsed<Expr>)
    requires pos <= |ts|
    ensures r.Ok? ==> pos < r.next <= |ts|
    decreases |ts| - pos, 1
  {
    var k := Kind(ts, pos);
    if k == TOKEN_IDENT then Ok(Variable(ts[pos].ident), pos + 1)
    else if k == TOKEN_REAL then Ok(Real(ts[pos].value), pos + 1)
    else if k == TOKEN_DO then Do(ts, pos)
    else if k == '(' as int then Nested(ts, pos)
    else if k == '[' as int then Collection(ts, pos)
    else Failed("Expected identifier or real", pos)
  }

  /** `Nested`: `(`, an expression, then `)`. */
  function Nested(ts: seq<Lexeme>, pos: nat): (r: Parsed<Expr>)
    requires pos < |ts| && Kind(ts, pos) == '(' as int
    ensures r.Ok? ==> pos < r.next <= |ts|
    decreases |ts| - pos, 0
  {
    match Expression(ts, pos + 1)
    case Failed(m, at) => Failed(m, at)
    case Ok(e, n) =>
      if Kind(ts, n) != ')' as int then Failed("Expected ')'", n)
      else Ok(e, n + 1)
  }

  /** `Do`: `do`, `(`, a builtin name, then `, rvalue` pairs up to `)`. */
  function Do(ts: seq<Lexeme>, pos: nat): (r: Parsed<Expr>)
    requires pos < |ts| && Kind(ts, pos) == TOKEN_DO
    ensures r.Ok? ==> pos < r.next <= |ts|
    decreases |ts| - pos, 0
  {
    if Kind(ts, pos + 1) != '(' as int then Failed("Expected '(' after 'do'", pos + 1)
    else if Kind(ts, pos + 2) != TOKEN_BUILTIN then Failed("Expected function name after '('", pos + 2)
    else
      match Arguments(ts, pos + 3)
      case Failed(m, at) => Failed(m, at)
      case Ok(args, n) => Ok(Call(ts[pos + 2].builtin, args), n + 1)
  }

  /** The argument loop of `Do`; on success `next` is the index of the `)`. */
  function Arguments(ts: seq<Lexeme>, pos: nat): (r: Parsed<seq<Expr>>)
    requires pos <= |ts|
    ensures r.Ok? ==> pos <= r.next < |ts| && Kind(ts, r.next) == ')' as int
    decreases |ts| - pos, 0
  {
    var k := Kind(ts, pos);
    if k == ')' as int then Ok([], pos)
    else if k != ',' as int then Failed("Expected ',' between args in do", pos)
    else
      match RValue(ts, pos + 1)
      case Failed(m, at) => Failed(m, at)
      case Ok(v, n) => Prepend([v], Arguments(ts, n))
  }

  /** `Collection` (src/parser.cc): `[`, members, `]`. This generation of the
      node keeps neither a position nor the sequence flag. */
  function Collection(ts: seq<Lexeme>, pos: nat): (r: Parsed<Expr>)
    requires pos < |ts| && Kind(ts, pos) == '[' as int
    ensures r.Ok? ==> pos < r.next <= |ts|
    ensures r.Ok? ==> r.value.Collection? && r.value.members != []
    decreases |ts| - pos, 0
  {
    match Members(ts, pos + 1, ']' as int)
    case Failed(m, at) => Failed(m, at)
    case Ok(ms, n) => Ok(Ast.Collection(Unrecorded, false, ms), n + 1)
  }

  /** The member loop of a collection literal: one rvalue, then either the
      closing token or `,` and more members. On success `next` is the index of
      the closing token. */
  function Members(ts: seq<Lexeme>, pos: nat, close: int): (r: Parsed<seq<Expr>>)
    requires pos <= |ts| && close != TOKEN_EOF
    ensures r.Ok? ==> pos < r.next < |ts| && Kind(ts, r.next) == close && r.value != []
    decreases |ts| - pos, 2
  {
    match RValue(ts, pos)
    case Failed(m, at) => Failed(m, at)
    case Ok(v, n) =>
      if Kind(ts, n) == close then Ok([v], n)
      else if Kind(ts, n) != ',' as int then Failed("Expected ',' between values in collection", n)
      else Prepend([v], Members(ts, n + 1, close))
  }

  /** `Unary`: prefix operators, each applied to the unary expression after it. */
  function Unary(ts: seq<Lexeme>, pos: nat): (r: Parsed<Expr>)
    requires pos <= |ts|
    ensures r.Ok? ==> pos < r.next <= |ts|
    decreases |ts| - pos, 2
  {
    if Kind(ts, pos) != TOKEN_UNOP then RValue(ts, pos)
    else
      match Unary(ts, pos + 1)
      case Failed(m, at) => Failed(m, at)
      case Ok(x, n) => Ok(UnaryOp(ts[pos].op, x), n)
  }

  /** `BinaryRHS`: while the operator at `pos` binds at least as tightly as
      `prec`, take it and the unary expression after it, first letting a
      tighter operator after that take the operand. */
  function BinaryRHS(ts: seq<Lexeme>, pos: nat, prec: int, lhs: Expr): (r: Parsed<Expr>)
    requires pos <= |ts|
    ensures r.Ok? ==> pos <= r.next <= |ts|
    decreases |ts| - pos, 0
  {
    var p := PrecedenceAt(ts, pos);
    if p.None? || p.value < prec then Ok(lhs, pos)
    else
      match RightOperand(ts, pos + 1, p.value)
      case Failed(m, at) => Failed(m, at)
      case Ok(rhs, n) => BinaryRHS(ts, n, prec, BinaryOp(ts[pos].op, lhs, rhs))
  }

  /** The right operand of an operator of precedence `p`: a unary expression,
      extended by `BinaryRHS` when the operator after it binds more tightly. */
  function RightOperand(ts: seq<Lexeme>, pos: nat, p: int): (r: Parsed<Expr>)
    requires pos <= |ts|
    ensures r.Ok? ==> pos < r.next <= |ts|
    decreases |ts| - pos, 3
  {
    match Unary(ts, pos)
    case Failed(m, at) => Failed(m, at)
    case Ok(rhs, n) =>
      var q := PrecedenceAt(ts, n);
      if q.Some? && p < q.value then BinaryRHS(ts, n, p + 1, rhs)
      else Ok(rhs, n)
  }

  /** `Expression`: a unary expression followed by binary operators of any precedence. */
  function Expression(ts: seq<Lexeme>, pos: nat): (r: Parsed<Expr>)
    requires pos <= |ts|
    ensures r.Ok? ==> pos < r.next <= |ts|
    decreases |ts| - pos, 3
  {
    match Unary(ts, pos)
    case Failed(m, at) => Failed(m, at)
    case Ok(lhs, n) => BinaryRHS(ts, n, 0, lhs)
  }

  /** `If`: the condition, statements up to `elif`, `else` or `done`, an
      optional `else` body up to `done`, then `done`. */
  function If(ts: seq<Lexeme>, pos: nat): (r: Parsed<Expr>)
    requires pos < |ts| && Kind(ts, pos) == TOKEN_IF
    ensures r.Ok? ==> pos < r.next <= |ts|
    decreases |ts| - pos, 0
  {
    match Expression(ts, pos + 1)
    case Failed(m, at) => Failed(m, at)
    case Ok(c, n) =>
      match StatementsUntil(ts, n, {TOKEN_ELIF, TOKEN_ELSE, TOKEN_DONE})
      case Failed(m, at) => Failed(m, at)
      case Ok(ib, n1) =>
        var rest := if Kind(ts, n1) == TOKEN_ELSE then StatementsUntil(ts, n1 + 1, {TOKEN_DONE}) else Ok([], n1);
        match rest
        case Failed(m, at) => Failed(m, at)
        case Ok(eb, n2) =>
          if Kind(ts, n2) != TOKEN_DONE then Failed("expected 'done' at end of 'if'", n2)
          else Ok(Ast.If(c, ib, eb), n2 + 1)
  }

  /** Statements read one after another until the current token is in `stops`;
      on success `next` is the index of that token. */
  function StatementsUntil(ts: seq<Lexeme>, pos: nat, stops: set<int>): (r: Parsed<seq<Expr>>)
    requires pos <= |ts|
    ensures r.Ok? ==> pos <= r.next <= |ts| && Kind(ts, r.next) in stops
    decreases |ts| - pos, 5
  {
    if Kind(ts, pos) in stops then Ok([], pos)
    else
      match Statement(ts, pos)
      case Failed(m, at) => Failed(m, at)
      case Ok(s, n) => Prepend([s], StatementsUntil(ts, n, stops))
  }

  /** `Statement`: an `if`, a `while` (a stub that always fails, reporting
      nothing), or an expression. */
  function Statement(ts: seq<Lexeme>, pos: nat): (r: Parsed<Expr>)
    requires pos <= |ts|
    ensures r.Ok? ==> pos < r.next <= |ts|
    decreases |ts| - pos, 4
  {
    var k := Kind(ts, pos);
    if k == TOKEN_IF then If(ts, pos)
    else if k == TOKEN_WHILE then Failed("", pos)
    else Expression(ts, pos)
  }

  /** `Program`: statements up to end of input. */
  function Program(ts: seq<Lexeme>, pos: nat): (r: Parsed<Ast.Program>)
    requires pos <= |ts|
    ensures r.Ok? ==> r.next <= |ts| && Kind(ts, r.next) == TOKEN_EOF
  {
    match StatementsUntil(ts, pos, {TOKEN_EOF})
    case Failed(m, at) => Failed(m, at)
    case Ok(body, n) => Ok(Ast.Program(body), n)
  }
}
