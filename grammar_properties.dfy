/** What the grammar of src/parser.cc and of the earlier parsers under
    old/src/parser/ does with particular inputs: how precedence groups
    operands, which shapes are rejected and with which message, and the
    effect of `not` sharing its token code with `if`. */
module GrammarProperties {
  import opened Lexer
  import opened Ast
  import opened Grammar
  import opened Printer
  import CollectionGrammar
  import WhileGrammar
  import FuncGrammar

  function Ident(name: string): Lexeme { Lexeme(TOKEN_IDENT, name, "", 0.0, "") }

  /** Three identifiers joined by two table operators. */
  predicate Chain(ts: seq<Lexeme>, a: string, op1: string, b: string, op2: string, c: string)
  {
    BinOp(op1).Some? && BinOp(op2).Some? && ts == [Ident(a), Operator(op1), Ident(b), Operator(op2), Ident(c)]
  }

  /** The operand after an operator is read up to the next operator that
      does not bind more tightly than `p`. */
  lemma ChainRightOperand(ts: seq<Lexeme>, a: string, op1: string, b: string, op2: string, c: string)
    requires Chain(ts, a, op1, b, op2, c)
    ensures Unary(ts, 0) == Ok(Variable(a), 1) && Unary(ts, 2) == Ok(Variable(b), 3) && Unary(ts, 4) == Ok(Variable(c), 5)
    ensures PrecedenceAt(ts, 1) == Precedence(op1) && PrecedenceAt(ts, 3) == Precedence(op2)
    ensures PrecedenceAt(ts, 5).None? && ts[1].op == op1 && ts[3].op == op2
  {
  }

  /** An operator that binds more tightly than the one before it takes the
      middle operand: `a + b * c` is `a + (b * c)`. */
  lemma TighterOperatorGroupsRight(ts: seq<Lexeme>, a: string, op1: string, b: string, op2: string, c: string)
    requires Chain(ts, a, op1, b, op2, c)
    requires Precedence(op1).value < Precedence(op2).value
    ensures Expression(ts, 0) == Ok(BinaryOp(op1, Variable(a), BinaryOp(op2, Variable(b), Variable(c))), 5)
  {
    ChainRightOperand(ts, a, op1, b, op2, c);
    var p1 := Precedence(op1).value;
    var p2 := Precedence(op2).value;
    var inner := BinaryOp(op2, Variable(b), Variable(c));
    assert RightOperand(ts, 4, p2) == Ok(Variable(c), 5);
    assert BinaryRHS(ts, 5, p1 + 1, inner) == Ok(inner, 5);
    assert BinaryRHS(ts, 3, p1 + 1, Variable(b)) == Ok(inner, 5);
    assert RightOperand(ts, 2, p1) == Ok(inner, 5);
    assert BinaryRHS(ts, 5, 0, BinaryOp(op1, Variable(a), inner)) == Ok(BinaryOp(op1, Variable(a), inner), 5);
    assert BinaryRHS(ts, 1, 0, Variable(a)) == Ok(BinaryOp(op1, Variable(a), inner), 5);
  }

  /** An operator that binds no more tightly than the one before it lets the
      left part close first, so operators of one level group to the left:
      `a - b - c` is `(a - b) - c`, and `a = b = c` is `(a = b) = c`. */
  lemma LooserOperatorGroupsLeft(ts: seq<Lexeme>, a: string, op1: string, b: string, op2: string, c: string)
    requires Chain(ts, a, op1, b, op2, c)
    requires Precedence(op1).value >= Precedence(op2).value
    ensures Expression(ts, 0) == Ok(BinaryOp(op2, BinaryOp(op1, Variable(a), Variable(b)), Variable(c)), 5)
  {
    ChainRightOperand(ts, a, op1, b, op2, c);
    var p1 := Precedence(op1).value;
    var p2 := Precedence(op2).value;
    var left := BinaryOp(op1, Variable(a), Variable(b));
    assert RightOperand(ts, 2, p1) == Ok(Variable(b), 3);
    assert RightOperand(ts, 4, p2) == Ok(Variable(c), 5);
    assert BinaryRHS(ts, 5, 0, BinaryOp(op2, left, Variable(c))) == Ok(BinaryOp(op2, left, Variable(c)), 5);
    assert BinaryRHS(ts, 3, 0, left) == Ok(BinaryOp(op2, left, Variable(c)), 5);
    assert BinaryRHS(ts, 1, 0, Variable(a)) == Ok(BinaryOp(op2, left, Variable(c)), 5);
  }

  /** A collection needs a first member: `[]` fails where the member should start. */
  lemma EmptyCollectionRejected(ts: seq<Lexeme>, pos: nat)
    requires pos + 1 < |ts| && Kind(ts, pos) == '[' as int && Kind(ts, pos + 1) == ']' as int
    ensures RValue(ts, pos) == Failed("Expected identifier or real", pos + 1)
  {
    assert Members(ts, pos + 1, ']' as int) == Failed("Expected identifier or real", pos + 1);
  }

  /** A token the lexer produced for a table operator: its kind is the
      operator's kind from the table. */
  predicate OperatorToken(t: Lexeme)
  {
    BinOp(t.op).Some? && t.kind == BinOp(t.op).value.0
  }

  /** Each argument of `do` is a single rvalue: an operator after it is
      reported as a missing `,`. */
  lemma CallArgumentIsRValue(ts: seq<Lexeme>, pos: nat, n: nat, v: Expr)
    requires pos < |ts| && Kind(ts, pos) == ',' as int
    requires RValue(ts, pos + 1) == Ok(v, n) && n < |ts| && OperatorToken(ts[n])
    ensures Arguments(ts, pos) == Failed("Expected ',' between args in do", n)
  {
    assert Arguments(ts, n) == Failed("Expected ',' between args in do", n);
  }

  /** `do(write, a + b)`: the call stops at `+`. */
  lemma CallWithOperatorRejected(ts: seq<Lexeme>, a: string, b: string)
    requires ts == [KeywordToken(TOKEN_DO), Punct('('), Lexeme(TOKEN_BUILTIN, "", "", 0.0, "write"), Punct(','),
                    Ident(a), Operator("+"), Ident(b), Punct(')')]
    ensures Statement(ts, 0) == Failed("Expected ',' between args in do", 5)
  {
    assert RValue(ts, 4) == Ok(Variable(a), 5);
    assert Arguments(ts, 5) == Failed("Expected ',' between args in do", 5);
    assert Arguments(ts, 3) == Failed("Expected ',' between args in do", 5);
    assert Do(ts, 0) == Failed("Expected ',' between args in do", 5);
    assert Unary(ts, 0) == Failed("Expected ',' between args in do", 5);
  }

  /** `elif` ends the first branch of an `if`, but nothing reads what follows
      it: the `if` fails there, expecting `done`. */
  lemma ElifRejected(ts: seq<Lexeme>, pos: nat, c: Expr, n: nat, ib: seq<Expr>, n1: nat)
    requires pos < |ts| && Kind(ts, pos) == TOKEN_IF
    requires Expression(ts, pos + 1) == Ok(c, n)
    requires StatementsUntil(ts, n, {TOKEN_ELIF, TOKEN_ELSE, TOKEN_DONE}) == Ok(ib, n1)
    requires Kind(ts, n1) == TOKEN_ELIF
    ensures Grammar.If(ts, pos) == Failed("expected 'done' at end of 'if'", n1)
  {
  }

  /** A statement that starts with `not` is read as an `if`, because the two
      share a token code: `not x done` is an `if` with empty branches, while
      the same tokens read as an expression give a negation. */
  lemma NotStatementIsIf(ts: seq<Lexeme>, x: string)
    requires ts == [Lexeme(TOKEN_UNOP, "", "", 0.0, ""), Ident(x), KeywordToken(TOKEN_DONE)]
    ensures Statement(ts, 0) == Ok(Ast.If(Variable(x), [], []), 3)
    ensures Expression(ts, 0) == Ok(UnaryOp("", Variable(x)), 2)
  {
    assert Unary(ts, 1) == Ok(Variable(x), 2);
    assert Expression(ts, 1) == Ok(Variable(x), 2);
    assert StatementsUntil(ts, 2, {TOKEN_ELIF, TOKEN_ELSE, TOKEN_DONE}) == Ok([], 2);
    assert Unary(ts, 0) == Ok(UnaryOp("", Variable(x)), 2);
  }

  /** The `while` statement of src/parser.cc is a stub: a program that reaches
      one fails there without a message. */
  lemma WhileStatementFails(ts: seq<Lexeme>, pos: nat)
    requires pos < |ts| && Kind(ts, pos) == TOKEN_WHILE
    ensures Statement(ts, pos) == Failed("", pos)
    ensures StatementsUntil(ts, pos, {TOKEN_EOF}) == Failed("", pos)
  {
  }

  lemma ProgramStartingWithWhileFails(ts: seq<Lexeme>)
    requires 0 < |ts| && Kind(ts, 0) == TOKEN_WHILE
    ensures Grammar.Program(ts, 0) == Failed("", 0)
  {
    WhileStatementFails(ts, 0);
  }

  /** The earlier `while` parser: a loop may have an empty body, and the node
      records where the loop starts. */
  lemma EmptyWhileLoop(ts: seq<Lexeme>, x: string)
    requires ts == [KeywordToken(TOKEN_WHILE), Ident(x), KeywordToken(TOKEN_DONE)]
    ensures WhileGrammar.WhileLoop(ts, 0) == Ok(Ast.While(At(0), Variable(x), []), 3)
  {
    assert Unary(ts, 1) == Ok(Variable(x), 2);
    assert Expression(ts, 1) == Ok(Variable(x), 2);
    assert StatementsUntil(ts, 2, {TOKEN_DONE}) == Ok([], 2);
  }

  /** `func () {}`: no parameters and an empty body. */
  lemma EmptyFuncLiteral(ts: seq<Lexeme>)
    requires ts == [KeywordToken(TOKEN_FUNC), Punct('('), Punct(')'), Punct('{'), Punct('}')]
    ensures FuncGrammar.FuncLiteral(ts, 0) == Ok(Ast.Func(At(0), [], []), 5)
  {
    assert StatementsUntil(ts, 4, {'}' as int}) == Ok([], 4);
    assert FuncGrammar.FuncBody(ts, 3, At(0), []) == Ok(Ast.Func(At(0), [], []), 5);
  }

  /** `func (a, b) { a }`: the parameters in order and the body's statements. */
  lemma FuncLiteralWithParameters(ts: seq<Lexeme>, a: string, b: string)
    requires ts == [KeywordToken(TOKEN_FUNC), Punct('('), Ident(a), Punct(','), Ident(b), Punct(')'),
                    Punct('{'), Ident(a), Punct('}')]
    ensures FuncGrammar.FuncLiteral(ts, 0) == Ok(Ast.Func(At(0), [a, b], [Variable(a)]), 9)
  {
    assert FuncGrammar.Parameters(ts, 4) == Ok([b], 5);
    assert [a] + [b] == [a, b];
    assert FuncGrammar.Parameters(ts, 2) == Ok([a, b], 5);
    assert Unary(ts, 7) == Ok(Variable(a), 8);
    assert Expression(ts, 7) == Ok(Variable(a), 8);
    assert Statement(ts, 7) == Ok(Variable(a), 8);
    assert StatementsUntil(ts, 8, {'}' as int}) == Ok([], 8);
    assert [Variable(a)] + [] == [Variable(a)];
    assert StatementsUntil(ts, 7, {'}' as int}) == Ok([Variable(a)], 8);
    assert FuncGrammar.FuncBody(ts, 6, At(0), [a, b]) == Ok(Ast.Func(At(0), [a, b], [Variable(a)]), 9);
  }

  /** A `,` must be followed by another parameter. */
  lemma TrailingCommaInParameters(ts: seq<Lexeme>, a: string)
    requires ts == [KeywordToken(TOKEN_FUNC), Punct('('), Ident(a), Punct(','), Punct(')'), Punct('{'), Punct('}')]
    ensures FuncGrammar.FuncLiteral(ts, 0) == Failed("Expected identifier as function argument", 4)
  {
    assert FuncGrammar.Parameters(ts, 4) == Failed("Expected identifier as function argument", 4);
    assert FuncGrammar.Parameters(ts, 2) == Failed("Expected identifier as function argument", 4);
  }

  /** `func` must be followed by a parameter list. */
  lemma FuncWithoutParameterList(ts: seq<Lexeme>, pos: nat)
    requires pos < |ts| && Kind(ts, pos) == TOKEN_FUNC && Kind(ts, pos + 1) != '(' as int
    ensures FuncGrammar.FuncLiteral(ts, pos) == Failed("Expected argument list after 'func'", pos + 1)
  {
  }

  /** `| a, b |` is a sequence literal with its position recorded. */
  lemma SequenceLiteral(ts: seq<Lexeme>, a: string, b: string)
    requires ts == [Punct('|'), Ident(a), Punct(','), Ident(b), Punct('|')]
    ensures CollectionGrammar.CollectionLiteral(ts, 0) == Ok(Ast.Collection(At(0), true, [Variable(a), Variable(b)]), 5)
  {
    assert Members(ts, 3, '|' as int) == Ok([Variable(b)], 4);
    assert [Variable(a)] + [Variable(b)] == [Variable(a), Variable(b)];
    assert Members(ts, 1, '|' as int) == Ok([Variable(a), Variable(b)], 4);
  }

  /** The closing token must match the opening one: `[ a |` is rejected. */
  lemma MismatchedCloseRejected(ts: seq<Lexeme>, a: string)
    requires ts == [Punct('['), Ident(a), Punct('|')]
    ensures CollectionGrammar.CollectionLiteral(ts, 0) == Failed("Expected ',' between values in collection", 2)
  {
    assert Members(ts, 1, ']' as int) == Failed("Expected ',' between values in collection", 2);
  }
}
