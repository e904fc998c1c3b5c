/** The parser of src/parser.cc reads back every tree the reference printer
    writes: printing a program and parsing the tokens gives the same program,
    and all the tokens are consumed. */
module RoundTrip {
  import opened Lexer
  import opened Ast
  import opened Grammar
  import opened Printer

  /** The tokens `p` appear in `ts` from index `pos` on. */
  predicate Occurs(ts: seq<Lexeme>, pos: nat, p: seq<Lexeme>)
  {
    pos + |p| <= |ts| && forall i {:trigger Pick(p, i)} :: 0 <= i < |p| ==> ts[pos + i] == Pick(p, i)
  }

  /** `p[i]`, under a name of its own so that facts about occurrences are used
      only where a proof asks for them. */
  function Pick(p: seq<Lexeme>, i: nat): Lexeme
    requires i < |p|
  {
    p[i]
  }

  lemma OccursSplit(ts: seq<Lexeme>, pos: nat, a: seq<Lexeme>, b: seq<Lexeme>)
    requires Occurs(ts, pos, a + b)
    ensures Occurs(ts, pos, a) && Occurs(ts, pos + |a|, b)
  {
    forall i | 0 <= i < |a| ensures ts[pos + i] == Pick(a, i) {
      assert Pick(a + b, i) == a[i];
    }
    forall i | 0 <= i < |b| ensures ts[pos + |a| + i] == Pick(b, i) {
      assert Pick(a + b, |a| + i) == b[i];
    }
  }

  lemma OccursAt(ts: seq<Lexeme>, pos: nat, p: seq<Lexeme>, i: nat)
    requires Occurs(ts, pos, p) && i < |p|
    ensures pos + i < |ts| && ts[pos + i] == p[i]
  {
    assert ts[pos + i] == Pick(p, i);
  }

  /** The kinds a printed statement can start with: none of them stops a
      statement list, and none is `while`. */
  predicate Opening(t: Lexeme)
  {
    t.op == "" && t.kind in {TOKEN_IF, '(' as int, '[' as int, TOKEN_IDENT, TOKEN_REAL, TOKEN_DO}
  }

  /** What the parser sees at a token that opens a printed statement. */
  lemma OpeningSeen(ts: seq<Lexeme>, k: nat)
    requires k < |ts| && Opening(ts[k])
    ensures PrecedenceAt(ts, k).None?
    ensures Kind(ts, k) !in {TOKEN_ELIF, TOKEN_ELSE, TOKEN_DONE, TOKEN_EOF, TOKEN_WHILE}
  {
  }

  /** What the parser sees at a printed keyword. */
  lemma KeywordSeen(ts: seq<Lexeme>, k: nat, kind: int)
    requires k < |ts| && ts[k] == KeywordToken(kind)
    ensures PrecedenceAt(ts, k).None? && Kind(ts, k) == kind
  {
  }

  lemma OperandOpening(e: Expr)
    requires PrintableExpr(e)
    ensures Operand(e) != [] && Opening(Operand(e)[0]) && Operand(e)[0].kind != TOKEN_IF
  {
    if !(e.BinaryOp? || e.UnaryOp?) {
      match e
      case Real(_) =>
      case Variable(_) =>
      case Call(_, _) =>
      case Collection(_, _, _) =>
    }
  }

  lemma {:induction false} StatementsOpening(ss: seq<Expr>)
    requires AllPrintableStatements(ss)
    ensures ss != [] ==> PrintStatements(ss) != [] && Opening(PrintStatements(ss)[0])
  {
    if ss != [] {
      var s := ss[0];
      assert PrintStatements(ss) == PrintStatement(s) + PrintStatements(ss[1..]);
      match s
      case If(_, _, _) =>
      case UnaryOp(_, _) => OperandOpening(s);
      case BinaryOp(_, lhs, _) => OperandOpening(lhs);
      case Real(_) => OperandOpening(s);
      case Variable(_) => OperandOpening(s);
      case Call(_, _) => OperandOpening(s);
      case Collection(_, _, _) => OperandOpening(s);
    }
  }

  lemma OccursSplit3(ts: seq<Lexeme>, pos: nat, a: seq<Lexeme>, b: seq<Lexeme>, c: seq<Lexeme>)
    requires Occurs(ts, pos, a + b + c)
    ensures Occurs(ts, pos, a) && Occurs(ts, pos + |a|, b) && Occurs(ts, pos + |a| + |b|, c)
  {
    OccursSplit(ts, pos, a + b, c);
    OccursSplit(ts, pos, a, b);
  }

  // Steps of the grammar, each assembling one construct from its parts.

  lemma UnaryOfRValue(ts: seq<Lexeme>, pos: nat)
    requires pos <= |ts| && Kind(ts, pos) != TOKEN_UNOP
    ensures Unary(ts, pos) == RValue(ts, pos)
  {
  }

  lemma NestedStep(ts: seq<Lexeme>, pos: nat, e: Expr, n: nat)
    requires pos < |ts| && Kind(ts, pos) == '(' as int
    requires Expression(ts, pos + 1) == Ok(e, n) && Kind(ts, n) == ')' as int
    ensures RValue(ts, pos) == Ok(e, n + 1)
  {
  }

  lemma DoStep(ts: seq<Lexeme>, pos: nat, name: string, args: seq<Expr>, n: nat)
    requires pos + 3 <= |ts| && Kind(ts, pos) == TOKEN_DO && Kind(ts, pos + 1) == '(' as int
    requires ts[pos + 2] == Lexeme(TOKEN_BUILTIN, "", "", 0.0, name)
    requires Arguments(ts, pos + 3) == Ok(args, n)
    ensures RValue(ts, pos) == Ok(Call(name, args), n + 1)
  {
  }

  lemma CollectionStep(ts: seq<Lexeme>, pos: nat, members: seq<Expr>, n: nat)
    requires pos < |ts| && Kind(ts, pos) == '[' as int
    requires Members(ts, pos + 1, ']' as int) == Ok(members, n)
    ensures RValue(ts, pos) == Ok(Ast.Collection(Unrecorded, false, members), n + 1)
  {
  }

  lemma ArgumentsStep(ts: seq<Lexeme>, pos: nat, args: seq<Expr>, n: nat, end: nat)
    requires pos < |ts| && Kind(ts, pos) == ',' as int && args != []
    requires RValue(ts, pos + 1) == Ok(args[0], n) && Arguments(ts, n) == Ok(args[1..], end)
    ensures Arguments(ts, pos) == Ok(args, end)
  {
    assert [args[0]] + args[1..] == args;
  }

  lemma MembersStep(ts: seq<Lexeme>, pos: nat, members: seq<Expr>, n: nat, end: nat)
    requires pos <= |ts| && |members| > 1 && RValue(ts, pos) == Ok(members[0], n) && Kind(ts, n) == ',' as int
    requires Members(ts, n + 1, ']' as int) == Ok(members[1..], end)
    ensures Members(ts, pos, ']' as int) == Ok(members, end)
  {
    assert [members[0]] + members[1..] == members;
  }

  lemma MembersLast(ts: seq<Lexeme>, pos: nat, members: seq<Expr>, n: nat)
    requires pos <= |ts| && |members| == 1 && RValue(ts, pos) == Ok(members[0], n) && Kind(ts, n) == ']' as int
    ensures Members(ts, pos, ']' as int) == Ok(members, n)
  {
    assert [members[0]] == members;
  }

  lemma UnaryStep(ts: seq<Lexeme>, pos: nat, x: Expr, n: nat)
    requires pos < |ts| && Kind(ts, pos) == TOKEN_UNOP && Unary(ts, pos + 1) == Ok(x, n)
    ensures Unary(ts, pos) == Ok(UnaryOp(ts[pos].op, x), n)
  {
  }

  lemma ExpressionStep(ts: seq<Lexeme>, pos: nat, e: Expr, n: nat)
    requires pos <= |ts| && Unary(ts, pos) == Ok(e, n) && PrecedenceAt(ts, n).None?
    ensures Expression(ts, pos) == Ok(e, n)
  {
  }

  lemma BinaryStep(ts: seq<Lexeme>, pos: nat, lhs: Expr, n: nat, op: string, rhs: Expr, m: nat)
    requires pos <= |ts| && Unary(ts, pos) == Ok(lhs, n)
    requires n < |ts| && ts[n].op == op && Precedence(op).Some?
    requires Unary(ts, n + 1) == Ok(rhs, m) && PrecedenceAt(ts, m).None?
    ensures Expression(ts, pos) == Ok(BinaryOp(op, lhs, rhs), m)
  {
    assert RightOperand(ts, n + 1, Precedence(op).value) == Ok(rhs, m);
    assert BinaryRHS(ts, m, 0, BinaryOp(op, lhs, rhs)) == Ok(BinaryOp(op, lhs, rhs), m);
  }

  lemma StatementOfExpression(ts: seq<Lexeme>, pos: nat)
    requires pos <= |ts| && Kind(ts, pos) != TOKEN_IF && Kind(ts, pos) != TOKEN_WHILE
    ensures Statement(ts, pos) == Expression(ts, pos)
  {
  }

  /** `If` assembled from its parts. */
  lemma IfStep(ts: seq<Lexeme>, pos: nat, c: Expr, ib: seq<Expr>, eb: seq<Expr>, n: nat, n1: nat, n2: nat)
    requires pos < |ts| && Kind(ts, pos) == TOKEN_IF && n <= |ts| && n1 < |ts|
    requires Expression(ts, pos + 1) == Ok(c, n)
    requires StatementsUntil(ts, n, {TOKEN_ELIF, TOKEN_ELSE, TOKEN_DONE}) == Ok(ib, n1)
    requires if eb == [] then n1 == n2 else Kind(ts, n1) == TOKEN_ELSE && StatementsUntil(ts, n1 + 1, {TOKEN_DONE}) == Ok(eb, n2)
    requires Kind(ts, n2) == TOKEN_DONE
    ensures Statement(ts, pos) == Ok(Ast.If(c, ib, eb), n2 + 1)
  {
  }

  /** A statement list grows by one statement in front. */
  lemma StatementsStep(ts: seq<Lexeme>, pos: nat, stops: set<int>, ss: seq<Expr>, n: nat, end: nat)
    requires pos <= |ts| && n <= |ts| && Kind(ts, pos) !in stops && ss != []
    requires Statement(ts, pos) == Ok(ss[0], n)
    requires StatementsUntil(ts, n, stops) == Ok(ss[1..], end)
    ensures StatementsUntil(ts, pos, stops) == Ok(ss, end)
  {
    assert [ss[0]] + ss[1..] == ss;
  }

  // The printed forms, read back.

  /** A printed operand is one rvalue. */
  lemma {:induction false} OperandParses(ts: seq<Lexeme>, pos: nat, e: Expr)
    requires PrintableExpr(e) && Occurs(ts, pos, Operand(e))
    ensures RValue(ts, pos) == Ok(e, pos + |Operand(e)|)
    decreases e, 3
  {
    OperandOpening(e);
    OccursAt(ts, pos, Operand(e), 0);
    match e
    case Real(_) =>
    case Variable(_) =>
    case BinaryOp(_, _, _) => NestedParses(ts, pos, e);
    case UnaryOp(_, _) => NestedParses(ts, pos, e);
    case Call(_, _) => CallParses(ts, pos, e);
    case Collection(_, _, _) => CollectionParses(ts, pos, e);
  }

  /** A printed operand is one unary expression. */
  lemma {:induction false} OperandUnary(ts: seq<Lexeme>, pos: nat, e: Expr)
    requires PrintableExpr(e) && Occurs(ts, pos, Operand(e))
    ensures Unary(ts, pos) == Ok(e, pos + |Operand(e)|)
    decreases e, 4
  {
    OperandOpening(e);
    OccursAt(ts, pos, Operand(e), 0);
    UnaryOfRValue(ts, pos);
    OperandParses(ts, pos, e);
  }

  lemma {:induction false} CallParses(ts: seq<Lexeme>, pos: nat, e: Expr)
    requires PrintableExpr(e) && e.Call? && Occurs(ts, pos, Operand(e))
    ensures RValue(ts, pos) == Ok(e, pos + |Operand(e)|)
    decreases e, 2
  {
    CallLayout(ts, pos, e);
    ArgumentsParse(ts, pos + 3, e.args);
    DoStep(ts, pos, e.name, e.args, pos + 3 + |PrintArguments(e.args)|);
  }

  /** Where the arguments of a printed `do` call lie. */
  lemma CallLayout(ts: seq<Lexeme>, pos: nat, e: Expr)
    requires PrintableExpr(e) && e.Call? && Occurs(ts, pos, Operand(e))
    ensures pos + 3 <= |ts| && Kind(ts, pos) == TOKEN_DO && Kind(ts, pos + 1) == '(' as int
    ensures ts[pos + 2] == Lexeme(TOKEN_BUILTIN, "", "", 0.0, e.name)
    ensures Occurs(ts, pos + 3, PrintArguments(e.args))
    ensures |Operand(e)| == 4 + |PrintArguments(e.args)|
    ensures Kind(ts, pos + 3 + |PrintArguments(e.args)|) == ')' as int
  {
    var head := [KeywordToken(TOKEN_DO), Punct('('), Lexeme(TOKEN_BUILTIN, "", "", 0.0, e.name)];
    var pa := PrintArguments(e.args);
    assert Operand(e) == head + pa + [Punct(')')];
    OccursSplit3(ts, pos, head, pa, [Punct(')')]);
    OccursAt(ts, pos, head, 0);
    OccursAt(ts, pos, head, 1);
    OccursAt(ts, pos, head, 2);
    OccursAt(ts, pos + 3 + |pa|, [Punct(')')], 0);
  }

  lemma {:induction false} CollectionParses(ts: seq<Lexeme>, pos: nat, e: Expr)
    requires PrintableExpr(e) && e.Collection? && Occurs(ts, pos, Operand(e))
    ensures RValue(ts, pos) == Ok(e, pos + |Operand(e)|)
    decreases e, 2
  {
    CollectionLayout(ts, pos, e);
    MembersParse(ts, pos + 1, e.members);
    CollectionStep(ts, pos, e.members, pos + 1 + |PrintMembers(e.members)|);
  }

  /** Where the members of a printed collection lie. */
  lemma CollectionLayout(ts: seq<Lexeme>, pos: nat, e: Expr)
    requires PrintableExpr(e) && e.Collection? && Occurs(ts, pos, Operand(e))
    ensures e == Ast.Collection(Unrecorded, false, e.members) && e.members != []
    ensures pos < |ts| && Kind(ts, pos) == '[' as int
    ensures Occurs(ts, pos + 1, PrintMembers(e.members))
    ensures |Operand(e)| == 2 + |PrintMembers(e.members)|
    ensures Kind(ts, pos + 1 + |PrintMembers(e.members)|) == ']' as int
  {
    var pm := PrintMembers(e.members);
    assert Operand(e) == [Punct('[')] + pm + [Punct(']')];
    OccursSplit3(ts, pos, [Punct('[')], pm, [Punct(']')]);
    OccursAt(ts, pos, [Punct('[')], 0);
    OccursAt(ts, pos + 1 + |pm|, [Punct(']')], 0);
  }

  /** An operator node in parentheses is a nested expression. */
  lemma {:induction false} NestedParses(ts: seq<Lexeme>, pos: nat, e: Expr)
    requires PrintableExpr(e) && (e.BinaryOp? || e.UnaryOp?) && Occurs(ts, pos, Operand(e))
    ensures pos < |ts| && Kind(ts, pos) == '(' as int
    ensures RValue(ts, pos) == Ok(e, pos + |Operand(e)|)
    decreases e, 2
  {
    NestedLayout(ts, pos, e);
    OperatorParses(ts, pos + 1, e);
    NestedStep(ts, pos, e, pos + 1 + |Print(e)|);
  }

  /** Where the expression inside a parenthesised operand lies. */
  lemma NestedLayout(ts: seq<Lexeme>, pos: nat, e: Expr)
    requires PrintableExpr(e) && (e.BinaryOp? || e.UnaryOp?) && Occurs(ts, pos, Operand(e))
    ensures pos < |ts| && Kind(ts, pos) == '(' as int
    ensures Occurs(ts, pos + 1, Print(e)) && |Operand(e)| == 2 + |Print(e)|
    ensures Kind(ts, pos + 1 + |Print(e)|) == ')' as int && PrecedenceAt(ts, pos + 1 + |Print(e)|).None?
  {
    var p := Print(e);
    assert Operand(e) == [Punct('(')] + p + [Punct(')')];
    OccursSplit3(ts, pos, [Punct('(')], p, [Punct(')')]);
    OccursAt(ts, pos, [Punct('(')], 0);
    OccursAt(ts, pos + 1 + |p|, [Punct(')')], 0);
  }

  /** An operator node printed bare, followed by a token that is no operator,
      is one expression. */
  lemma {:induction false} OperatorParses(ts: seq<Lexeme>, pos: nat, e: Expr)
    requires PrintableExpr(e) && (e.BinaryOp? || e.UnaryOp?) && Occurs(ts, pos, Print(e))
    requires PrecedenceAt(ts, pos + |Print(e)|).None?
    ensures Expression(ts, pos) == Ok(e, pos + |Print(e)|)
    decreases e, 1
  {
    if e.UnaryOp? {
      UnaryChainParses(ts, pos, e);
      ExpressionStep(ts, pos, e, pos + |Print(e)|);
    } else {
      BinaryParses(ts, pos, e);
    }
  }

  lemma {:induction false} BinaryParses(ts: seq<Lexeme>, pos: nat, e: Expr)
    requires PrintableExpr(e) && e.BinaryOp? && Occurs(ts, pos, Print(e))
    requires PrecedenceAt(ts, pos + |Print(e)|).None?
    ensures Expression(ts, pos) == Ok(e, pos + |Print(e)|)
    decreases e, 0
  {
    var n := BinaryLayout(ts, pos, e);
    OperandUnary(ts, pos, e.lhs);
    OperandUnary(ts, n + 1, e.rhs);
    BinaryStep(ts, pos, e.lhs, n, e.op, e.rhs, pos + |Print(e)|);
  }

  /** Where the operator and the operands of a printed binary node lie. */
  lemma BinaryLayout(ts: seq<Lexeme>, pos: nat, e: Expr) returns (n: nat)
    requires PrintableExpr(e) && e.BinaryOp? && Occurs(ts, pos, Print(e))
    ensures n == pos + |Operand(e.lhs)| && Occurs(ts, pos, Operand(e.lhs))
    ensures n < |ts| && ts[n].op == e.op && Precedence(e.op).Some?
    ensures Occurs(ts, n + 1, Operand(e.rhs)) && n + 1 + |Operand(e.rhs)| == pos + |Print(e)|
  {
    var l := Operand(e.lhs);
    var r := Operand(e.rhs);
    assert Print(e) == l + [Operator(e.op)] + r;
    OccursSplit3(ts, pos, l, [Operator(e.op)], r);
    n := pos + |l|;
    OccursAt(ts, n, [Operator(e.op)], 0);
  }

  /** A chain of prefix operators over an operand is one unary expression. */
  lemma {:induction false} UnaryChainParses(ts: seq<Lexeme>, pos: nat, e: Expr)
    requires PrintableExpr(e) && e.UnaryOp? && Occurs(ts, pos, Print(e))
    ensures Unary(ts, pos) == Ok(e, pos + |Print(e)|)
    decreases e, 0
  {
    UnaryLayout(ts, pos, e);
    if e.operand.UnaryOp? {
      UnaryChainParses(ts, pos + 1, e.operand);
    } else {
      OperandUnary(ts, pos + 1, e.operand);
    }
    UnaryStep(ts, pos, e.operand, pos + |Print(e)|);
  }

  /** Where the operand of a printed prefix operator lies. */
  lemma UnaryLayout(ts: seq<Lexeme>, pos: nat, e: Expr)
    requires PrintableExpr(e) && e.UnaryOp? && Occurs(ts, pos, Print(e))
    ensures pos < |ts| && Kind(ts, pos) == TOKEN_UNOP && ts[pos].op == e.op
    ensures e.operand.UnaryOp? ==> Occurs(ts, pos + 1, Print(e.operand)) && |Print(e)| == 1 + |Print(e.operand)|
    ensures !e.operand.UnaryOp? ==> Occurs(ts, pos + 1, Operand(e.operand)) && |Print(e)| == 1 + |Operand(e.operand)|
  {
    var x := e.operand;
    var tail := if x.UnaryOp? then Print(x) else Operand(x);
    assert Print(e) == [Lexeme(TOKEN_UNOP, "", e.op, 0.0, "")] + tail;
    OccursSplit(ts, pos, [Lexeme(TOKEN_UNOP, "", e.op, 0.0, "")], tail);
    OccursAt(ts, pos, Print(e), 0);
  }

  /** The printed arguments of a `do` call, up to its `)`. */
  lemma {:induction false} ArgumentsParse(ts: seq<Lexeme>, pos: nat, args: seq<Expr>)
    requires AllPrintable(args)
    requires Occurs(ts, pos, PrintArguments(args))
    requires Kind(ts, pos + |PrintArguments(args)|) == ')' as int
    ensures Arguments(ts, pos) == Ok(args, pos + |PrintArguments(args)|)
    decreases args
  {
    if args != [] {
      var n := ArgumentsLayout(ts, pos, args);
      OperandParses(ts, pos + 1, args[0]);
      ArgumentsParse(ts, n, args[1..]);
      ArgumentsStep(ts, pos, args, n, pos + |PrintArguments(args)|);
    }
  }

  /** Where the first printed argument and the rest lie. */
  lemma ArgumentsLayout(ts: seq<Lexeme>, pos: nat, args: seq<Expr>) returns (n: nat)
    requires args != [] && AllPrintable(args)
    requires Occurs(ts, pos, PrintArguments(args))
    ensures pos < |ts| && Kind(ts, pos) == ',' as int
    ensures Occurs(ts, pos + 1, Operand(args[0])) && n == pos + 1 + |Operand(args[0])|
    ensures Occurs(ts, n, PrintArguments(args[1..]))
    ensures n + |PrintArguments(args[1..])| == pos + |PrintArguments(args)|
  {
    var a := Operand(args[0]);
    var rest := PrintArguments(args[1..]);
    assert PrintArguments(args) == [Punct(',')] + a + rest;
    OccursSplit3(ts, pos, [Punct(',')], a, rest);
    OccursAt(ts, pos, [Punct(',')], 0);
    n := pos + 1 + |a|;
  }

  /** The printed members of a collection, up to its `]`. */
  lemma {:induction false} MembersParse(ts: seq<Lexeme>, pos: nat, members: seq<Expr>)
    requires members != [] && AllPrintable(members)
    requires Occurs(ts, pos, PrintMembers(members))
    requires Kind(ts, pos + |PrintMembers(members)|) == ']' as int
    ensures Members(ts, pos, ']' as int) == Ok(members, pos + |PrintMembers(members)|)
    decreases members
  {
    var n := MembersLayout(ts, pos, members);
    OperandParses(ts, pos, members[0]);
    if |members| == 1 {
      MembersLast(ts, pos, members, n);
    } else {
      MembersParse(ts, n + 1, members[1..]);
      MembersStep(ts, pos, members, n, pos + |PrintMembers(members)|);
    }
  }

  /** Where the first printed member ends, and where the rest lie. */
  lemma MembersLayout(ts: seq<Lexeme>, pos: nat, members: seq<Expr>) returns (n: nat)
    requires members != [] && AllPrintable(members)
    requires Occurs(ts, pos, PrintMembers(members))
    ensures Occurs(ts, pos, Operand(members[0])) && n == pos + |Operand(members[0])|
    ensures |members| == 1 ==> n == pos + |PrintMembers(members)|
    ensures |members| > 1 ==> n < |ts| && Kind(ts, n) == ',' as int && Occurs(ts, n + 1, PrintMembers(members[1..]))
                              && n + 1 + |PrintMembers(members[1..])| == pos + |PrintMembers(members)|
  {
    var a := Operand(members[0]);
    n := pos + |a|;
    if |members| > 1 {
      var rest := PrintMembers(members[1..]);
      assert PrintMembers(members) == a + [Punct(',')] + rest;
      OccursSplit3(ts, pos, a, [Punct(',')], rest);
      OccursAt(ts, n, [Punct(',')], 0);
    }
  }

  /** Any printed expression followed by a token that is no operator is one expression. */
  lemma ExpressionParses(ts: seq<Lexeme>, pos: nat, e: Expr)
    requires PrintableExpr(e) && Occurs(ts, pos, Print(e))
    requires PrecedenceAt(ts, pos + |Print(e)|).None?
    ensures Expression(ts, pos) == Ok(e, pos + |Print(e)|)
  {
    if e.BinaryOp? || e.UnaryOp? {
      OperatorParses(ts, pos, e);
    } else {
      assert Print(e) == Operand(e);
      OperandUnary(ts, pos, e);
      ExpressionStep(ts, pos, e, pos + |Print(e)|);
    }
  }

  /** A printed statement followed by a token that is no operator is one statement. */
  lemma {:induction false} StatementParses(ts: seq<Lexeme>, pos: nat, s: Expr)
    requires PrintableStatement(s) && Occurs(ts, pos, PrintStatement(s))
    requires PrecedenceAt(ts, pos + |PrintStatement(s)|).None?
    ensures Statement(ts, pos) == Ok(s, pos + |PrintStatement(s)|)
    decreases s, 3
  {
    if s.If? {
      IfParses(ts, pos, s);
    } else {
      ExpressionStatementLayout(ts, pos, s);
      StatementOfExpression(ts, pos);
      if s.UnaryOp? {
        NestedParses(ts, pos, s);
        UnaryOfRValue(ts, pos);
        ExpressionStep(ts, pos, s, pos + |PrintStatement(s)|);
      } else {
        ExpressionParses(ts, pos, s);
      }
    }
  }

  /** A printed statement that is no `if` starts with neither `if` nor `while`. */
  lemma ExpressionStatementLayout(ts: seq<Lexeme>, pos: nat, s: Expr)
    requires PrintableStatement(s) && !s.If? && Occurs(ts, pos, PrintStatement(s))
    ensures PrintableExpr(s)
    ensures pos < |ts| && Kind(ts, pos) != TOKEN_IF && Kind(ts, pos) != TOKEN_WHILE
    ensures PrintStatement(s) == if s.UnaryOp? then Operand(s) else Print(s)
  {
    var first := if s.BinaryOp? then s.lhs else s;
    OperandOpening(first);
    assert PrintStatement(s)[0] == Operand(first)[0];
    OccursAt(ts, pos, PrintStatement(s), 0);
  }

  lemma {:induction false} IfParses(ts: seq<Lexeme>, pos: nat, s: Expr)
    requires s.If? && PrintableStatement(s) && Occurs(ts, pos, PrintStatement(s))
    ensures Statement(ts, pos) == Ok(s, pos + |PrintStatement(s)|)
    decreases s, 2
  {
    var n, n1, n2 := IfPartsParse(ts, pos, s);
    IfStep(ts, pos, s.condition, s.ifBody, s.elseBody, n, n1, n2);
  }

  /** The condition and the bodies of a printed `if`, each read back. */
  lemma {:induction false} IfPartsParse(ts: seq<Lexeme>, pos: nat, s: Expr) returns (n: nat, n1: nat, n2: nat)
    requires s.If? && PrintableStatement(s) && Occurs(ts, pos, PrintStatement(s))
    ensures pos < |ts| && Kind(ts, pos) == TOKEN_IF && n <= |ts| && n1 < |ts|
    ensures Expression(ts, pos + 1) == Ok(s.condition, n)
    ensures StatementsUntil(ts, n, {TOKEN_ELIF, TOKEN_ELSE, TOKEN_DONE}) == Ok(s.ifBody, n1)
    ensures if s.elseBody == [] then n1 == n2
            else Kind(ts, n1) == TOKEN_ELSE && StatementsUntil(ts, n1 + 1, {TOKEN_DONE}) == Ok(s.elseBody, n2)
    ensures Kind(ts, n2) == TOKEN_DONE && n2 + 1 == pos + |PrintStatement(s)|
    decreases s, 1
  {
    n, n1, n2 := IfLayout(ts, pos, s);
    ElseParses(ts, n1, n2, s);
    ExpressionParses(ts, pos + 1, s.condition);
    StatementsParse(ts, n, s.ifBody, {TOKEN_ELIF, TOKEN_ELSE, TOKEN_DONE});
  }

  /** The `else` part of a printed `if`, between the end of the first body and `done`. */
  lemma {:induction false} ElseParses(ts: seq<Lexeme>, n1: nat, n2: nat, s: Expr)
    requires s.If? && PrintableStatement(s) && Occurs(ts, n1, ElsePart(s)) && n2 == n1 + |ElsePart(s)|
    requires n2 < |ts| && ts[n2] == KeywordToken(TOKEN_DONE)
    ensures n1 < |ts| && Kind(ts, n1) in {TOKEN_ELIF, TOKEN_ELSE, TOKEN_DONE} && PrecedenceAt(ts, n1).None?
    ensures Kind(ts, n2) == TOKEN_DONE
    ensures if s.elseBody == [] then n1 == n2
            else Kind(ts, n1) == TOKEN_ELSE && StatementsUntil(ts, n1 + 1, {TOKEN_DONE}) == Ok(s.elseBody, n2)
    decreases s, 0
  {
    ElseLayout(ts, n1, s);
    KeywordSeen(ts, n2, TOKEN_DONE);
    if s.elseBody != [] {
      KeywordSeen(ts, n1, TOKEN_ELSE);
      StatementsParse(ts, n1 + 1, s.elseBody, {TOKEN_DONE});
    }
  }

  /** The tokens of a printed `if`, part by part. */
  lemma IfTokens(s: Expr)
    requires s.If? && PrintableStatement(s)
    ensures PrintableExpr(s.condition)
    ensures PrintStatement(s) == [KeywordToken(TOKEN_IF)] + Print(s.condition) + PrintStatements(s.ifBody)
      + ElsePart(s) + [KeywordToken(TOKEN_DONE)]
  {
  }

  /** Five consecutive pieces of a token sequence, the first and the last one token each. */
  lemma OccursSplit5(ts: seq<Lexeme>, pos: nat, t0: Lexeme, c: seq<Lexeme>, b: seq<Lexeme>, e: seq<Lexeme>, t4: Lexeme)
    requires Occurs(ts, pos, [t0] + c + b + e + [t4])
    ensures pos < |ts| && ts[pos] == t0 && Occurs(ts, pos + 1, c) && Occurs(ts, pos + 1 + |c|, b)
    ensures Occurs(ts, pos + 1 + |c| + |b|, e)
    ensures pos + 1 + |c| + |b| + |e| < |ts| && ts[pos + 1 + |c| + |b| + |e|] == t4
  {
    OccursSplit(ts, pos, [t0] + c + b + e, [t4]);
    OccursSplit(ts, pos, [t0] + c + b, e);
    OccursSplit3(ts, pos, [t0], c, b);
    OccursAt(ts, pos, [t0], 0);
    OccursAt(ts, pos + 1 + |c| + |b| + |e|, [t4], 0);
  }

  /** Where the parts of a printed `if` lie. */
  lemma IfLayout(ts: seq<Lexeme>, pos: nat, s: Expr) returns (n: nat, n1: nat, n2: nat)
    requires s.If? && PrintableStatement(s) && Occurs(ts, pos, PrintStatement(s))
    ensures pos < |ts| && Kind(ts, pos) == TOKEN_IF
    ensures n == pos + 1 + |Print(s.condition)| && Occurs(ts, pos + 1, Print(s.condition))
    ensures n1 == n + |PrintStatements(s.ifBody)| && Occurs(ts, n, PrintStatements(s.ifBody))
    ensures Occurs(ts, n1, ElsePart(s)) && n2 == n1 + |ElsePart(s)|
    ensures n2 + 1 == pos + |PrintStatement(s)| && n2 < |ts| && ts[n2] == KeywordToken(TOKEN_DONE)
    ensures PrecedenceAt(ts, n).None?
  {
    IfTokens(s);
    var c := Print(s.condition);
    var ib := PrintStatements(s.ifBody);
    var eb := ElsePart(s);
    OccursSplit5(ts, pos, KeywordToken(TOKEN_IF), c, ib, eb, KeywordToken(TOKEN_DONE));
    n := pos + 1 + |c|;
    n1 := n + |ib|;
    n2 := n1 + |eb|;
    KeywordSeen(ts, pos, TOKEN_IF);
    StatementsOpening(s.ifBody);
    if ib != [] {
      OccursAt(ts, n, ib, 0);
      OpeningSeen(ts, n);
    } else if eb != [] {
      OccursAt(ts, n, eb, 0);
      KeywordSeen(ts, n, TOKEN_ELSE);
    } else {
      KeywordSeen(ts, n, TOKEN_DONE);
    }
  }

  /** The printed `else` part of an `if`: nothing, or `else` and statements. */
  function ElsePart(s: Expr): seq<Lexeme>
    requires s.If? && PrintableStatement(s)
  {
    if s.elseBody == [] then [] else [KeywordToken(TOKEN_ELSE)] + PrintStatements(s.elseBody)
  }

  lemma ElseLayout(ts: seq<Lexeme>, n1: nat, s: Expr)
    requires s.If? && PrintableStatement(s) && Occurs(ts, n1, ElsePart(s))
    ensures s.elseBody != [] ==> n1 < |ts| && ts[n1] == KeywordToken(TOKEN_ELSE) && |ElsePart(s)| == 1 + |PrintStatements(s.elseBody)|
                                 && Occurs(ts, n1 + 1, PrintStatements(s.elseBody))
    ensures s.elseBody == [] ==> |ElsePart(s)| == 0
  {
    if s.elseBody != [] {
      OccursSplit(ts, n1, [KeywordToken(TOKEN_ELSE)], PrintStatements(s.elseBody));
      OccursAt(ts, n1, [KeywordToken(TOKEN_ELSE)], 0);
    }
  }

  /** Printed statements, up to a token that stops the list. */
  lemma {:induction false} StatementsParse(ts: seq<Lexeme>, pos: nat, ss: seq<Expr>, stops: set<int>)
    requires AllPrintableStatements(ss)
    requires Occurs(ts, pos, PrintStatements(ss))
    requires stops <= {TOKEN_ELIF, TOKEN_ELSE, TOKEN_DONE, TOKEN_EOF}
    requires Kind(ts, pos + |PrintStatements(ss)|) in stops
    requires PrecedenceAt(ts, pos + |PrintStatements(ss)|).None?
    ensures StatementsUntil(ts, pos, stops) == Ok(ss, pos + |PrintStatements(ss)|)
    decreases ss
  {
    if ss != [] {
      var n := StatementsLayout(ts, pos, ss);
      StatementParses(ts, pos, ss[0]);
      StatementsParse(ts, n, ss[1..], stops);
      StatementsStep(ts, pos, stops, ss, n, pos + |PrintStatements(ss)|);
    }
  }

  /** Where the first statement of a printed list ends. */
  lemma StatementsLayout(ts: seq<Lexeme>, pos: nat, ss: seq<Expr>) returns (n: nat)
    requires ss != [] && AllPrintableStatements(ss)
    requires Occurs(ts, pos, PrintStatements(ss))
    requires PrecedenceAt(ts, pos + |PrintStatements(ss)|).None?
    ensures pos < |ts| && Opening(ts[pos])
    ensures PrintableStatement(ss[0])
    ensures n == pos + |PrintStatement(ss[0])| && Occurs(ts, pos, PrintStatement(ss[0]))
    ensures Occurs(ts, n, PrintStatements(ss[1..]))
    ensures n + |PrintStatements(ss[1..])| == pos + |PrintStatements(ss)|
    ensures PrecedenceAt(ts, n).None?
  {
    var a := PrintStatement(ss[0]);
    var rest := PrintStatements(ss[1..]);
    assert PrintStatements(ss) == a + rest;
    OccursSplit(ts, pos, a, rest);
    StatementsOpening(ss);
    OccursAt(ts, pos, PrintStatements(ss), 0);
    StatementsOpening(ss[1..]);
    if ss[1..] != [] {
      OccursAt(ts, pos + |a|, rest, 0);
    }
    n := pos + |a|;
  }

  /** Parsing a printed program gives the program back and reads every token. */
  lemma ProgramRoundTrip(p: Ast.Program)
    requires PrintableProgram(p)
    ensures Grammar.Program(PrintProgram(p), 0) == Ok(p, |PrintProgram(p)|)
  {
    var ts := PrintProgram(p);
    assert Occurs(ts, 0, ts) by {
      forall i | 0 <= i < |ts| ensures ts[0 + i] == Pick(ts, i) {
      }
    }
    StatementsParse(ts, 0, p.body, {TOKEN_EOF});
  }
}
