/** A reference printer for the C++ front end: the token sequence from which the
    parser of src/parser.cc rebuilds a given tree. Operands that are operator
    nodes are parenthesised, so the tree does not depend on precedence, and a
    statement that starts with a prefix operator is parenthesised too, because
    `not` has the code of `if` (src/lexer.h:13-14) and would start an `if`. */
module Printer {
  import opened Lexer
  import opened Ast

  function Punct(c: char): Lexeme { Lexeme(c as int, "", "", 0.0, "") }
  function KeywordToken(kind: int): Lexeme { Lexeme(kind, "", "", 0.0, "") }

  /** The token of a binary operator from the operator table. */
  function Operator(op: string): Lexeme
    requires BinOp(op).Some?
  {
    Lexeme(BinOp(op).value.0, "", op, 0.0, "")
  }

  /** Trees the parser of src/parser.cc can build, with the operators it can read. */
  predicate PrintableExpr(e: Expr)
    decreases e, 1
  {
    match e
    case Real(_) => true
    case Variable(_) => true
    case BinaryOp(op, lhs, rhs) => BinOp(op).Some? && PrintableExpr(lhs) && PrintableExpr(rhs)
    case UnaryOp(_, operand) => PrintableExpr(operand)
    case Call(_, args) => AllPrintable(args)
    case Collection(at, isSequence, members) =>
      at == Unrecorded && !isSequence && members != [] && AllPrintable(members)
    case If(_, _, _) => false
    case While(_, _, _) => false
    case Func(_, _, _) => false
  }

  predicate AllPrintable(es: seq<Expr>)
    decreases es, 0
  {
    es != [] ==> PrintableExpr(es[0]) && AllPrintable(es[1..])
  }

  predicate PrintableStatement(s: Expr)
    decreases s, 1
  {
    match s
    case If(c, ifBody, elseBody) =>
      PrintableExpr(c) && AllPrintableStatements(ifBody) && AllPrintableStatements(elseBody)
    case _ => PrintableExpr(s)
  }

  predicate AllPrintableStatements(ss: seq<Expr>)
    decreases ss, 0
  {
    ss != [] ==> PrintableStatement(ss[0]) && AllPrintableStatements(ss[1..])
  }

  predicate PrintableProgram(p: Program)
  {
    AllPrintableStatements(p.body)
  }

  /** An expression as tokens. */
  function Print(e: Expr): seq<Lexeme>
    requires PrintableExpr(e)
    decreases e, 1
  {
    match e
    case Real(v) => [Lexeme(TOKEN_REAL, "", "", v, "")]
    case Variable(name) => [Lexeme(TOKEN_IDENT, name, "", 0.0, "")]
    case BinaryOp(op, lhs, rhs) => Operand(lhs) + [Operator(op)] + Operand(rhs)
    case UnaryOp(op, operand) =>
      [Lexeme(TOKEN_UNOP, "", op, 0.0, "")] + (if operand.UnaryOp? then Print(operand) else Operand(operand))
    case Call(name, args) =>
      [KeywordToken(TOKEN_DO), Punct('('), Lexeme(TOKEN_BUILTIN, "", "", 0.0, name)] + PrintArguments(args) + [Punct(')')]
    case Collection(_, _, members) => [Punct('[')] + PrintMembers(members) + [Punct(']')]
  }

  /** An operand: operator nodes in parentheses, anything else as it is. */
  function Operand(e: Expr): seq<Lexeme>
    requires PrintableExpr(e)
    decreases e, 2
  {
    if e.BinaryOp? || e.UnaryOp? then [Punct('(')] + Print(e) + [Punct(')')] else Print(e)
  }

  /** `, argument` for each argument of a `do` call. */
  function PrintArguments(args: seq<Expr>): seq<Lexeme>
    requires AllPrintable(args)
    decreases args
  {
    if args == [] then [] else [Punct(',')] + Operand(args[0]) + PrintArguments(args[1..])
  }

  /** Collection members separated by `,`. */
  function PrintMembers(members: seq<Expr>): seq<Lexeme>
    requires members != [] && AllPrintable(members)
    decreases members
  {
    if |members| == 1 then Operand(members[0])
    else Operand(members[0]) + [Punct(',')] + PrintMembers(members[1..])
  }

  function PrintStatement(s: Expr): seq<Lexeme>
    requires PrintableStatement(s)
    decreases s
  {
    match s
    case If(c, ifBody, elseBody) =>
      [KeywordToken(TOKEN_IF)] + Print(c) + PrintStatements(ifBody)
      + (if elseBody == [] then [] else [KeywordToken(TOKEN_ELSE)] + PrintStatements(elseBody))
      + [KeywordToken(TOKEN_DONE)]
    case UnaryOp(_, _) => Operand(s)
    case _ => Print(s)
  }

  function PrintStatements(ss: seq<Expr>): seq<Lexeme>
    requires AllPrintableStatements(ss)
    decreases ss
  {
    if ss == [] then [] else PrintStatement(ss[0]) + PrintStatements(ss[1..])
  }

  function PrintProgram(p: Program): seq<Lexeme>
    requires PrintableProgram(p)
  {
    PrintStatements(p.body)
  }
}
