/** The `while` parser of the earlier front end (old/src/parser/while.cc),
    over the expression and statement rules of src/parser.cc. */
module WhileGrammar {
  import opened Lexer
  import opened Ast
  import opened Grammar

  /** `While`: the condition, then statements up to `done`, which is consumed. */
  function WhileLoop(ts: seq<Lexeme>, pos: nat): (r: Parsed<Expr>)
    requires pos < |ts| && Kind(ts, pos) == TOKEN_WHILE
    ensures r.Ok? ==> pos < r.next <= |ts|
  {
    match Expression(ts, pos + 1)
    case Failed(m, at) => Failed(m, at)
    case Ok(c, n) =>
      match StatementsUntil(ts, n, {TOKEN_DONE})
      case Failed(m, at) => Failed(m, at)
      case Ok(body, n1) => Ok(Ast.While(At(pos), c, body), n1 + 1)
  }
}
