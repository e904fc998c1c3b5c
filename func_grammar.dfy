/** The function-literal parser of the earlier front end (old/src/parser/func.cc),
    over the statement rule of src/parser.cc. */
module FuncGrammar {
  import opened Lexer
  import opened Ast
  import opened Grammar

  /** The parameter loop: identifiers separated by `,`; on success `next` is
      the index of the closing `)`. */
  function Parameters(ts: seq<Lexeme>, pos: nat): (r: Parsed<seq<string>>)
    requires pos <= |ts|
    ensures r.Ok? ==> pos < r.next < |ts| && Kind(ts, r.next) == ')' as int && r.value != []
    decreases |ts| - pos
  {
    if Kind(ts, pos) != TOKEN_IDENT then Failed("Expected identifier as function argument", pos)
    else if Kind(ts, pos + 1) == ')' as int then Ok([ts[pos].ident], pos + 1)
    else if Kind(ts, pos + 1) != ',' as int then Failed("Expected ',' between args in func", pos + 1)
    else Prepend([ts[pos].ident], Parameters(ts, pos + 2))
  }

  /** `Func`: `func`, `(`, parameters (possibly none), `)`, `{`, statements up
      to `}`, which is consumed. */
  function FuncLiteral(ts: seq<Lexeme>, pos: nat): (r: Parsed<Expr>)
    requires pos < |ts| && Kind(ts, pos) == TOKEN_FUNC
    ensures r.Ok? ==> pos < r.next <= |ts|
  {
    if Kind(ts, pos + 1) != '(' as int then Failed("Expected argument list after 'func'", pos + 1)
    else
      var params := if Kind(ts, pos + 2) == ')' as int then Ok([], pos + 2) else Parameters(ts, pos + 2);
      match params
      case Failed(m, at) => Failed(m, at)
      case Ok(ps, n) => FuncBody(ts, n + 1, At(pos), ps)
  }

  /** What follows the parameter list: `{`, statements up to `}`, which is consumed. */
  function FuncBody(ts: seq<Lexeme>, pos: nat, at: Position, ps: seq<string>): (r: Parsed<Expr>)
    requires pos <= |ts|
    ensures r.Ok? ==> pos < r.next <= |ts|
  {
    if Kind(ts, pos) != '{' as int then Failed("Expected '{' after arg list in func", pos)
    else
      match StatementsUntil(ts, pos + 1, {'}' as int})
      case Failed(m, at) => Failed(m, at)
      case Ok(body, n) => Ok(Ast.Func(at, ps, body), n + 1)
  }
}
