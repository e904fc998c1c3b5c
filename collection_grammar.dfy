/** The collection parser of the split front end (src/parser/collection.cc):
    `[ ... ]` is a collection and `| ... |` a sequence. Its members are read by
    the rvalue rule of src/parser.cc. */
module CollectionGrammar {
  import opened Lexer
  import opened Ast
  import opened Grammar

  /** `Collection`: the opening token chooses the closing one; the node keeps
      the opening token's position. */
  function CollectionLiteral(ts: seq<Lexeme>, pos: nat): (r: Parsed<Expr>)
    requires pos < |ts| && (Kind(ts, pos) == '[' as int || Kind(ts, pos) == '|' as int)
    ensures r.Ok? ==> pos < r.next <= |ts|
  {
    var isSequence := Kind(ts, pos) == '|' as int;
    match Members(ts, pos + 1, if isSequence then '|' as int else ']' as int)
    case Failed(m, at) => Failed(m, at)
    case Ok(ms, n) => Ok(Ast.Collection(At(pos), isSequence, ms), n + 1)
  }
}
