/** The syntax tree the C++ parser builds (src/ast.h and the node headers
    under src/ast/): one constructor per node class. */
module Ast {

  /** Where a node came from: the index of its first token, or nothing for the
      node classes that keep no position. */
  datatype Position = Unrecorded | At(index: nat)

  datatype Expr =
    | Real(value: real)
    | Variable(name: string)
    | BinaryOp(op: string, lhs: Expr, rhs: Expr)
    | UnaryOp(op: string, operand: Expr)
    | If(condition: Expr, ifBody: seq<Expr>, elseBody: seq<Expr>)
    | Call(name: string, args: seq<Expr>)
    | Collection(at: Position, isSequence: bool, members: seq<Expr>)
    | While(at: Position, condition: Expr, body: seq<Expr>)
    | Func(at: Position, params: seq<string>, body: seq<Expr>)

  /** The statements of a whole source file, in order. */
  datatype Program = Program(body: seq<Expr>)
}
