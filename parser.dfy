/** The C++ parser as it runs: recursive procedures that read the lexer's
    current token and advance it (src/parser.cc, src/parser/collection.cc,
    old/src/parser/while.cc, old/src/parser/func.cc). A failure returns null
    (`None`); the message it reports is the one its grammar function names. */
module Parser {
  import opened Wrappers
  import opened Lexer
  import opened Ast
  import opened Grammar
  import CollectionGrammar
  import WhileGrammar
  import FuncGrammar

  class Parser {
    /** The tokens the lexer yields, in order; past the last one it yields TOKEN_EOF. */
    const tokens: seq<Lexeme>
    /** The index of the lexer's current token. */
    var pos: nat

    predicate Valid()
      reads this`pos
    {
      pos <= |tokens|
    }

    /** The result `r` and the cursor are what the grammar function gave: the
        node and the index after it, or null and the index where it stopped. */
    predicate Agrees<T(==)>(r: Option<T>, p: Parsed<T>)
      reads this`pos
    {
      match p
      case Ok(v, n) => r == Some(v) && pos == n
      case Failed(_, at) => r == None && pos == at
    }

    /** A parser positioned at the first token, as after `lexer::Initialize`. */
    constructor (ts: seq<Lexeme>)
      ensures tokens == ts && pos == 0 && Valid()
    {
      tokens := ts;
      pos := 0;
    }

    /** `lexer::NextToken`: the next token becomes current; at end of input it stays TOKEN_EOF. */
    method NextToken()
      modifies this`pos
      requires Valid()
      ensures Valid() && pos == if old(pos) < |tokens| then old(pos) + 1 else old(pos)
    {
      if pos < |tokens| {
        pos := pos + 1;
      }
    }

    /** `lexer::current_token`. */
    function CurrentToken(): int
      reads this`pos
    {
      Kind(tokens, pos)
    }

    method Ident() returns (r: Option<Expr>)
      modifies this`pos
      requires Valid() && CurrentToken() == TOKEN_IDENT
      ensures Valid() && pos == old(pos) + 1 && r == Some(Variable(tokens[old(pos)].ident))
    {
      var name := tokens[pos].ident;
      NextToken();
      return Some(Variable(name));
    }

    method Real() returns (r: Option<Expr>)
      modifies this`pos
      requires Valid() && CurrentToken() == TOKEN_REAL
      ensures Valid() && pos == old(pos) + 1 && r == Some(Ast.Real(tokens[old(pos)].value))
    {
      var value := tokens[pos].value;
      NextToken();
      return Some(Ast.Real(value));
    }

    method Nested() returns (r: Option<Expr>)
      modifies this`pos
      requires Valid() && CurrentToken() == '(' as int
      ensures Valid() && Agrees(r, Grammar.Nested(tokens, old(pos)))
      decreases |tokens| - pos, 0
    {
      NextToken();
      var e := Expression();
      if e.None? {
        return None;
      }
      if CurrentToken() != ')' as int {
        return None;
      }
      NextToken();
      return e;
    }

    method RValue() returns (r: Option<Expr>)
      modifies this`pos
      requires Valid()
      ensures Valid() && Agrees(r, Grammar.RValue(tokens, old(pos)))
      decreases |tokens| - pos, 1
    {
      var k := CurrentToken();
      if k == TOKEN_IDENT {
        r := Ident();
      } else if k == TOKEN_REAL {
        r := Real();
      } else if k == TOKEN_DO {
        r := Do();
      } else if k == '(' as int {
        r := Nested();
      } else if k == '[' as int {
        r := Collection();
      } else {
        r := None;
      }
    }

    method Do() returns (r: Option<Expr>)
      modifies this`pos
      requires Valid() && CurrentToken() == TOKEN_DO
      ensures Valid() && Agrees(r, Grammar.Do(tokens, old(pos)))
      decreases |tokens| - pos, 0
    {
      NextToken();
      if CurrentToken() != '(' as int {
        return None;
      }
      NextToken();
      if CurrentToken() != TOKEN_BUILTIN {
        return None;
      }
      var builtin := tokens[pos].builtin;
      NextToken();
      var args := ArgumentList();
      if args.None? {
        return None;
      }
      NextToken();
      return Some(Call(builtin, args.value));
    }

    /** The argument loop of `Do`: `, rvalue` pairs until `)`, which is left current. */
    method ArgumentList() returns (r: Option<seq<Expr>>)
      modifies this`pos
      requires Valid()
      ensures Valid() && Agrees(r, Arguments(tokens, old(pos)))
      decreases |tokens| - pos, 0
    {
      ghost var start := pos;
      var args: seq<Expr> := [];
      PrependNothing(Arguments(tokens, pos));
      while true
        invariant Valid() && start <= pos
        invariant Arguments(tokens, start) == Prepend(args, Arguments(tokens, pos))
        decreases |tokens| - pos
      {
        if CurrentToken() == ')' as int {
          break;
        }
        if CurrentToken() != ',' as int {
          return None;
        }
        NextToken();
        var v := RValue();
        if v.None? {
          return None;
        }
        PrependTwice(args, [v.value], Arguments(tokens, pos));
        args := args + [v.value];
      }
      assert args + [] == args;
      return Some(args);
    }

    /** `Collection` of src/parser.cc. */
    method Collection() returns (r: Option<Expr>)
      modifies this`pos
      requires Valid() && CurrentToken() == '[' as int
      ensures Valid() && Agrees(r, Grammar.Collection(tokens, old(pos)))
      decreases |tokens| - pos, 0
    {
      NextToken();
      var members := MemberList(']' as int);
      if members.None? {
        return None;
      }
      NextToken();
      return Some(Ast.Collection(Unrecorded, false, members.value));
    }

    /** The member loop shared by both collection parsers; it stops on the closing token. */
    method MemberList(close: int) returns (r: Option<seq<Expr>>)
      modifies this`pos
      requires Valid() && close != TOKEN_EOF
      ensures Valid() && Agrees(r, Members(tokens, old(pos), close))
      decreases |tokens| - pos, 2
    {
      ghost var start := pos;
      var members: seq<Expr> := [];
      PrependNothing(Members(tokens, pos, close));
      while true
        invariant Valid() && start <= pos
        invariant Members(tokens, start, close) == Prepend(members, Members(tokens, pos, close))
        decreases |tokens| - pos
      {
        var v := RValue();
        if v.None? {
          return None;
        }
        ghost var before := members;
        members := members + [v.value];
        if CurrentToken() == close {
          break;
        }
        if CurrentToken() != ',' as int {
          return None;
        }
        NextToken();
        PrependTwice(before, [v.value], Members(tokens, pos, close));
      }
      return Some(members);
    }

    method Unary() returns (r: Option<Expr>)
      modifies this`pos
      requires Valid()
      ensures Valid() && Agrees(r, Grammar.Unary(tokens, old(pos)))
      decreases |tokens| - pos, 2
    {
      if CurrentToken() != TOKEN_UNOP {
        r := RValue();
        return;
      }
      var op := tokens[pos].op;
      NextToken();
      var operand := Unary();
      if operand.None? {
        return None;
      }
      return Some(UnaryOp(op, operand.value));
    }

    /** `lexer::BinOpPrecedence` on the current token. */
    function BinOpPrecedence(): Option<int>
      reads this`pos
    {
      PrecedenceAt(tokens, pos)
    }

    method BinaryRHS(precedence: int, lhs0: Expr) returns (r: Option<Expr>)
      modifies this`pos
      requires Valid()
      ensures Valid() && Agrees(r, Grammar.BinaryRHS(tokens, old(pos), precedence, lhs0))
      decreases |tokens| - pos, 0
    {
      ghost var spec := Grammar.BinaryRHS(tokens, pos, precedence, lhs0);
      ghost var start := pos;
      var lhs := lhs0;
      while true
        invariant Valid() && start <= pos
        invariant Grammar.BinaryRHS(tokens, pos, precedence, lhs) == spec
        decreases |tokens| - pos
      {
        var tokenPrec := BinOpPrecedence();
        if tokenPrec.None? || tokenPrec.value < precedence {
          return Some(lhs);
        }
        var op := tokens[pos].op;
        NextToken();
        var rhs := RightOperand(tokenPrec.value);
        if rhs.None? {
          return None;
        }
        lhs := BinaryOp(op, lhs, rhs.value);
      }
    }

    /** The right operand loop step of `BinaryRHS`. */
    method RightOperand(tokenPrec: int) returns (r: Option<Expr>)
      modifies this`pos
      requires Valid()
      ensures Valid() && Agrees(r, Grammar.RightOperand(tokens, old(pos), tokenPrec))
      decreases |tokens| - pos, 3
    {
      r := Unary();
      if r.None? {
        return None;
      }
      var nextPrec := BinOpPrecedence();
      if nextPrec.Some? && tokenPrec < nextPrec.value {
        r := BinaryRHS(tokenPrec + 1, r.value);
      }
    }

    method If() returns (r: Option<Expr>)
      modifies this`pos
      requires Valid() && CurrentToken() == TOKEN_IF
      ensures Valid() && Agrees(r, Grammar.If(tokens, old(pos)))
      decreases |tokens| - pos, 0
    {
      NextToken();
      var condition := Expression();
      if condition.None? {
        return None;
      }
      var ifBody := StatementList({TOKEN_ELIF, TOKEN_ELSE, TOKEN_DONE});
      if ifBody.None? {
        return None;
      }
      var elseBody: seq<Expr> := [];
      if CurrentToken() == TOKEN_ELSE {
        NextToken();
        var body := StatementList({TOKEN_DONE});
        if body.None? {
          return None;
        }
        elseBody := body.value;
      }
      if CurrentToken() != TOKEN_DONE {
        return None;
      }
      NextToken();
      return Some(Ast.If(condition.value, ifBody.value, elseBody));
    }

    /** The statement loops of `If`, `While`, `Func` and `Program`: statements
        until the current token is one of `stops`. */
    method StatementList(stops: set<int>) returns (r: Option<seq<Expr>>)
      modifies this`pos
      requires Valid()
      ensures Valid() && Agrees(r, StatementsUntil(tokens, old(pos), stops))
      decreases |tokens| - pos, 5
    {
      ghost var start := pos;
      var body: seq<Expr> := [];
      PrependNothing(StatementsUntil(tokens, pos, stops));
      while CurrentToken() !in stops
        invariant Valid() && start <= pos
        invariant StatementsUntil(tokens, start, stops) == Prepend(body, StatementsUntil(tokens, pos, stops))
        decreases |tokens| - pos
      {
        var s := Statement();
        if s.None? {
          return None;
        }
        PrependTwice(body, [s.value], StatementsUntil(tokens, pos, stops));
        body := body + [s.value];
      }
      assert body + [] == body;
      return Some(body);
    }

    /** `While` of src/parser.cc: not implemented, so it always yields null. */
    method While() returns (r: Option<Expr>)
      ensures r == None
    {
      return None;
    }

    method Expression() returns (r: Option<Expr>)
      modifies this`pos
      requires Valid()
      ensures Valid() && Agrees(r, Grammar.Expression(tokens, old(pos)))
      decreases |tokens| - pos, 3
    {
      var lhs := Unary();
      if lhs.None? {
        return None;
      }
      r := BinaryRHS(0, lhs.value);
    }

    method Statement() returns (r: Option<Expr>)
      modifies this`pos
      requires Valid()
      ensures Valid() && Agrees(r, Grammar.Statement(tokens, old(pos)))
      decreases |tokens| - pos, 4
    {
      var k := CurrentToken();
      if k == TOKEN_IF {
        r := If();
      } else if k == TOKEN_WHILE {
        r := While();
      } else {
        r := Expression();
      }
    }

    /** `Program`: statements up to end of input. The interactive prompt it
        prints is left out. */
    method Program() returns (r: Option<Ast.Program>)
      modifies this`pos
      requires Valid()
      ensures Valid() && Agrees(r, Grammar.Program(tokens, old(pos)))
    {
      var body := StatementList({TOKEN_EOF});
      if body.None? {
        return None;
      }
      return Some(Ast.Program(body.value));
    }

    /** `Collection` of src/parser/collection.cc. */
    method CollectionLiteral() returns (r: Option<Expr>)
      modifies this`pos
      requires Valid() && (CurrentToken() == '[' as int || CurrentToken() == '|' as int)
      ensures Valid() && Agrees(r, CollectionGrammar.CollectionLiteral(tokens, old(pos)))
    {
      var isSequence := CurrentToken() == '|' as int;
      var position := At(pos);
      NextToken();
      var endToken := if isSequence then '|' as int else ']' as int;
      var members := MemberList(endToken);
      if members.None? {
        return None;
      }
      var e := Ast.Collection(position, isSequence, members.value);
      NextToken();
      return Some(e);
    }

    /** `While` of old/src/parser/while.cc. */
    method WhileLoop() returns (r: Option<Expr>)
      modifies this`pos
      requires Valid() && CurrentToken() == TOKEN_WHILE
      ensures Valid() && Agrees(r, WhileGrammar.WhileLoop(tokens, old(pos)))
    {
      var position := At(pos);
      NextToken();
      var cond := Expression();
      if cond.None? {
        return None;
      }
      var body := StatementList({TOKEN_DONE});
      if body.None? {
        return None;
      }
      NextToken();
      return Some(Ast.While(position, cond.value, body.value));
    }

    /** `Func` of old/src/parser/func.cc. */
    method FuncLiteral() returns (r: Option<Expr>)
      modifies this`pos
      requires Valid() && CurrentToken() == TOKEN_FUNC
      ensures Valid() && Agrees(r, FuncGrammar.FuncLiteral(tokens, old(pos)))
    {
      var position := At(pos);
      NextToken();
      if CurrentToken() != '(' as int {
        return None;
      }
      NextToken();
      var params: seq<string> := [];
      if CurrentToken() != ')' as int {
        var list := ParameterList();
        if list.None? {
          return None;
        }
        params := list.value;
      }
      NextToken();
      r := FuncBody(position, params);
    }

    /** The body of `Func`, from the token after the parameter list. */
    method FuncBody(position: Position, params: seq<string>) returns (r: Option<Expr>)
      modifies this`pos
      requires Valid()
      ensures Valid() && Agrees(r, FuncGrammar.FuncBody(tokens, old(pos), position, params))
    {
      if CurrentToken() != '{' as int {
        return None;
      }
      NextToken();
      var body := StatementList({'}' as int});
      if body.None? {
        return None;
      }
      NextToken();
      return Some(Ast.Func(position, params, body.value));
    }

    /** The parameter loop of `Func`: identifiers separated by `,` until `)`,
        which is left current. */
    method ParameterList() returns (r: Option<seq<string>>)
      modifies this`pos
      requires Valid()
      ensures Valid() && Agrees(r, FuncGrammar.Parameters(tokens, old(pos)))
    {
      ghost var start := pos;
      var params: seq<string> := [];
      PrependNothing(FuncGrammar.Parameters(tokens, pos));
      while true
        invariant Valid() && start <= pos
        invariant FuncGrammar.Parameters(tokens, start) == Prepend(params, FuncGrammar.Parameters(tokens, pos))
        decreases |tokens| - pos
      {
        if CurrentToken() != TOKEN_IDENT {
          return None;
        }
        ghost var before := params;
        var name := tokens[pos].ident;
        params := params + [name];
        NextToken();
        if CurrentToken() == ')' as int {
          break;
        }
        if CurrentToken() != ',' as int {
          return None;
        }
        NextToken();
        PrependTwice(before, [name], FuncGrammar.Parameters(tokens, pos));
      }
      return Some(params);
    }
  }
}
