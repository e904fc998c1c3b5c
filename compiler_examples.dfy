/** The programs of the tests in src/compiler/mod.rs, written as the token
    trees the grammar produces for them, compiled from `Compiler::new`. */
module CompilerExamples {
  import opened Compiler
  import CompilerProperties

  /** A literal as an operand of an operator chain. */
  function Number(v: real): Token {
    Term(Factor(Real(v)), [])
  }

  /** A variable as an operand of an operator chain. */
  function Variable(name: string): Token {
    Term(Factor(Identifier(name)), [])
  }

  function R(i: nat): Reg {
    Reg(i, RealKind)
  }

  function I(i: nat): Reg {
    Reg(i, IntKind)
  }

  function V(i: nat): Reg {
    Reg(i, VecKind)
  }

  /** The state `Program` visits its statements in. */
  function Opened(s: State): State {
    s.(rodata := s.rodata + [".data"], assembly := s.assembly + [CodeSection])
  }

  /** `Factor`, and a `Term` or `Expression` without operators, emit
      nothing of their own: a successful visit has passed the integrity
      check already. */
  lemma Transparent(s: State, x: Token)
    ensures Visit(s, Factor(x)) == Visit(s, x)
    ensures Visit(s, Term(x, [])) == Visit(s, x)
    ensures Visit(s, Expression(x, [])) == Visit(s, x)
  {
    FactorTransparent(s, x);
    ChainTransparent(s, Term(x, []));
    ChainTransparent(s, Expression(x, []));
  }

  lemma FactorTransparent(s: State, x: Token)
    ensures Visit(s, Factor(x)) == Visit(s, x)
  {
    assert VisitNode(s, Factor(x)) == Visit(s, x);
  }

  /** A chain without operators is its first operand. */
  lemma ChainTransparent(s: State, t: Token)
    requires (t.Term? || t.Expression?) && t.rest == []
    ensures Visit(s, t) == Visit(s, t.left)
  {
    match Visit(s, t.left) {
      case Done(s1) =>
        assert Operands(s1, t, 0) == Done(s1);
        assert VisitNode(s, t) == Done(s1);
      case _ =>
        assert VisitNode(s, t) == Visit(s, t.left);
    }
  }

  /** The wrappers around a literal. */
  lemma NumberVisit(s: State, v: real)
    ensures Visit(s, Number(v)) == Visit(s, Real(v))
    ensures Visit(s, Expression(Number(v), [])) == Visit(s, Real(v))
  {
    Transparent(s, Real(v));
    Transparent(s, Factor(Real(v)));
    Transparent(s, Number(v));
  }

  /** The wrappers around a variable. */
  lemma VariableVisit(s: State, name: string)
    ensures Visit(s, Variable(name)) == Visit(s, Identifier(name))
    ensures Visit(s, Expression(Variable(name), [])) == Visit(s, Identifier(name))
  {
    Transparent(s, Identifier(name));
    Transparent(s, Factor(Identifier(name)));
    Transparent(s, Variable(name));
  }

  /** An expression with one operator: left operand, right operand, operator. */
  lemma OneOperator(s: State, left: Token, op: Token, right: Token)
    ensures Visit(s, Expression(left, [(op, right)])) ==
      match Visit(s, left)
      case Done(s1) =>
        (match Visit(s1, right)
         case Done(s2) => Visit(s2, op)
         case other => other)
      case other => other
  {
    var t := Expression(left, [(op, right)]);
    match Visit(s, left) {
      case Done(s1) =>
        match Visit(s1, right) {
          case Done(s2) =>
            match Visit(s2, op) {
              case Done(s3) =>
                assert Operands(s3, t, 1) == Done(s3);
                assert Operands(s1, t, 0) == Done(s3);
              case _ =>
                assert Operands(s1, t, 0) == Visit(s2, op);
            }
          case _ =>
            assert Operands(s1, t, 0) == Visit(s1, right);
        }
      case _ =>
    }
  }

  /** A program of one statement. */
  lemma SingleStatement(s: State, e: Token)
    ensures Visit(s, Program([e])) ==
      match Visit(Opened(s), e)
      case Done(s1) => Done(s1.(assembly := s1.assembly + [Halt]))
      case other => other
  {
    var t := Program([e]);
    ProgramVisit(s, t);
    match Visit(Opened(s), e) {
      case Done(s1) =>
        assert Statements(s1, t, 1) == Done(s1);
      case _ =>
    }
  }

  /** A program that is not empty ends with `halt` after its statements, and
      its statements have passed the integrity check already. */
  lemma ProgramVisit(s: State, t: Token)
    requires t.Program? && t.expressions != []
    ensures var v := Statements(Opened(s), t, 0);
      Visit(s, t) == if v.Done? then Done(v.state.(assembly := v.state.assembly + [Halt])) else v
  {
    var v := Statements(Opened(s), t, 0);
    if v.Done? {
      StatementsIntegrity(Opened(s), t, 0);
      AssemblyKeepsIntegrity(v.state, [Halt]);
    }
  }

  /** The state after at least one statement has passed the integrity
      check. */
  lemma {:induction false} StatementsIntegrity(s: State, t: Token, i: nat)
    requires t.Program? && i < |t.expressions|
    ensures Statements(s, t, i).Done? ==> Integrity(Statements(s, t, i).state)
    decreases |t.expressions| - i
  {
    if Visit(s, t.expressions[i]).Done? && i + 1 < |t.expressions| {
      StatementsIntegrity(Visit(s, t.expressions[i]).state, t, i + 1);
    }
  }

  /** A state of the examples: every free list and the used stack given,
      the `.data` directive written. */
  function Stage(ints: seq<Reg>, reals: seq<Reg>, vecs: seq<Reg>, used: seq<Reg>,
                 assembly: seq<Line>, variables: map<string, nat>): State {
    State(ints, reals, vecs, used, [".data"], assembly, variables)
  }

  /** A register of a bank is not among the bank's registers below it. */
  lemma AboveBank(k: Kind, i: nat, n: nat)
    requires n <= i < REGISTER_COUNT
    ensures Reg(i, k) !in Bank(k)[..n]
  {
    var b := Bank(k);
    forall j | 0 <= j < n
      ensures b[..n][j] != Reg(i, k)
    {
      assert b[..n][j] == Reg(j, k);
    }
  }

  /** A literal whose real register was not free twice keeps the integrity check
      passing. */
  lemma LiteralStep(s: State, v: real)
    requires Integrity(s) && s.freeReal != []
    requires Last(s.freeReal).kind == RealKind && Last(s.freeReal) !in DropLast(s.freeReal)
    ensures Visit(s, Number(v)) == Done(s.(freeReal := DropLast(s.freeReal),
      assembly := s.assembly + [LoadReal(Last(s.freeReal), v)], used := s.used + [Last(s.freeReal)]))
  {
    var s1 := LoadLiteral(s, v).state;
    forall i | 0 <= i < |s1.used|
      ensures s1.used[i] !in Free(s1, s1.used[i].kind)
    {
      var r := s1.used[i];
      if i < |s.used| {
        assert r == s.used[i];
        assert r !in Free(s, r.kind);
        forall j | 0 <= j < |s1.freeReal|
          ensures s1.freeReal[j] != r || r.kind != RealKind
        {
          assert s1.freeReal[j] == s.freeReal[j];
        }
      }
    }
    NumberVisit(s, v);
  }

  const BI := Bank(IntKind)
  const BR := Bank(RealKind)
  const BV := Bank(VecKind)

  /** A literal as a whole right-hand side, argument or element. */
  function Operand(v: real): Token {
    Expression(Number(v), [])
  }

  /** The four arithmetic operators and their mnemonics. */
  predicate Arithmetic(op: Token, name: string) {
    match op
    case AdditionOp => name == "add"
    case SubtractionOp => name == "sub"
    case MultiplicationOp => name == "mul"
    case DivisionOp => name == "div"
    case _ => false
  }

  /** The six comparison operators and their mnemonics. */
  predicate Comparison(op: Token, name: string) {
    match op
    case EqualsOp => name == "eq"
    case NotEqualsOp => name == "neq"
    case GreaterThanOp => name == "gt"
    case GreaterThanEqualsOp => name == "gte"
    case LessThanOp => name == "lt"
    case LessThanEqualsOp => name == "lte"
    case _ => false
  }

  lemma OperatorNode(s: State, op: Token, name: string)
    requires Arithmetic(op, name) || Comparison(op, name)
    ensures VisitNode(s, op) == Binop(s, name, Comparison(op, name))
  {
  }

  /** A comparison: left operand, right operand, operator. */
  lemma CompareVisit(s: State, left: Token, op: Token, right: Token)
    ensures Visit(s, Compare(left, op, right)) ==
      match Visit(s, left)
      case Done(s1) =>
        (match Visit(s1, right)
         case Done(s2) => Visit(s2, op)
         case other => other)
      case other => other
  {
  }

  /** A program of two statements. */
  lemma TwoStatements(s: State, e1: Token, e2: Token)
    ensures var v1 := Visit(Opened(s), e1);
      Visit(s, Program([e1, e2])) ==
        if !v1.Done? then v1
        else
          var v2 := Visit(v1.state, e2);
          if !v2.Done? then v2 else Done(v2.state.(assembly := v2.state.assembly + [Halt]))
  {
    var t := Program([e1, e2]);
    ProgramVisit(s, t);
    match Visit(Opened(s), e1) {
      case Done(s1) =>
        match Visit(s1, e2) {
          case Done(s2) =>
            assert Statements(s2, t, 2) == Done(s2);
            assert Statements(s1, t, 1) == Done(s2);
          case _ =>
            assert Statements(s1, t, 1) == Visit(s1, e2);
        }
      case _ =>
    }
  }

  /** A fresh program after its first literal, `a`, is loaded into r31. */
  function OneLoaded(a: real): State {
    Stage(BI, BR[..31], BV, [R(31)], [CodeSection, LoadReal(R(31), a)], map[])
  }

  /** ... and its second, `b`, into r30. */
  function TwoLoaded(a: real, b: real): State {
    Stage(BI, BR[..30], BV, [R(31), R(30)], [CodeSection, LoadReal(R(31), a), LoadReal(R(30), b)], map[])
  }

  /** ... and an arithmetic operator `name` has put the result in r29. */
  function Combined(name: string, a: real, b: real): State {
    Stage(BI, BR[..29] + [R(31), R(30)], BV, [R(29)],
      [CodeSection, LoadReal(R(31), a), LoadReal(R(30), b), Instruction(name, R(29), R(31), R(30))], map[])
  }

  /** Two literal operands: r31 and r30 hold them. */
  lemma LiteralOperands(a: real, b: real)
    ensures Visit(Opened(Initial), Number(a)) == Done(OneLoaded(a))
    ensures Visit(OneLoaded(a), Number(b)) == Done(TwoLoaded(a, b))
  {
    AboveBank(RealKind, 31, 31);
    LiteralStep(Opened(Initial), a);
    assert BR[..31][..30] == BR[..30];
    AboveBank(RealKind, 30, 30);
    LiteralStep(OneLoaded(a), b);
  }

  /** An arithmetic operator on two literals: the result goes to r29 and
      r31, r30 are freed. */
  lemma ArithmeticOperator(op: Token, name: string, a: real, b: real)
    requires Arithmetic(op, name)
    ensures Visit(TwoLoaded(a, b), op) == Done(Combined(name, a, b))
  {
    OperatorNode(TwoLoaded(a, b), op, name);
    AboveBank(RealKind, 29, 29);
  }

  /** Two literals and an arithmetic operator between them. */
  lemma ArithmeticVisit(op: Token, name: string, a: real, b: real)
    requires Arithmetic(op, name)
    ensures Visit(Opened(Initial), Expression(Number(a), [(op, Number(b))])) == Done(Combined(name, a, b))
  {
    LiteralOperands(a, b);
    ArithmeticOperator(op, name, a, b);
    OneOperator(Opened(Initial), Number(a), op, Number(b));
  }

  /** The arithmetic tests of src/compiler/mod.rs (`1.2 + 3.4` and the
      like): the operands take r31 and r30, the result r29, the operands go
      back to the real free list (31 real registers free, all integer and
      vector ones) and the program ends with `halt`. */
  lemma ArithmeticExample(op: Token, name: string)
    requires Arithmetic(op, name)
    ensures Visit(Initial, Program([Expression(Number(1.2), [(op, Number(3.4))])])) ==
      Done(Stage(BI, BR[..29] + [R(31), R(30)], BV, [R(29)],
        [CodeSection, LoadReal(R(31), 1.2), LoadReal(R(30), 3.4), Instruction(name, R(29), R(31), R(30)), Halt], map[]))
  {
    ArithmeticVisit(op, name, 1.2, 3.4);
    SingleStatement(Initial, Expression(Number(1.2), [(op, Number(3.4))]));
  }

  /** A comparison of two literals, operator: the result is an integer
      register, i31, and both real operands are freed. */
  lemma ComparisonOperator(op: Token, name: string, a: real, b: real)
    requires Comparison(op, name)
    ensures Visit(TwoLoaded(a, b), op) ==
      Done(Stage(BI[..31], BR[..30] + [R(31), R(30)], BV, [I(31)],
        [CodeSection, LoadReal(R(31), a), LoadReal(R(30), b), Instruction(name, I(31), R(31), R(30))], map[]))
  {
    OperatorNode(TwoLoaded(a, b), op, name);
    AboveBank(IntKind, 31, 31);
  }

  /** The comparison tests of src/compiler/mod.rs with two literals
      (`1.2 neq 3.4` and the like): the result is i31 (31 integer registers
      free, all real ones). */
  lemma ComparisonExample(op: Token, name: string)
    requires Comparison(op, name)
    ensures Visit(Initial, Program([Compare(Operand(1.2), op, Operand(3.4))])) ==
      Done(Stage(BI[..31], BR[..30] + [R(31), R(30)], BV, [I(31)],
        [CodeSection, LoadReal(R(31), 1.2), LoadReal(R(30), 3.4), Instruction(name, I(31), R(31), R(30)), Halt], map[]))
  {
    LiteralOperands(1.2, 3.4);
    NumberVisit(Opened(Initial), 1.2);
    NumberVisit(OneLoaded(1.2), 3.4);
    ComparisonOperator(op, name, 1.2, 3.4);
    CompareVisit(Opened(Initial), Operand(1.2), op, Operand(3.4));
    SingleStatement(Initial, Compare(Operand(1.2), op, Operand(3.4)));
  }

  /** `1.2 + 4.1` followed by the literal 3.4, which reuses r30. */
  function SumThenLoaded(): State {
    Stage(BI, BR[..29] + [R(31)], BV, [R(29), R(30)],
      [CodeSection, LoadReal(R(31), 1.2), LoadReal(R(30), 4.1), Instruction("add", R(29), R(31), R(30)), LoadReal(R(30), 3.4)], map[])
  }

  lemma EqualsChainOperands()
    ensures Visit(Opened(Initial), Expression(Number(1.2), [(AdditionOp, Number(4.1))])) == Done(Combined("add", 1.2, 4.1))
    ensures Visit(Combined("add", 1.2, 4.1), Operand(3.4)) == Done(SumThenLoaded())
  {
    var s3 := Combined("add", 1.2, 4.1);
    ArithmeticVisit(AdditionOp, "add", 1.2, 4.1);
    assert Integrity(s3) by { AboveBank(RealKind, 29, 29); }
    assert (BR[..29] + [R(31)]) + [R(30)] == BR[..29] + [R(31), R(30)];
    assert R(30) !in BR[..29] + [R(31)] by { AboveBank(RealKind, 30, 29); }
    LiteralStep(s3, 3.4);
    NumberVisit(s3, 3.4);
  }

  lemma EqualsChainOperator()
    ensures Visit(SumThenLoaded(), EqualsOp) == Done(Stage(BI[..31], BR[..29] + [R(31), R(29), R(30)], BV, [I(31)],
      [CodeSection, LoadReal(R(31), 1.2), LoadReal(R(30), 4.1), Instruction("add", R(29), R(31), R(30)),
       LoadReal(R(30), 3.4), Instruction("eq", I(31), R(29), R(30))], map[]))
  {
    AboveBank(IntKind, 31, 31);
  }

  /** `test_equals`, `1.2 + 4.1 eq 3.4`: the sum is r29, the literal 3.4
      reuses r30, and the comparison's result is i31; every real register
      is free again. */
  lemma EqualsChainExample()
    ensures Visit(Initial, Program([Compare(Expression(Number(1.2), [(AdditionOp, Number(4.1))]), EqualsOp, Operand(3.4))])) ==
      Done(Stage(BI[..31], BR[..29] + [R(31), R(29), R(30)], BV, [I(31)],
        [CodeSection, LoadReal(R(31), 1.2), LoadReal(R(30), 4.1), Instruction("add", R(29), R(31), R(30)),
         LoadReal(R(30), 3.4), Instruction("eq", I(31), R(29), R(30)), Halt], map[]))
  {
    EqualsChainOperands();
    EqualsChainOperator();
    CompareVisit(Opened(Initial), Expression(Number(1.2), [(AdditionOp, Number(4.1))]), EqualsOp, Operand(3.4));
    SingleStatement(Initial, Compare(Expression(Number(1.2), [(AdditionOp, Number(4.1))]), EqualsOp, Operand(3.4)));
  }

  /** `foo = 42.0` on a fresh program: the literal in r31, bound to `foo`. */
  function FooBound(): State {
    Stage(BI, BR[..31], BV, [R(31)], [CodeSection, LoadReal(R(31), 42.0)], map["foo" := 0])
  }

  lemma AssignStep()
    ensures Visit(Opened(Initial), Assign("foo", Operand(42.0))) == Done(FooBound())
  {
    LiteralOperands(42.0, 0.0);
    NumberVisit(Opened(Initial), 42.0);
    AboveBank(RealKind, 31, 31);
  }

  /** `test_assign`, `foo = 42.0`: `foo` names position 0 of the used stack,
      which holds r31. */
  lemma AssignExample()
    ensures Visit(Initial, Program([Assign("foo", Operand(42.0))])) ==
      Done(Stage(BI, BR[..31], BV, [R(31)], [CodeSection, LoadReal(R(31), 42.0), Halt], map["foo" := 0]))
  {
    AssignStep();
    SingleStatement(Initial, Assign("foo", Operand(42.0)));
  }

  lemma CopyStep()
    ensures Visit(FooBound(), Assign("bar", Expression(Variable("foo"), []))) ==
      Done(Stage(BI, BR[..30], BV, [R(31), R(30)],
        [CodeSection, LoadReal(R(31), 42.0), LoadInt(I(31), 0), Instruction("add", R(30), I(31), R(31))],
        map["foo" := 0, "bar" := 1]))
  {
    var s1 := FooCopied();
    var s2 := Stage(BI, BR[..30], BV, [R(31), R(30)], s1.assembly, map["foo" := 0, "bar" := 1]);
    assert Visit(FooBound(), Expression(Variable("foo"), [])) == Done(s1) by { CopyFoo(); }
    assert Bind(s1, "bar") == Done(s2);
    assert Integrity(s2) by { TwoRealsIntegrity(s2); }
  }

  /** The state after `foo` has been copied into r30. */
  function FooCopied(): State {
    Stage(BI, BR[..30], BV, [R(31), R(30)],
      [CodeSection, LoadReal(R(31), 42.0), LoadInt(I(31), 0), Instruction("add", R(30), I(31), R(31))],
      map["foo" := 0])
  }

  /** Reading `foo` copies r31 into r30 through the zero register i31. */
  lemma CopyFoo()
    ensures Visit(FooBound(), Expression(Variable("foo"), [])) == Done(FooCopied())
  {
    var s := FooBound();
    VariableVisit(s, "foo");
    assert BR[..31][..30] == BR[..30];
    assert Last(BR[..31]) == R(30);
    assert CopyVariable(s, "foo") == Done(FooCopied());
    assert Integrity(FooCopied()) by { TwoRealsIntegrity(FooCopied()); }
  }

  /** r31 and r30 in use and the reals below them free satisfy the check. */
  lemma TwoRealsIntegrity(s: State)
    requires s.freeReal == BR[..30] && s.used == [R(31), R(30)]
    ensures Integrity(s)
  {
    AboveBank(RealKind, 31, 30);
    AboveBank(RealKind, 30, 30);
  }

  /** `test_identifier`, `foo = 42.0` then `bar = foo`: the copy is made in
      r30 through the zero register i31, and `bar` names position 1. */
  lemma IdentifierExample()
    ensures Visit(Initial, Program([Assign("foo", Operand(42.0)), Assign("bar", Expression(Variable("foo"), []))])) ==
      Done(Stage(BI, BR[..30], BV, [R(31), R(30)],
        [CodeSection, LoadReal(R(31), 42.0), LoadInt(I(31), 0), Instruction("add", R(30), I(31), R(31)), Halt],
        map["foo" := 0, "bar" := 1]))
  {
    AssignStep();
    CopyStep();
    TwoStatements(Initial, Assign("foo", Operand(42.0)), Assign("bar", Expression(Variable("foo"), [])));
  }

  /** `test_builtin`, `do(write, 42.0)`: the literal is printed through the
      syscall register i31 and every register is free again. */
  lemma WriteExample()
    ensures Visit(Initial, Program([Builtin("write", [Operand(42.0)])])) ==
      Done(Stage(BI, BR[..31] + [R(31)], BV, [],
        [CodeSection, LoadReal(R(31), 42.0), LoadInt(I(31), 0), Syscall(I(31), R(31)), Halt], map[]))
  {
    LiteralOperands(42.0, 0.0);
    NumberVisit(Opened(Initial), 42.0);
    assert Visit(Opened(Initial), Builtin("write", [Operand(42.0)])) ==
      Done(Stage(BI, BR[..31] + [R(31)], BV, [], [CodeSection, LoadReal(R(31), 42.0), LoadInt(I(31), 0), Syscall(I(31), R(31))], map[]));
    SingleStatement(Initial, Builtin("write", [Operand(42.0)]));
  }

  /** `test_builtin`, `do(foo)`: an unknown builtin is an error. */
  lemma UnknownBuiltinExample()
    ensures Visit(Initial, Program([Builtin("foo", [])])) == Failed("Unknown builtin: foo", Opened(Initial))
  {
    SingleStatement(Initial, Builtin("foo", []));
  }

  /** A literal element of a collection: loaded into the last free real
      register, stored at the cursor, that register freed again and the
      cursor advanced; only the assembly changes. */
  lemma LiteralElement(s: State, v: real, base: Reg)
    requires Integrity(s) && s.freeReal != [] && s.freeInt != []
    requires Last(s.freeReal).kind == RealKind && Last(s.freeReal) !in DropLast(s.freeReal)
    ensures Visit(s, Operand(v)).Done?
    ensures StoreElement(Visit(s, Operand(v)).state, base) ==
      Done(s.(assembly := s.assembly + [LoadReal(Last(s.freeReal), v), StoreWord(base, Last(s.freeReal)),
                                        LoadInt(Last(s.freeInt), F64_SIZE), Instruction("add", base, base, Last(s.freeInt))]))
  {
    var r := Last(s.freeReal);
    LiteralStep(s, v);
    NumberVisit(s, v);
    var s1 := s.(freeReal := DropLast(s.freeReal), assembly := s.assembly + [LoadReal(r, v)], used := s.used + [r]);
    assert Visit(s, Operand(v)) == Done(s1);
    StoreLoaded(s, s1, r, base);
    var inc := Last(s.freeInt);
    assert s1.assembly + [StoreWord(base, r), LoadInt(inc, F64_SIZE), Instruction("add", base, base, inc)] ==
      s.assembly + [LoadReal(r, v), StoreWord(base, r), LoadInt(inc, F64_SIZE), Instruction("add", base, base, inc)];
  }

  /** Storing the register a load has just pushed hands it back to the free
      reals, so only the assembly differs from before the load. */
  lemma StoreLoaded(s: State, s1: State, r: Reg, base: Reg)
    requires s.freeReal != [] && s.freeInt != [] && r == Last(s.freeReal) && r.kind == RealKind
    requires s1 == s.(freeReal := DropLast(s.freeReal), assembly := s1.assembly, used := s.used + [r])
    ensures StoreElement(s1, base) ==
      Done(s.(assembly := s1.assembly + [StoreWord(base, r), LoadInt(Last(s.freeInt), F64_SIZE),
                                         Instruction("add", base, base, Last(s.freeInt))]))
  {
    assert DropLast(s1.used) == s.used;
    assert DropLast(s.freeReal) + [r] == s.freeReal;
  }

  /** One turn of the loop of a collection on a literal element. */
  lemma LiteralElementTurn(t: State, c: Token, i: nat, v: real, base: Reg)
    requires c.Coll? && i < |c.values| && c.values[i] == Operand(v)
    requires Integrity(t) && t.freeReal != [] && t.freeInt != []
    requires Last(t.freeReal).kind == RealKind && Last(t.freeReal) !in DropLast(t.freeReal)
    ensures Elements(t, c, i, base) ==
      Elements(t.(assembly := t.assembly + [LoadReal(Last(t.freeReal), v), StoreWord(base, Last(t.freeReal)),
                                            LoadInt(Last(t.freeInt), F64_SIZE), Instruction("add", base, base, Last(t.freeInt))]), c, i + 1, base)
  {
    LiteralElement(t, v, base);
  }

  /** The top of the free reals `BR[..n]` is r(n-1), which appears only once. */
  lemma TopReal(n: nat)
    requires 1 <= n <= REGISTER_COUNT
    ensures Last(BR[..n]) == R(n - 1) && R(n - 1).kind == RealKind && R(n - 1) !in DropLast(BR[..n])
  {
    AboveBank(RealKind, n - 1, n - 1);
    assert DropLast(BR[..n]) == BR[..n - 1];
  }

  /** Only the assembly changes in a collection loop on literals, which the
      integrity of the register lists does not depend on. */
  lemma AssemblyKeepsIntegrity(t: State, lines: seq<Line>)
    requires Integrity(t)
    ensures Integrity(t.(assembly := t.assembly + lines))
  {
    var t1 := t.(assembly := t.assembly + lines);
    forall i | 0 <= i < |t1.used|
      ensures t1.used[i] !in Free(t1, t1.used[i].kind)
    {
      assert Free(t1, t1.used[i].kind) == Free(t, t.used[i].kind);
    }
  }

  /** The last turn of the loop of a collection of two literal elements. */
  lemma LastLiteralTurn(t: State, c: Token, v: real, base: Reg)
    requires c.Coll? && |c.values| == 2 && c.values[1] == Operand(v)
    requires Integrity(t) && t.freeReal != [] && t.freeInt != []
    requires Last(t.freeReal).kind == RealKind && Last(t.freeReal) !in DropLast(t.freeReal)
    ensures Elements(t, c, 1, base) ==
      Done(t.(assembly := t.assembly + [LoadReal(Last(t.freeReal), v), StoreWord(base, Last(t.freeReal)),
                                        LoadInt(Last(t.freeInt), F64_SIZE), Instruction("add", base, base, Last(t.freeInt))]))
  {
    LiteralElementTurn(t, c, 1, v, base);
  }

  /** The loop over a collection of two literal elements, `[a, b]`: both go
      through the last free real register and advance the cursor through the
      last free integer register. */
  lemma TwoLiteralElements(t: State, c: Token, a: real, b: real, base: Reg)
    requires c == Coll([Operand(a), Operand(b)])
    requires Integrity(t) && t.freeReal != [] && t.freeInt != []
    requires Last(t.freeReal).kind == RealKind && Last(t.freeReal) !in DropLast(t.freeReal)
    ensures var r, inc := Last(t.freeReal), Last(t.freeInt);
      Elements(t, c, 0, base) ==
        Done(t.(assembly := t.assembly + [LoadReal(r, a), StoreWord(base, r), LoadInt(inc, F64_SIZE), Instruction("add", base, base, inc),
                                          LoadReal(r, b), StoreWord(base, r), LoadInt(inc, F64_SIZE), Instruction("add", base, base, inc)]))
  {
    var r, inc := Last(t.freeReal), Last(t.freeInt);
    var first := [LoadReal(r, a), StoreWord(base, r), LoadInt(inc, F64_SIZE), Instruction("add", base, base, inc)];
    var second := [LoadReal(r, b), StoreWord(base, r), LoadInt(inc, F64_SIZE), Instruction("add", base, base, inc)];
    var t1 := t.(assembly := t.assembly + first);
    LiteralElementTurn(t, c, 0, a, base);
    AssemblyKeepsIntegrity(t, first);
    LastLiteralTurn(t1, c, b, base);
    assert t1.(assembly := t1.assembly + second).assembly == t.assembly + (first + second);
  }

  /** The loop of `[0, 1.2]` in `test_collection`. */
  lemma CollectionLoop()
    ensures Elements(StartCollection(Opened(Initial), 2), Coll([Operand(0.0), Operand(1.2)]), 0, I(30)) ==
      Done(Stage(BI[..30], BR, BV, [],
        [CodeSection, Alloc(I(31), 16), LoadInt(I(30), 0), Instruction("add", I(30), I(30), I(31)),
         LoadReal(R(31), 0.0), StoreWord(I(30), R(31)), LoadInt(I(29), 8), Instruction("add", I(30), I(30), I(29)),
         LoadReal(R(31), 1.2), StoreWord(I(30), R(31)), LoadInt(I(29), 8), Instruction("add", I(30), I(30), I(29))], map[]))
  {
    var t := CollectionStarted();
    TwoLiteralElements(t, Coll([Operand(0.0), Operand(1.2)]), 0.0, 1.2, I(30));
    CollectionLoopLines(t);
  }

  /** The lines of the two elements follow those of the start. */
  lemma CollectionLoopLines(t: State)
    requires t == Stage(BI[..30], BR, BV, [], [CodeSection, Alloc(I(31), 16), LoadInt(I(30), 0), Instruction("add", I(30), I(30), I(31))], map[])
    ensures t.(assembly := t.assembly + [LoadReal(R(31), 0.0), StoreWord(I(30), R(31)), LoadInt(I(29), F64_SIZE), Instruction("add", I(30), I(30), I(29)),
                                         LoadReal(R(31), 1.2), StoreWord(I(30), R(31)), LoadInt(I(29), F64_SIZE), Instruction("add", I(30), I(30), I(29))]) ==
      Stage(BI[..30], BR, BV, [],
        [CodeSection, Alloc(I(31), 16), LoadInt(I(30), 0), Instruction("add", I(30), I(30), I(31)),
         LoadReal(R(31), 0.0), StoreWord(I(30), R(31)), LoadInt(I(29), 8), Instruction("add", I(30), I(30), I(29)),
         LoadReal(R(31), 1.2), StoreWord(I(30), R(31)), LoadInt(I(29), 8), Instruction("add", I(30), I(30), I(29))], map[])
  {
  }

  /** The start of `[0, 1.2]` in `test_collection`: i31 and i30 are taken
      for the allocation and the cursor. */
  lemma CollectionStarted() returns (t: State)
    ensures t == StartCollection(Opened(Initial), 2)
    ensures t == Stage(BI[..30], BR, BV, [], [CodeSection, Alloc(I(31), 16), LoadInt(I(30), 0), Instruction("add", I(30), I(30), I(31))], map[])
    ensures Integrity(t) && t.freeReal != [] && t.freeInt != [] && Last(t.freeInt) == I(29)
    ensures Last(t.freeReal) == R(31) && R(31).kind == RealKind && R(31) !in DropLast(t.freeReal)
  {
    assert BR[..32] == BR;
    t := Stage(BI[..30], BR, BV, [], [CodeSection, Alloc(I(31), 16), LoadInt(I(30), 0), Instruction("add", I(30), I(30), I(31))], map[]);
    TopReal(32);
  }

  /** The statement `[0, 1.2]` of `test_collection`. */
  lemma CollectionStep()
    ensures Visit(Opened(Initial), Coll([Operand(0.0), Operand(1.2)])) ==
      Done(Stage(BI[..30] + [I(30), I(31)], BR, BV[..31], [V(31)],
        [CodeSection, Alloc(I(31), 16), LoadInt(I(30), 0), Instruction("add", I(30), I(30), I(31)),
         LoadReal(R(31), 0.0), StoreWord(I(30), R(31)), LoadInt(I(29), 8), Instruction("add", I(30), I(30), I(29)),
         LoadReal(R(31), 1.2), StoreWord(I(30), R(31)), LoadInt(I(29), 8), Instruction("add", I(30), I(30), I(29)),
         LoadVector(V(31), I(31), 16)], map[]))
  {
    CollectionLoop();
    assert Integrity(Stage(BI[..30] + [I(30), I(31)], BR, BV[..31], [V(31)], [], map[])) by {
      AboveBank(VecKind, 31, 31);
    }
  }

  /** `test_collection`, `[0, 1.2]`: 16 bytes are allocated at i31, the
      cursor i30 starts there, each element passes through r31 and advances
      the cursor by 8 through i29, and the vector is loaded into v31; only
      v31 stays taken. */
  lemma CollectionExample()
    ensures Visit(Initial, Program([Coll([Operand(0.0), Operand(1.2)])])) ==
      Done(Stage(BI[..30] + [I(30), I(31)], BR, BV[..31], [V(31)],
        [CodeSection, Alloc(I(31), 16), LoadInt(I(30), 0), Instruction("add", I(30), I(30), I(31)),
         LoadReal(R(31), 0.0), StoreWord(I(30), R(31)), LoadInt(I(29), 8), Instruction("add", I(30), I(30), I(29)),
         LoadReal(R(31), 1.2), StoreWord(I(30), R(31)), LoadInt(I(29), 8), Instruction("add", I(30), I(30), I(29)),
         LoadVector(V(31), I(31), 16), Halt], map[]))
  {
    CollectionStep();
    SingleStatement(Initial, Coll([Operand(0.0), Operand(1.2)]));
  }

  /** `[1, 2]` after `foo = 42.0`: r31 stays taken by `foo`, so both
      elements pass through r30, and the vector goes to v31. */
  function CollAfterFoo(): State {
    Stage(BI[..30] + [I(30), I(31)], BR[..31], BV[..31], [R(31), V(31)],
      [CodeSection, LoadReal(R(31), 42.0), Alloc(I(31), 16), LoadInt(I(30), 0), Instruction("add", I(30), I(30), I(31)),
       LoadReal(R(30), 1.0), StoreWord(I(30), R(30)), LoadInt(I(29), 8), Instruction("add", I(30), I(30), I(29)),
       LoadReal(R(30), 2.0), StoreWord(I(30), R(30)), LoadInt(I(29), 8), Instruction("add", I(30), I(30), I(29)),
       LoadVector(V(31), I(31), 16)], map["foo" := 0])
  }

  lemma CollAfterFooLoop()
    ensures Elements(StartCollection(FooBound(), 2), Coll([Operand(1.0), Operand(2.0)]), 0, I(30)) ==
      Done(Stage(BI[..30], BR[..31], BV, [R(31)],
        [CodeSection, LoadReal(R(31), 42.0), Alloc(I(31), 16), LoadInt(I(30), 0), Instruction("add", I(30), I(30), I(31)),
         LoadReal(R(30), 1.0), StoreWord(I(30), R(30)), LoadInt(I(29), 8), Instruction("add", I(30), I(30), I(29)),
         LoadReal(R(30), 2.0), StoreWord(I(30), R(30)), LoadInt(I(29), 8), Instruction("add", I(30), I(30), I(29))], map["foo" := 0]))
  {
    var t := CollAfterFooStarted();
    TwoLiteralElements(t, Coll([Operand(1.0), Operand(2.0)]), 1.0, 2.0, I(30));
    CollAfterFooLines(t);
  }

  /** The start of `[1, 2]` after `foo = 42.0`. */
  lemma CollAfterFooStarted() returns (t: State)
    ensures t == StartCollection(FooBound(), 2)
    ensures t == Stage(BI[..30], BR[..31], BV, [R(31)],
      [CodeSection, LoadReal(R(31), 42.0), Alloc(I(31), 16), LoadInt(I(30), 0), Instruction("add", I(30), I(30), I(31))], map["foo" := 0])
    ensures Integrity(t) && t.freeReal != [] && t.freeInt != [] && Last(t.freeInt) == I(29)
    ensures Last(t.freeReal) == R(30) && R(30).kind == RealKind && R(30) !in DropLast(t.freeReal)
  {
    t := Stage(BI[..30], BR[..31], BV, [R(31)],
      [CodeSection, LoadReal(R(31), 42.0), Alloc(I(31), 16), LoadInt(I(30), 0), Instruction("add", I(30), I(30), I(31))], map["foo" := 0]);
    assert Integrity(t) by { AboveBank(RealKind, 31, 31); }
    TopReal(31);
  }

  /** The lines of the two elements follow those of the start. */
  lemma CollAfterFooLines(t: State)
    requires t == Stage(BI[..30], BR[..31], BV, [R(31)],
      [CodeSection, LoadReal(R(31), 42.0), Alloc(I(31), 16), LoadInt(I(30), 0), Instruction("add", I(30), I(30), I(31))], map["foo" := 0])
    ensures t.(assembly := t.assembly + [LoadReal(R(30), 1.0), StoreWord(I(30), R(30)), LoadInt(I(29), F64_SIZE), Instruction("add", I(30), I(30), I(29)),
                                         LoadReal(R(30), 2.0), StoreWord(I(30), R(30)), LoadInt(I(29), F64_SIZE), Instruction("add", I(30), I(30), I(29))]) ==
      Stage(BI[..30], BR[..31], BV, [R(31)],
        [CodeSection, LoadReal(R(31), 42.0), Alloc(I(31), 16), LoadInt(I(30), 0), Instruction("add", I(30), I(30), I(31)),
         LoadReal(R(30), 1.0), StoreWord(I(30), R(30)), LoadInt(I(29), 8), Instruction("add", I(30), I(30), I(29)),
         LoadReal(R(30), 2.0), StoreWord(I(30), R(30)), LoadInt(I(29), 8), Instruction("add", I(30), I(30), I(29))], map["foo" := 0])
  {
  }

  lemma CollAfterFooStep()
    ensures Visit(FooBound(), Coll([Operand(1.0), Operand(2.0)])) == Done(CollAfterFoo())
  {
    CollAfterFooLoop();
    CollAfterFooFinished();
    assert Integrity(CollAfterFoo()) by {
      AboveBank(RealKind, 31, 31);
      AboveBank(VecKind, 31, 31);
    }
  }

  /** The end of `[1, 2]` after `foo = 42.0`: i30 and i31 go back, and v31
      takes the vector. */
  lemma CollAfterFooFinished()
    ensures FinishCollection(Stage(BI[..30], BR[..31], BV, [R(31)],
        [CodeSection, LoadReal(R(31), 42.0), Alloc(I(31), 16), LoadInt(I(30), 0), Instruction("add", I(30), I(30), I(31)),
         LoadReal(R(30), 1.0), StoreWord(I(30), R(30)), LoadInt(I(29), 8), Instruction("add", I(30), I(30), I(29)),
         LoadReal(R(30), 2.0), StoreWord(I(30), R(30)), LoadInt(I(29), 8), Instruction("add", I(30), I(30), I(29))], map["foo" := 0]),
      I(31), I(30), 2) == Done(CollAfterFoo())
  {
  }

  lemma ReassignKindBind()
    ensures var v := Bind(CollAfterFoo(), "foo");
      v.Failed? && v.message == "Variable 'foo' was R(0.0) and is now V([])"
  {
    var s := CollAfterFoo();
    assert s.used == [R(31), V(31)] && s.variables["foo"] == 0;
    var t := CompilerProperties.MismatchOutcome(s, "foo");
    FooKindMessage();
  }

  /** The message of `test_assign`'s kind change. */
  lemma FooKindMessage()
    ensures KindChangeMessage("foo", RealKind, VecKind) == "Variable 'foo' was R(0.0) and is now V([])"
  {
  }

  lemma ReassignKindStep()
    ensures var v := Visit(FooBound(), Assign("foo", Coll([Operand(1.0), Operand(2.0)])));
      v.Failed? && v.message == "Variable 'foo' was R(0.0) and is now V([])"
  {
    CollAfterFooStep();
    ReassignKindBind();
    assert Visit(FooBound(), Assign("foo", Coll([Operand(1.0), Operand(2.0)]))) == Bind(CollAfterFoo(), "foo");
  }

  /** `test_assign`, `foo = 42.0` then `foo=[1,2]`: a real variable cannot
      be rebound to a vector; the error names both kinds. */
  lemma ReassignKindExample()
    ensures var v := Visit(Initial, Program([Assign("foo", Operand(42.0)), Assign("foo", Coll([Operand(1.0), Operand(2.0)]))]));
      v.Failed? && v.message == "Variable 'foo' was R(0.0) and is now V([])"
  {
    AssignStep();
    ReassignKindStep();
    TwoStatements(Initial, Assign("foo", Operand(42.0)), Assign("foo", Coll([Operand(1.0), Operand(2.0)])));
  }

  /** `a = 1.0` then `b = 2.0`: r31 and r30, at positions 0 and 1. */
  function TwoBound(): State {
    Stage(BI, BR[..30], BV, [R(31), R(30)], [CodeSection, LoadReal(R(31), 1.0), LoadReal(R(30), 2.0)], map["a" := 0, "b" := 1])
  }

  /** ... and `3.0` loaded into r29. */
  function ThreeLoaded(): State {
    Stage(BI, BR[..29], BV, [R(31), R(30), R(29)],
      [CodeSection, LoadReal(R(31), 1.0), LoadReal(R(30), 2.0), LoadReal(R(29), 3.0)], map["a" := 0, "b" := 1])
  }

  lemma ThirdLiteral()
    ensures Visit(TwoBound(), Operand(3.0)) == Done(ThreeLoaded())
  {
    assert Integrity(TwoBound()) by { AboveBank(RealKind, 31, 30); AboveBank(RealKind, 30, 30); }
    assert BR[..30][..29] == BR[..29];
    AboveBank(RealKind, 29, 29);
    LiteralStep(TwoBound(), 3.0);
    NumberVisit(TwoBound(), 3.0);
  }

  lemma ShiftBind()
    ensures Bind(ThreeLoaded(), "a") ==
      Done(Stage(BI, BR[..29] + [R(31)], BV, [R(30), R(29)],
        [CodeSection, LoadReal(R(31), 1.0), LoadReal(R(30), 2.0), LoadReal(R(29), 3.0)], map["a" := 1, "b" := 1]))
  {
    assert map["a" := 0, "b" := 1]["a" := 1] == map["a" := 1, "b" := 1];
  }

  /** Rebinding `a` with `a = 3.0` after `a = 1.0` and `b = 2.0`: `a`'s old
      register leaves the used stack and is freed, which moves r30 (the
      value of `b`) down to position 0, but `b` still names position 1,
      which is now r29, `a`'s new value: after the statement `b` and `a`
      name the same register. */
  lemma ReassignShiftExample()
    ensures Visit(TwoBound(), Assign("a", Operand(3.0))) ==
      Done(Stage(BI, BR[..29] + [R(31)], BV, [R(30), R(29)],
        [CodeSection, LoadReal(R(31), 1.0), LoadReal(R(30), 2.0), LoadReal(R(29), 3.0)], map["a" := 1, "b" := 1]))
  {
    ThirdLiteral();
    ShiftBind();
    assert Integrity(Stage(BI, BR[..29] + [R(31)], BV, [R(30), R(29)], [], map[])) by {
      AboveBank(RealKind, 30, 29);
      AboveBank(RealKind, 29, 29);
    }
  }
}
