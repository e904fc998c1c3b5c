/** What the compiler of src/compiler/mod.rs promises about each kind of
    node: operator register moves, assignment and its error, identifier
    copies, `write`, collections, and the postfix order of operator chains;
    then the programs of the source's own tests. */
module CompilerProperties {
  import opened Compiler
  import opened CompilerInvariant

  /** The order `I < R < V` in which `get_binop_result_reg` widens. */
  function Rank(k: Kind): nat {
    match k
    case IntKind => 0
    case RealKind => 1
    case VecKind => 2
  }

  /** The result of an arithmetic operator is of the wider operand kind. */
  lemma ResultKindIsWider(a: Kind, b: Kind)
    ensures Rank(ResultKind(a, b)) == if Rank(a) >= Rank(b) then Rank(a) else Rank(b)
    ensures ResultKind(a, b) == ResultKind(b, a)
  {
  }

  /** The kind of the result register of an operator. */
  function OperatorKind(s: State, compare: bool): Kind
    requires |s.used| >= 2
  {
    if compare then IntKind else ResultKind(s.used[|s.used| - 2].kind, s.used[|s.used| - 1].kind)
  }

  /** An operator panics exactly when fewer than two registers are in use or
      its result kind has no free register. Otherwise the two operands on top
      of the used stack (left below right) are replaced by one result
      register, which is the last free one of the result kind, the line is
      emitted, and the operands end on their free lists, left before right. */
  lemma BinopEffect(s: State, op: string, compare: bool)
    ensures Binop(s, op, compare).Done? <==> |s.used| >= 2 && Free(s, OperatorKind(s, compare)) != []
    ensures !Binop(s, op, compare).Failed?
    ensures Binop(s, op, compare).Done? ==>
      var t := Binop(s, op, compare).state;
      var left, right := s.used[|s.used| - 2], s.used[|s.used| - 1];
      var result := Last(Free(s, OperatorKind(s, compare)));
      && t.used == s.used[..|s.used| - 2] + [result]
      && (Homogeneous(s) ==> result.kind == OperatorKind(s, compare))
      && t.assembly == s.assembly + [Instruction(op, result, left, right)]
      && Last(Free(t, right.kind)) == right
      && (left.kind == right.kind ==> Free(t, left.kind)[|Free(t, left.kind)| - 2] == left)
      && (left.kind != right.kind ==> Last(Free(t, left.kind)) == left)
      && t.variables == s.variables
  {
    if Binop(s, op, compare).Done? {
      var k := OperatorKind(s, compare);
      var left, right := s.used[|s.used| - 2], s.used[|s.used| - 1];
      var s1 := s.(used := s.used[..|s.used| - 2]);
      var result := Last(Free(s1, k));
      var s2 := SetFree(s1, k, DropLast(Free(s1, k)));
      var s3 := s2.(assembly := s2.assembly + [Instruction(op, result, left, right)], used := s2.used + [result]);
      if Homogeneous(s) {
        PopFree(s1, k);
      }
      var s4 := PushFree(s3, left);
      assert Binop(s, op, compare).state == PushFree(s4, right);
      assert Free(s4, left.kind) == Free(s3, left.kind) + [left];
      if left.kind == right.kind {
        assert Free(PushFree(s4, right), left.kind) == Free(s3, left.kind) + [left, right];
      }
    }
  }

  /** A successful assignment binds the name to the top of the used stack,
      which holds the value's register, and keeps every other stored index.
      When the name was bound, its old register leaves the stack and goes
      back to its free list, and the registers above it move down one place
      (while the indices other names store do not follow them). */
  lemma BindEffect(s: State, ident: string)
    ensures Bind(s, ident).Done? ==>
      var t := Bind(s, ident).state;
      && t.variables == s.variables[ident := |t.used| - 1]
      && Last(t.used) == Last(s.used)
      && t.assembly == s.assembly
    ensures Bind(s, ident).Done? && ident !in s.variables ==>
      Bind(s, ident).state.used == s.used && Bind(s, ident).state.freeInt == s.freeInt
    ensures Bind(s, ident).Done? && ident in s.variables ==>
      var t := Bind(s, ident).state;
      var idx := s.variables[ident];
      var previous := s.used[idx];
      && idx < |s.used| - 1
      && t.used == s.used[..idx] + s.used[idx + 1..]
      && Last(Free(t, previous.kind)) == previous
  {
    if Bind(s, ident).Done? && ident in s.variables {
      var s1 := s.(used := DropLast(s.used));
      var idx := s.variables[ident];
      assert s1.used[..idx] + s1.used[idx + 1..] + [Last(s.used)] == s.used[..idx] + s.used[idx + 1..];
    }
  }

  /** Reassigning a variable with a register of another kind is an error
      that leaves both registers off the stack and off every free list: the
      invariant is broken by exactly those two registers. */
  lemma ReassignKindMismatch(s: State, ident: string)
    requires s.used != [] && ident in s.variables && s.variables[ident] < |s.used| - 1
    requires Last(s.used).kind != s.used[s.variables[ident]].kind
    ensures var idx := s.variables[ident];
      var previous := s.used[idx];
      var result := Last(s.used);
      && Bind(s, ident).Failed?
      && Bind(s, ident).message == KindChangeMessage(ident, previous.kind, result.kind)
      && Bind(s, ident).state.used == s.used[..idx] + s.used[idx + 1..|s.used| - 1]
      && FreePool(Bind(s, ident).state) == FreePool(s)
      && Bind(s, ident).state.variables == s.variables
    ensures Accounted(s) ==>
      var t := Bind(s, ident).state;
      FreePool(t) + multiset(t.used) + multiset{s.used[s.variables[ident]], Last(s.used)} == AllRegisters()
  {
    var idx := s.variables[ident];
    var t := MismatchOutcome(s, ident);
    if Accounted(s) {
      MismatchLosesTwo(s, t, idx);
    }
  }

  /** What `Bind` leaves behind on a change of kind. */
  lemma MismatchOutcome(s: State, ident: string) returns (t: State)
    requires s.used != [] && ident in s.variables && s.variables[ident] < |s.used| - 1
    requires Last(s.used).kind != s.used[s.variables[ident]].kind
    ensures var idx := s.variables[ident];
      && Bind(s, ident) == Failed(KindChangeMessage(ident, s.used[idx].kind, Last(s.used).kind), t)
      && t == s.(used := s.used[..idx] + s.used[idx + 1..|s.used| - 1])
  {
    var idx := s.variables[ident];
    var s1 := s.(used := DropLast(s.used));
    t := s.(used := s.used[..idx] + s.used[idx + 1..|s.used| - 1]);
    assert s1.used[..idx] + s1.used[idx + 1..] == t.used;
  }

  /** The stack without position `idx` and its top: the two registers are
      nowhere any more. */
  lemma MismatchLosesTwo(s: State, t: State, idx: nat)
    requires Accounted(s) && s.used != [] && idx < |s.used| - 1
    requires t == s.(used := s.used[..idx] + s.used[idx + 1..|s.used| - 1])
    ensures FreePool(t) + multiset(t.used) + multiset{s.used[idx], Last(s.used)} == AllRegisters()
  {
    assert s.used == t.used[..idx] + [s.used[idx]] + t.used[idx..] + [Last(s.used)];
    assert t.used == t.used[..idx] + t.used[idx..];
    assert FreePool(t) == FreePool(s);
  }

  /** Referencing an unknown name is an error that changes nothing. A known
      name is copied into the last free register of its register's kind, a
      register not in use; the stack below and every binding stay as they
      were, and the zero integer register is returned to its free list. */
  lemma IdentifierCopies(s: State, name: string)
    ensures name !in s.variables ==> CopyVariable(s, name) == Failed("Unknown variable '" + name + "'", s)
    ensures CopyVariable(s, name).Done? ==>
      var t := CopyVariable(s, name).state;
      var original := s.used[s.variables[name]];
      && t.used[..|s.used|] == s.used
      && |t.used| == |s.used| + 1
      && Last(t.used) == Last(Free(s, original.kind))
      && (Homogeneous(s) ==> Last(t.used).kind == original.kind)
      && t.variables == s.variables
      && (original.kind != IntKind ==> t.freeInt == s.freeInt)
      && t.assembly == s.assembly + [LoadInt(Last(t.freeInt), 0), Instruction("add", Last(t.used), Last(t.freeInt), original)]
    ensures CopyVariable(s, name).Done? && Accounted(s) ==>
      Last(CopyVariable(s, name).state.used) !in s.used
  {
    if CopyVariable(s, name).Done? {
      var original := s.used[s.variables[name]];
      var copy := Last(Free(s, original.kind));
      if Homogeneous(s) {
        PopFree(s, original.kind);
      }
      if Accounted(s) {
        BalancedIntegrity(s, []);
        PopFree(s, original.kind);
        forall i | 0 <= i < |s.used|
          ensures s.used[i] != copy
        {
          assert s.used[i] !in Free(s, s.used[i].kind);
        }
      }
    }
  }

  /** `write` takes exactly one argument, and any other builtin is refused;
      both errors change nothing. */
  lemma BuiltinArguments(s: State, name: string, args: seq<Token>)
    ensures name != "write" ==> VisitNode(s, Builtin(name, args)) == Failed("Unknown builtin: " + name, s)
    ensures name == "write" && |args| != 1 ==>
      VisitNode(s, Builtin(name, args)) == Failed("'write' expects a single argument", s)
  {
  }

  /** After its argument, `write` prints the argument's register through the
      last free integer register and then frees every register it took: the
      argument's register is back on its free list and the integer free list
      is as before. */
  lemma WriteFrees(s: State)
    ensures Write(s).Done? <==> s.used != [] && s.freeInt != []
    ensures Write(s).Done? ==>
      var t := Write(s).state;
      var reg := Last(s.used);
      && t.used == DropLast(s.used)
      && Free(t, reg.kind) == Free(s, reg.kind) + [reg]
      && (reg.kind != IntKind ==> t.freeInt == s.freeInt)
      && t.assembly == s.assembly + [LoadInt(Last(s.freeInt), PRINT_REG), Syscall(Last(s.freeInt), Last(s.used))]
  {
  }

  /** A collection element whose register is not real is refused. */
  lemma NonRealElementRefused(s: State, base: Reg)
    requires s.used != [] && Last(s.used).kind != RealKind
    ensures StoreElement(s, base) == Failed("Unable to put non-real into a vector", s.(used := DropLast(s.used)))
  {
  }

  /** Visiting only ever appends to the emitted lines. */
  lemma {:induction false} VisitAppends(s: State, t: Token)
    ensures Visit(s, t).Done? ==> s.assembly <= Visit(s, t).state.assembly
    decreases t, 3
  {
    VisitNodeAppends(s, t);
  }

  lemma {:induction false} VisitNodeAppends(s: State, t: Token)
    ensures VisitNode(s, t).Done? ==> s.assembly <= VisitNode(s, t).state.assembly
    decreases t, 2, 1
  {
    match t
    case Compare(left, op, right) => CompareAppends(s, t);
    case Assign(_, expr) => VisitAppends(s, expr);
    case Builtin(name, args) =>
      if name == "write" && |args| == 1 {
        VisitAppends(s, args[0]);
      }
    case Coll(values) => CollAppends(s, t);
    case Factor(inner) => VisitAppends(s, inner);
    case Term(left, _) => ChainAppends(s, t);
    case Expression(left, _) => ChainAppends(s, t);
    case Program(_) =>
      StatementsAppend(s.(rodata := s.rodata + [".data"], assembly := s.assembly + [CodeSection]), t, 0);
    case _ =>
  }

  lemma {:induction false} CompareAppends(s: State, t: Token)
    requires t.Compare?
    ensures VisitNode(s, t).Done? ==> s.assembly <= VisitNode(s, t).state.assembly
    decreases t, 2, 0
  {
    VisitAppends(s, t.left);
    if Visit(s, t.left).Done? {
      var s1 := Visit(s, t.left).state;
      VisitAppends(s1, t.right);
      if Visit(s1, t.right).Done? {
        VisitAppends(Visit(s1, t.right).state, t.op);
      }
    }
  }

  lemma {:induction false} CollAppends(s: State, t: Token)
    requires t.Coll?
    ensures VisitNode(s, t).Done? ==> s.assembly <= VisitNode(s, t).state.assembly
    decreases t, 2, 0
  {
    if |s.freeInt| >= 2 {
      var base := s.freeInt[|s.freeInt| - 2];
      ElementsAppend(StartCollection(s, |t.values|), t, 0, base);
    }
  }

  lemma {:induction false} ChainAppends(s: State, t: Token)
    requires t.Term? || t.Expression?
    ensures VisitNode(s, t).Done? ==> s.assembly <= VisitNode(s, t).state.assembly
    decreases t, 2, 0
  {
    VisitAppends(s, t.left);
    if Visit(s, t.left).Done? {
      OperandsAppend(Visit(s, t.left).state, t, 0);
    }
  }

  lemma {:induction false} ElementsAppend(s: State, t: Token, i: nat, base: Reg)
    requires t.Coll? && i <= |t.values|
    ensures Elements(s, t, i, base).Done? ==> s.assembly <= Elements(s, t, i, base).state.assembly
    decreases t, 1, |t.values| - i
  {
    if i < |t.values| {
      VisitAppends(s, t.values[i]);
      if Visit(s, t.values[i]).Done? && StoreElement(Visit(s, t.values[i]).state, base).Done? {
        ElementsAppend(StoreElement(Visit(s, t.values[i]).state, base).state, t, i + 1, base);
      }
    }
  }

  lemma {:induction false} OperandsAppend(s: State, t: Token, i: nat)
    requires (t.Term? || t.Expression?) && i <= |t.rest|
    ensures Operands(s, t, i).Done? ==> s.assembly <= Operands(s, t, i).state.assembly
    decreases t, 1, |t.rest| - i
  {
    if i < |t.rest| {
      VisitAppends(s, t.rest[i].1);
      if Visit(s, t.rest[i].1).Done? {
        var s1 := Visit(s, t.rest[i].1).state;
        VisitAppends(s1, t.rest[i].0);
        if Visit(s1, t.rest[i].0).Done? {
          OperandsAppend(Visit(s1, t.rest[i].0).state, t, i + 1);
        }
      }
    }
  }

  lemma {:induction false} StatementsAppend(s: State, t: Token, i: nat)
    requires t.Program? && i <= |t.expressions|
    ensures Statements(s, t, i).Done? ==> s.assembly <= Statements(s, t, i).state.assembly
    decreases t, 1, |t.expressions| - i
  {
    if i < |t.expressions| {
      VisitAppends(s, t.expressions[i]);
      if Visit(s, t.expressions[i]).Done? {
        StatementsAppend(Visit(s, t.expressions[i]).state, t, i + 1);
      }
    }
  }

  /** A collection of `n` elements allocates `8 * n` bytes into the last
      free integer register, and ends by loading that heap block into the
      register that is left on top of the used stack. */
  lemma CollectionShape(s: State, values: seq<Token>)
    ensures VisitNode(s, Coll(values)).Done? ==>
      var t := VisitNode(s, Coll(values)).state;
      var alloc := Last(s.freeInt);
      && |s.freeInt| >= 2
      && s.assembly + [Alloc(alloc, |values| * 8)] <= t.assembly
      && t.used != []
      && Last(t.assembly) == LoadVector(Last(t.used), alloc, |values| * 8)
  {
    if VisitNode(s, Coll(values)).Done? {
      var n := |s.freeInt|;
      var alloc, base := s.freeInt[n - 1], s.freeInt[n - 2];
      var s1 := StartCollection(s, |values|);
      ElementsAppend(s1, Coll(values), 0, base);
      var s2 := Elements(s1, Coll(values), 0, base).state;
      var t := VisitNode(s, Coll(values)).state;
      assert t == FinishCollection(s2, alloc, base, |values|).state;
      assert s.assembly + [Alloc(alloc, |values| * 8)] <= s1.assembly;
      assert s2.assembly <= t.assembly;
    }
  }

  /** Between visits, the register a collection leaves on top of the used
      stack is a vector register. */
  lemma CollectionYieldsVector(s: State, values: seq<Token>)
    requires Accounted(s)
    ensures VisitNode(s, Coll(values)).Done? ==> Last(VisitNode(s, Coll(values)).state.used).kind == VecKind
  {
    if VisitNode(s, Coll(values)).Done? {
      var n := |s.freeInt|;
      var alloc, base := s.freeInt[n - 1], s.freeInt[n - 2];
      var s1 := StartCollection(s, |values|);
      CollectionLoopBalanced(s, Coll(values), []);
      var s2 := Elements(s1, Coll(values), 0, base).state;
      PopFree(s2.(freeInt := s2.freeInt + [base]), VecKind);
    }
  }

  /** The operands and operators of a chain in the order they are visited:
      each operand before its operator. */
  function PostfixOrder(rest: seq<(Token, Token)>): (r: seq<Token>)
    ensures |r| == 2 * |rest|
    ensures forall i :: 0 <= i < |rest| ==> r[2 * i] == rest[i].1 && r[2 * i + 1] == rest[i].0
  {
    if rest == [] then [] else [rest[0].1, rest[0].0] + PostfixOrder(rest[1..])
  }

  /** Visiting a list of tokens one after the other, stopping at the first
      that does not succeed. */
  function VisitEach(s: State, ts: seq<Token>): Visited
    decreases |ts|
  {
    if ts == [] then Done(s)
    else
      match Visit(s, ts[0])
      case Done(s1) => VisitEach(s1, ts[1..])
      case other => other
  }

  lemma {:induction false} OperandsArePostfix(s: State, t: Token, i: nat)
    requires (t.Term? || t.Expression?) && i <= |t.rest|
    ensures Operands(s, t, i) == VisitEach(s, PostfixOrder(t.rest[i..]))
    decreases |t.rest| - i
  {
    if i < |t.rest| {
      var tail := PostfixOrder(t.rest[i + 1..]);
      assert PostfixOrder(t.rest[i..]) == [t.rest[i].1, t.rest[i].0] + tail by {
        assert t.rest[i..][1..] == t.rest[i + 1..];
      }
      VisitEachPair(s, t.rest[i].1, t.rest[i].0, tail);
      match Visit(s, t.rest[i].1) {
        case Done(s1) =>
          match Visit(s1, t.rest[i].0) {
            case Done(s2) => OperandsArePostfix(s2, t, i + 1);
            case _ =>
          }
        case _ =>
      }
    }
  }

  /** Visiting two tokens and then a list is visiting the first, then the
      second, then the list, each only after its predecessor succeeded. */
  lemma VisitEachPair(s: State, a: Token, b: Token, ts: seq<Token>)
    ensures !Visit(s, a).Done? ==> VisitEach(s, [a, b] + ts) == Visit(s, a)
    ensures Visit(s, a).Done? ==>
      var second := Visit(Visit(s, a).state, b);
      VisitEach(s, [a, b] + ts) == if second.Done? then VisitEach(second.state, ts) else second
  {
    assert ([a, b] + ts)[1..] == [b] + ts;
    assert ([b] + ts)[1..] == ts;
  }

  /** A `Term` or `Expression` visits its left operand and then each operand
      before its operator: left-to-right evaluation in postfix order. */
  lemma ChainIsPostfix(s: State, t: Token)
    requires t.Term? || t.Expression?
    ensures VisitNode(s, t) == VisitEach(s, [t.left] + PostfixOrder(t.rest))
  {
    assert t.rest[0..] == t.rest;
    assert ([t.left] + PostfixOrder(t.rest))[1..] == PostfixOrder(t.rest);
    match Visit(s, t.left)
    case Done(s1) => OperandsArePostfix(s1, t, 0);
    case _ =>
  }
}
