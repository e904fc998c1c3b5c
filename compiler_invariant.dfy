/** The register-accounting invariant of the compiler in src/compiler/mod.rs:
    every one of the 96 registers is either on its kind's free list or in
    use, exactly once. Every successful visit keeps it, so the integrity
    check that closes `visit_token` never fires, and per kind the free list
    and the registers in use add up to 32. */
module CompilerInvariant {
  import opened Compiler

  /** Every register in `rs` is of kind `k`. */
  predicate AllOfKind(rs: seq<Reg>, k: Kind) {
    forall i :: 0 <= i < |rs| ==> rs[i].kind == k
  }

  /** Every free list holds registers of its own kind only. */
  predicate Homogeneous(s: State) {
    AllOfKind(s.freeInt, IntKind) && AllOfKind(s.freeReal, RealKind) && AllOfKind(s.freeVec, VecKind)
  }

  /** The registers on the three free lists. */
  function FreePool(s: State): multiset<Reg> {
    multiset(s.freeInt) + multiset(s.freeReal) + multiset(s.freeVec)
  }

  /** The 96 registers `new` creates. */
  function AllRegisters(): multiset<Reg> {
    multiset(Bank(IntKind)) + multiset(Bank(RealKind)) + multiset(Bank(VecKind))
  }

  /** Every register is free, in use, or `held` by a visit in progress (the
      allocation and cursor registers of a collection), and nowhere else. */
  predicate Balanced(s: State, held: seq<Reg>) {
    Homogeneous(s) && FreePool(s) + multiset(held) + multiset(s.used) == AllRegisters()
  }

  /** The invariant between visits: nothing is held. */
  predicate Accounted(s: State) {
    Balanced(s, [])
  }

  lemma InitialAccounted()
    ensures Accounted(Initial)
  {
  }

  /** A sequence without repeated elements holds each element at most once. */
  lemma {:induction false} DistinctOnce(s: seq<Reg>, x: Reg)
    requires forall i, j :: 0 <= i < j < |s| ==> s[i] != s[j]
    ensures multiset(s)[x] <= 1
    decreases |s|
  {
    if s != [] {
      var n := |s| - 1;
      assert s == s[..n] + [s[n]];
      DistinctOnce(s[..n], x);
      if x == s[n] {
        assert x !in s[..n];
      }
    }
  }

  /** No register occurs twice among the 96. */
  lemma AllRegistersOnce(r: Reg)
    ensures AllRegisters()[r] <= 1
  {
    DistinctOnce(Bank(r.kind), r);
    forall k | k != r.kind
      ensures multiset(Bank(k))[r] == 0
    {
      assert r !in Bank(k);
    }
  }

  /** Under the invariant no register in use is on a free list: the
      integrity check passes. */
  lemma BalancedIntegrity(s: State, held: seq<Reg>)
    requires Balanced(s, held)
    ensures Integrity(s)
  {
    forall i | 0 <= i < |s.used|
      ensures s.used[i] !in Free(s, s.used[i].kind)
    {
      var r := s.used[i];
      AllRegistersOnce(r);
    }
  }

  /** Taking the last register off the free list of kind `k` yields a
      register of that kind and keeps the other lists. */
  lemma PopFree(s: State, k: Kind)
    requires Homogeneous(s) && Free(s, k) != []
    ensures Last(Free(s, k)).kind == k
    ensures Homogeneous(SetFree(s, k, DropLast(Free(s, k))))
    ensures FreePool(SetFree(s, k, DropLast(Free(s, k)))) + multiset{Last(Free(s, k))} == FreePool(s)
  {
    var f := Free(s, k);
    assert f == DropLast(f) + [Last(f)];
  }

  /** Returning a register to its own free list. */
  lemma PushFreeKeeps(s: State, r: Reg)
    requires Homogeneous(s)
    ensures Homogeneous(PushFree(s, r))
    ensures FreePool(PushFree(s, r)) == FreePool(s) + multiset{r}
  {
    match r.kind
    case IntKind => assert PushFree(s, r) == s.(freeInt := s.freeInt + [r]);
    case RealKind => assert PushFree(s, r) == s.(freeReal := s.freeReal + [r]);
    case VecKind => assert PushFree(s, r) == s.(freeVec := s.freeVec + [r]);
  }

  /** A step that keeps the free lists homogeneous and only moves registers
      between the free lists and the used stack keeps the invariant. */
  lemma Reshuffle(s: State, t: State, held: seq<Reg>)
    requires Balanced(s, held) && Homogeneous(t)
    requires FreePool(t) + multiset(t.used) == FreePool(s) + multiset(s.used)
    ensures Balanced(t, held)
  {
    assert FreePool(t) + multiset(held) + multiset(t.used) == FreePool(t) + multiset(t.used) + multiset(held);
    assert FreePool(s) + multiset(held) + multiset(s.used) == FreePool(s) + multiset(s.used) + multiset(held);
  }

  /** An operator moves `left` and `right` from the used stack to their free
      lists and its result register the other way. */
  lemma BinopBalanced(s: State, op: string, compare: bool, held: seq<Reg>)
    requires Balanced(s, held) && Binop(s, op, compare).Done?
    ensures Balanced(Binop(s, op, compare).state, held)
  {
    BinopMoves(s, op, compare);
    Reshuffle(s, Binop(s, op, compare).state, held);
  }

  /** The register moves of an operator, apart from the invariant. */
  lemma BinopMoves(s: State, op: string, compare: bool)
    requires Homogeneous(s) && Binop(s, op, compare).Done?
    ensures var t := Binop(s, op, compare).state;
      Homogeneous(t) && FreePool(t) + multiset(t.used) == FreePool(s) + multiset(s.used)
  {
    var n := |s.used|;
    var right, left := s.used[n - 1], s.used[n - 2];
    var s1 := s.(used := s.used[..n - 2]);
    var k := if compare then IntKind else ResultKind(left.kind, right.kind);
    var result := Last(Free(s1, k));
    var s2 := SetFree(s1, k, DropLast(Free(s1, k)));
    var s3 := s2.(assembly := s2.assembly + [Instruction(op, result, left, right)], used := s2.used + [result]);
    var t := PushFree(PushFree(s3, left), right);
    BinopShape(s, op, compare);
    var pool := FreePool(s2);
    var m := multiset(s1.used);
    assert Homogeneous(s2) && FreePool(s) == pool + multiset{result} by {
      assert s1.freeInt == s.freeInt && s1.freeReal == s.freeReal && s1.freeVec == s.freeVec;
      PopFree(s1, k);
    }
    assert Homogeneous(t) && FreePool(t) == pool + multiset{left} + multiset{right} by {
      assert s3.freeInt == s2.freeInt && s3.freeReal == s2.freeReal && s3.freeVec == s2.freeVec;
      assert Homogeneous(s3) && FreePool(s3) == pool;
      PushFreeKeeps(s3, left);
      PushFreeKeeps(PushFree(s3, left), right);
    }
    assert multiset(s.used) == m + multiset{left, right} by {
      assert s.used == s1.used + [left, right];
      PairCount(s1.used, left, right);
    }
    assert multiset(t.used) == m + multiset{result};
    Exchange(pool, m, result, left, right);
  }

  /** The registers of a stack with two more on top. */
  lemma PairCount(a: seq<Reg>, x: Reg, y: Reg)
    ensures multiset(a + [x, y]) == multiset(a) + multiset{x, y}
  {
    assert multiset([x, y]) == multiset{x, y};
  }

  /** The multiset arithmetic of an operator: `result` leaves the pool for
      the stack and `left` and `right` go the other way. */
  lemma Exchange(pool: multiset<Reg>, m: multiset<Reg>, result: Reg, left: Reg, right: Reg)
    ensures (pool + multiset{left} + multiset{right}) + (m + multiset{result}) ==
            (pool + multiset{result}) + (m + multiset{left, right})
  {
    assert multiset{left, right} == multiset{left} + multiset{right};
  }

  /** The state a successful operator leaves, spelled out. */
  lemma BinopShape(s: State, op: string, compare: bool)
    requires Binop(s, op, compare).Done?
    ensures var n := |s.used|;
      var right, left := s.used[n - 1], s.used[n - 2];
      var s1 := s.(used := s.used[..n - 2]);
      var k := if compare then IntKind else ResultKind(left.kind, right.kind);
      var result := Last(Free(s1, k));
      var s2 := SetFree(s1, k, DropLast(Free(s1, k)));
      Binop(s, op, compare).state ==
        PushFree(PushFree(s2.(assembly := s2.assembly + [Instruction(op, result, left, right)], used := s2.used + [result]), left), right)
  {
  }

  lemma BindBalanced(s: State, ident: string, held: seq<Reg>)
    requires Balanced(s, held) && Bind(s, ident).Done?
    ensures Balanced(Bind(s, ident).state, held)
  {
    var result := Last(s.used);
    var s1 := s.(used := DropLast(s.used));
    assert s.used == s1.used + [result];
    if ident in s1.variables {
      var idx := s1.variables[ident];
      var previous := s1.used[idx];
      var s2 := s1.(used := s1.used[..idx] + s1.used[idx + 1..]);
      assert s1.used == s1.used[..idx] + [previous] + s1.used[idx + 1..];
      PushFreeKeeps(s2, previous);
      var s3 := PushFree(s2, previous);
      var t := s3.(variables := s3.variables[ident := |s3.used|], used := s3.used + [result]);
      assert Bind(s, ident).state == t;
      assert FreePool(t) == FreePool(s3) && Homogeneous(t);
    } else {
      var t := s1.(variables := s1.variables[ident := |s1.used|], used := s1.used + [result]);
      assert Bind(s, ident).state == t;
      assert FreePool(t) == FreePool(s) && Homogeneous(t);
    }
  }

  lemma WriteBalanced(s: State, held: seq<Reg>)
    requires Balanced(s, held) && Write(s).Done?
    ensures Balanced(Write(s).state, held)
  {
    var reg := Last(s.used);
    var s1 := s.(used := DropLast(s.used));
    assert s.used == s1.used + [reg];
    var s2 := s1.(assembly := s1.assembly + [LoadInt(Last(s1.freeInt), PRINT_REG), Syscall(Last(s1.freeInt), reg)]);
    assert FreePool(s2) == FreePool(s) && Homogeneous(s2);
    PushFreeKeeps(s2, reg);
    assert Write(s).state == PushFree(s2, reg);
  }

  lemma CopyVariableBalanced(s: State, name: string, held: seq<Reg>)
    requires Balanced(s, held) && CopyVariable(s, name).Done?
    ensures Balanced(CopyVariable(s, name).state, held)
  {
    var original := s.used[s.variables[name]];
    var k := original.kind;
    var copy := Last(Free(s, k));
    PopFree(s, k);
    var s1 := SetFree(s, k, DropLast(Free(s, k)));
    var zero := Last(s1.freeInt);
    var t := s1.(assembly := s1.assembly + [LoadInt(zero, 0), Instruction("add", copy, zero, original)],
                 used := s1.used + [copy]);
    assert CopyVariable(s, name).state == t;
    assert FreePool(t) == FreePool(s1) && Homogeneous(t);
  }

  lemma LoadLiteralBalanced(s: State, value: real, held: seq<Reg>)
    requires Balanced(s, held) && LoadLiteral(s, value).Done?
    ensures Balanced(LoadLiteral(s, value).state, held)
  {
    PopFree(s, RealKind);
    assert s.freeReal == DropLast(s.freeReal) + [Last(s.freeReal)];
  }

  lemma FinishCollectionBalanced(s: State, alloc: Reg, base: Reg, count: nat, held: seq<Reg>)
    requires Balanced(s, held + [alloc, base]) && alloc.kind == IntKind && base.kind == IntKind
    requires FinishCollection(s, alloc, base, count).Done?
    ensures Balanced(FinishCollection(s, alloc, base, count).state, held)
  {
    FinishMoves(s, alloc, base, count);
    Release(s, FinishCollection(s, alloc, base, count).state, held, [alloc, base]);
  }

  /** The end of a collection returns its two integer registers and takes a
      vector register. */
  lemma FinishMoves(s: State, alloc: Reg, base: Reg, count: nat)
    requires Homogeneous(s) && alloc.kind == IntKind && base.kind == IntKind
    requires FinishCollection(s, alloc, base, count).Done?
    ensures var t := FinishCollection(s, alloc, base, count).state;
      Homogeneous(t) && FreePool(t) + multiset(t.used) == FreePool(s) + multiset(s.used) + multiset([alloc, base])
  {
    var vec := Last(s.freeVec);
    var t := FinishCollection(s, alloc, base, count).state;
    assert t.freeInt == s.freeInt + [base, alloc] && t.freeReal == s.freeReal &&
                  t.freeVec == DropLast(s.freeVec) && t.used == s.used + [vec];
    assert Homogeneous(t) by {
      PopFree(s, VecKind);
    }
    var ints, reals, vecs, used := multiset(s.freeInt), multiset(s.freeReal), multiset(t.freeVec), multiset(s.used);
    assert FreePool(t) + multiset(t.used) == (ints + multiset{base, alloc}) + reals + vecs + (used + multiset{vec}) by {
      PairCount(s.freeInt, base, alloc);
    }
    assert FreePool(s) + multiset(s.used) + multiset([alloc, base]) == ints + reals + (vecs + multiset{vec}) + used + multiset{base, alloc} by {
      assert s.freeVec == t.freeVec + [vec];
      assert multiset([alloc, base]) == multiset{base, alloc};
    }
    FinishCount(ints, reals, vecs, used, multiset{base, alloc}, multiset{vec});
  }

  lemma FinishCount<T>(ints: multiset<T>, reals: multiset<T>, vecs: multiset<T>, used: multiset<T>, pair: multiset<T>, vec: multiset<T>)
    ensures (ints + pair) + reals + vecs + (used + vec) == ints + reals + (vecs + vec) + used + pair
  {
  }

  /** Registers held by a finished visit return to the pool: the invariant
      holds without them. */
  lemma Release(s: State, t: State, held: seq<Reg>, extra: seq<Reg>)
    requires Balanced(s, held + extra) && Homogeneous(t)
    requires FreePool(t) + multiset(t.used) == FreePool(s) + multiset(s.used) + multiset(extra)
    ensures Balanced(t, held)
  {
    assert multiset(held + extra) == multiset(held) + multiset(extra);
    ReleaseCount(FreePool(s), multiset(held), multiset(extra), multiset(s.used), FreePool(t), multiset(t.used), AllRegisters());
  }

  lemma ReleaseCount<T>(pool: multiset<T>, held: multiset<T>, extra: multiset<T>, used: multiset<T>,
                        pool2: multiset<T>, used2: multiset<T>, all: multiset<T>)
    requires pool + (held + extra) + used == all && pool2 + used2 == pool + used + extra
    ensures pool2 + held + used2 == all
  {
    forall x ensures (pool2 + held + used2)[x] == all[x] {
      assert (pool2 + used2)[x] == (pool + used + extra)[x];
      assert (pool + (held + extra) + used)[x] == all[x];
    }
  }

  /** Registers taken out of the pool for the length of a visit are held. */
  lemma Hold(s: State, t: State, held: seq<Reg>, extra: seq<Reg>)
    requires Balanced(s, held) && Homogeneous(t)
    requires FreePool(t) + multiset(t.used) + multiset(extra) == FreePool(s) + multiset(s.used)
    ensures Balanced(t, held + extra)
  {
    assert multiset(held + extra) == multiset(held) + multiset(extra);
    HoldCount(FreePool(s), multiset(held), multiset(extra), multiset(s.used), FreePool(t), multiset(t.used), AllRegisters());
  }

  lemma HoldCount<T>(pool: multiset<T>, held: multiset<T>, extra: multiset<T>, used: multiset<T>,
                     pool2: multiset<T>, used2: multiset<T>, all: multiset<T>)
    requires pool + held + used == all && pool2 + used2 + extra == pool + used
    ensures pool2 + (held + extra) + used2 == all
  {
    forall x ensures (pool2 + (held + extra) + used2)[x] == all[x] {
      assert (pool2 + used2 + extra)[x] == (pool + used)[x];
      assert (pool + held + used)[x] == all[x];
    }
  }

  /** Every successful visit keeps the invariant, whatever is held around
      it, and under the invariant the integrity check never fires. */
  lemma {:induction false} VisitBalanced(s: State, t: Token, held: seq<Reg>)
    requires Balanced(s, held)
    ensures Visit(s, t) == VisitNode(s, t)
    ensures Visit(s, t).Done? ==> Balanced(Visit(s, t).state, held)
    decreases t, 4
  {
    VisitNodeBalanced(s, t, held);
    if VisitNode(s, t).Done? {
      BalancedIntegrity(VisitNode(s, t).state, held);
    }
  }

  lemma {:induction false} VisitNodeBalanced(s: State, t: Token, held: seq<Reg>)
    requires Balanced(s, held)
    ensures VisitNode(s, t).Done? ==> Balanced(VisitNode(s, t).state, held)
    decreases t, 3
  {
    match t
    case Comment(_) =>
    case AdditionOp => BinopCase(s, "add", false, held);
    case SubtractionOp => BinopCase(s, "sub", false, held);
    case MultiplicationOp => BinopCase(s, "mul", false, held);
    case DivisionOp => BinopCase(s, "div", false, held);
    case EqualsOp => BinopCase(s, "eq", true, held);
    case NotEqualsOp => BinopCase(s, "neq", true, held);
    case GreaterThanOp => BinopCase(s, "gt", true, held);
    case GreaterThanEqualsOp => BinopCase(s, "gte", true, held);
    case LessThanOp => BinopCase(s, "lt", true, held);
    case LessThanEqualsOp => BinopCase(s, "lte", true, held);
    case Compare(_, _, _) => CompareBalanced(s, t, held);
    case Assign(_, _) => AssignBalanced(s, t, held);
    case Builtin(_, _) => BuiltinBalanced(s, t, held);
    case Identifier(name) => CopyCase(s, name, held);
    case Real(value) => LiteralCase(s, value, held);
    case Coll(values) => CollectionBalanced(s, t, held);
    case Factor(inner) => VisitBalanced(s, inner, held);
    case Term(_, _) => ChainBalanced(s, t, held);
    case Expression(_, _) => ChainBalanced(s, t, held);
    case Program(_) => ProgramBalanced(s, t, held);
  }

  lemma {:induction false} CompareBalanced(s: State, t: Token, held: seq<Reg>)
    requires t.Compare? && Balanced(s, held)
    ensures VisitNode(s, t).Done? ==> Balanced(VisitNode(s, t).state, held)
    decreases t, 2
  {
    var v1 := Visit(s, t.left);
    assert v1.Done? ==> Balanced(v1.state, held) by {
      VisitBalanced(s, t.left, held);
    }
    if v1.Done? {
      var v2 := Visit(v1.state, t.right);
      assert v2.Done? ==> Balanced(v2.state, held) by {
        VisitBalanced(v1.state, t.right, held);
      }
      if v2.Done? {
        VisitBalanced(v2.state, t.op, held);
      }
    }
  }

  lemma {:induction false} AssignBalanced(s: State, t: Token, held: seq<Reg>)
    requires t.Assign? && Balanced(s, held)
    ensures VisitNode(s, t).Done? ==> Balanced(VisitNode(s, t).state, held)
    decreases t, 2
  {
    var v := Visit(s, t.expr);
    assert v.Done? ==> Balanced(v.state, held) by {
      VisitBalanced(s, t.expr, held);
    }
    if v.Done? {
      BindCase(v.state, t.ident, held);
    }
  }

  lemma {:induction false} BuiltinBalanced(s: State, t: Token, held: seq<Reg>)
    requires t.Builtin? && Balanced(s, held)
    ensures VisitNode(s, t).Done? ==> Balanced(VisitNode(s, t).state, held)
    decreases t, 2
  {
    if t.builtin == "write" && |t.args| == 1 {
      var v := Visit(s, t.args[0]);
      assert v.Done? ==> Balanced(v.state, held) by {
        VisitBalanced(s, t.args[0], held);
      }
      if v.Done? {
        WriteCase(v.state, held);
      }
    }
  }

  /** A term or an expression: its first operand, then the operand and
      operator pairs. */
  lemma {:induction false} ChainBalanced(s: State, t: Token, held: seq<Reg>)
    requires (t.Term? || t.Expression?) && Balanced(s, held)
    ensures VisitNode(s, t).Done? ==> Balanced(VisitNode(s, t).state, held)
    decreases t, 2
  {
    var v := Visit(s, t.left);
    assert v.Done? ==> Balanced(v.state, held) by {
      VisitBalanced(s, t.left, held);
    }
    if v.Done? {
      OperandsBalanced(v.state, t, 0, held);
    }
  }

  lemma {:induction false} ProgramBalanced(s: State, t: Token, held: seq<Reg>)
    requires t.Program? && Balanced(s, held)
    ensures VisitNode(s, t).Done? ==> Balanced(VisitNode(s, t).state, held)
    decreases t, 2
  {
    var s1 := s.(rodata := s.rodata + [".data"], assembly := s.assembly + [CodeSection]);
    assert Balanced(s1, held) by {
      assert s1.freeInt == s.freeInt && s1.freeReal == s.freeReal && s1.freeVec == s.freeVec && s1.used == s.used;
    }
    StatementsBalanced(s1, t, 0, held);
  }

  /** Inside a collection, its allocation and cursor registers are held and
      the element loop keeps the invariant around them. */
  lemma {:induction false} CollectionLoopBalanced(s: State, t: Token, held: seq<Reg>)
    requires t.Coll? && Balanced(s, held) && |s.freeInt| >= 2
    ensures var alloc, base := s.freeInt[|s.freeInt| - 1], s.freeInt[|s.freeInt| - 2];
      && alloc.kind == IntKind && base.kind == IntKind
      && (Elements(StartCollection(s, |t.values|), t, 0, base).Done? ==>
            Balanced(Elements(StartCollection(s, |t.values|), t, 0, base).state, held + [alloc, base]))
    decreases t, 1, |t.values| + 1
  {
    var n := |s.freeInt|;
    var alloc, base := s.freeInt[n - 1], s.freeInt[n - 2];
    var s1 := StartCollection(s, |t.values|);
    assert Homogeneous(s1) && FreePool(s1) + multiset(s1.used) + multiset([alloc, base]) == FreePool(s) + multiset(s.used) by {
      assert s.freeInt == s1.freeInt + [base, alloc];
      PairCount(s1.freeInt, base, alloc);
      assert multiset([alloc, base]) == multiset{base, alloc};
    }
    Hold(s, s1, held, [alloc, base]);
    ElementsBalanced(s1, t, 0, base, held + [alloc, base]);
  }

  lemma {:induction false} CollectionBalanced(s: State, t: Token, held: seq<Reg>)
    requires t.Coll? && Balanced(s, held)
    ensures VisitNode(s, t).Done? ==> Balanced(VisitNode(s, t).state, held)
    decreases t, 2
  {
    if |s.freeInt| >= 2 {
      var n := |s.freeInt|;
      var alloc, base := s.freeInt[n - 1], s.freeInt[n - 2];
      CollectionLoopBalanced(s, t, held);
      var s1 := StartCollection(s, |t.values|);
      if Elements(s1, t, 0, base).Done? {
        FinishCollectionCase(Elements(s1, t, 0, base).state, alloc, base, |t.values|, held);
      }
    }
  }

  lemma BinopCase(s: State, op: string, compare: bool, held: seq<Reg>)
    requires Balanced(s, held)
    ensures Binop(s, op, compare).Done? ==> Balanced(Binop(s, op, compare).state, held)
  {
    if Binop(s, op, compare).Done? {
      BinopBalanced(s, op, compare, held);
    }
  }

  lemma BindCase(s: State, ident: string, held: seq<Reg>)
    requires Balanced(s, held)
    ensures Bind(s, ident).Done? ==> Balanced(Bind(s, ident).state, held)
  {
    if Bind(s, ident).Done? {
      BindBalanced(s, ident, held);
    }
  }

  lemma WriteCase(s: State, held: seq<Reg>)
    requires Balanced(s, held)
    ensures Write(s).Done? ==> Balanced(Write(s).state, held)
  {
    if Write(s).Done? {
      WriteBalanced(s, held);
    }
  }

  lemma CopyCase(s: State, name: string, held: seq<Reg>)
    requires Balanced(s, held)
    ensures CopyVariable(s, name).Done? ==> Balanced(CopyVariable(s, name).state, held)
  {
    if CopyVariable(s, name).Done? {
      CopyVariableBalanced(s, name, held);
    }
  }

  lemma LiteralCase(s: State, value: real, held: seq<Reg>)
    requires Balanced(s, held)
    ensures LoadLiteral(s, value).Done? ==> Balanced(LoadLiteral(s, value).state, held)
  {
    if LoadLiteral(s, value).Done? {
      LoadLiteralBalanced(s, value, held);
    }
  }

  lemma FinishCollectionCase(s: State, alloc: Reg, base: Reg, count: nat, held: seq<Reg>)
    requires Balanced(s, held + [alloc, base]) && alloc.kind == IntKind && base.kind == IntKind
    ensures FinishCollection(s, alloc, base, count).Done? ==> Balanced(FinishCollection(s, alloc, base, count).state, held)
  {
    if FinishCollection(s, alloc, base, count).Done? {
      FinishCollectionBalanced(s, alloc, base, count, held);
    }
  }

  lemma StoreElementBalanced(s: State, base: Reg, held: seq<Reg>)
    requires Balanced(s, held)
    ensures StoreElement(s, base).Done? ==> Balanced(StoreElement(s, base).state, held)
  {
    if StoreElement(s, base).Done? {
      var u := Last(s.used);
      var s1 := s.(used := DropLast(s.used));
      var t := StoreElement(s, base).state;
      assert t.freeInt == s.freeInt && t.freeReal == s.freeReal + [u] && t.freeVec == s.freeVec;
      assert t.used == s1.used;
      assert Homogeneous(t);
      assert s.used == s1.used + [u];
      Reshuffle(s, t, held);
    }
  }

  lemma {:induction false} ElementsBalanced(s: State, t: Token, i: nat, base: Reg, held: seq<Reg>)
    requires t.Coll? && i <= |t.values| && Balanced(s, held)
    ensures Elements(s, t, i, base).Done? ==> Balanced(Elements(s, t, i, base).state, held)
    decreases t, 1, |t.values| - i
  {
    if i < |t.values| {
      var v1 := Visit(s, t.values[i]);
      assert v1.Done? ==> Balanced(v1.state, held) by {
        VisitBalanced(s, t.values[i], held);
      }
      if v1.Done? {
        var v2 := StoreElement(v1.state, base);
        assert v2.Done? ==> Balanced(v2.state, held) by {
          StoreElementBalanced(v1.state, base, held);
        }
        if v2.Done? {
          ElementsBalanced(v2.state, t, i + 1, base, held);
          assert Elements(s, t, i, base) == Elements(v2.state, t, i + 1, base);
        }
      }
    }
  }

  lemma {:induction false} OperandsBalanced(s: State, t: Token, i: nat, held: seq<Reg>)
    requires (t.Term? || t.Expression?) && i <= |t.rest| && Balanced(s, held)
    ensures Operands(s, t, i).Done? ==> Balanced(Operands(s, t, i).state, held)
    decreases t, 1, |t.rest| - i
  {
    if i < |t.rest| {
      var v1 := Visit(s, t.rest[i].1);
      assert v1.Done? ==> Balanced(v1.state, held) by {
        VisitBalanced(s, t.rest[i].1, held);
      }
      if v1.Done? {
        var v2 := Visit(v1.state, t.rest[i].0);
        assert v2.Done? ==> Balanced(v2.state, held) by {
          VisitBalanced(v1.state, t.rest[i].0, held);
        }
        if v2.Done? {
          OperandsBalanced(v2.state, t, i + 1, held);
          assert Operands(s, t, i) == Operands(v2.state, t, i + 1);
        }
      }
    }
  }

  lemma {:induction false} StatementsBalanced(s: State, t: Token, i: nat, held: seq<Reg>)
    requires t.Program? && i <= |t.expressions| && Balanced(s, held)
    ensures Statements(s, t, i).Done? ==> Balanced(Statements(s, t, i).state, held)
    decreases t, 1, |t.expressions| - i
  {
    if i < |t.expressions| {
      var v := Visit(s, t.expressions[i]);
      assert v.Done? ==> Balanced(v.state, held) by {
        VisitBalanced(s, t.expressions[i], held);
      }
      if v.Done? {
        StatementsBalanced(v.state, t, i + 1, held);
        assert Statements(s, t, i) == Statements(v.state, t, i + 1);
      }
    }
  }

  /** The registers of kind `k` in `rs`, in order. */
  function OfKind(rs: seq<Reg>, k: Kind): seq<Reg> {
    if rs == [] then []
    else OfKind(DropLast(rs), k) + (if Last(rs).kind == k then [Last(rs)] else [])
  }

  /** `OfKind` keeps every occurrence of a register of kind `k` and no other. */
  lemma {:induction false} OfKindCount(rs: seq<Reg>, k: Kind, x: Reg)
    ensures multiset(OfKind(rs, k))[x] == if x.kind == k then multiset(rs)[x] else 0
  {
    if rs != [] {
      OfKindCount(DropLast(rs), k, x);
      assert rs == DropLast(rs) + [Last(rs)];
    }
  }

  /** A register sits only on the free list and in the bank of its own kind. */
  lemma OwnKindOnly(s: State, j: Kind, x: Reg)
    requires Homogeneous(s) && j != x.kind
    ensures multiset(Free(s, j))[x] == 0 && multiset(Bank(j))[x] == 0
  {
    assert x !in Bank(j);
    forall i | 0 <= i < |Free(s, j)| ensures Free(s, j)[i] != x {
    }
  }

  /** The invariant seen through one register. */
  lemma KindSlice(s: State, k: Kind, x: Reg)
    requires Accounted(s)
    ensures multiset(Free(s, k))[x] + multiset(OfKind(s.used, k))[x] == multiset(Bank(k))[x]
  {
    OfKindCount(s.used, k, x);
    assert (FreePool(s) + multiset(s.used))[x] == AllRegisters()[x];
    assert FreePool(s)[x] == multiset(Free(s, IntKind))[x] + multiset(Free(s, RealKind))[x] + multiset(Free(s, VecKind))[x];
    assert AllRegisters()[x] == multiset(Bank(IntKind))[x] + multiset(Bank(RealKind))[x] + multiset(Bank(VecKind))[x];
    if x.kind != IntKind { OwnKindOnly(s, IntKind, x); }
    if x.kind != RealKind { OwnKindOnly(s, RealKind, x); }
    if x.kind != VecKind { OwnKindOnly(s, VecKind, x); }
  }

  /** Between visits, the free list of each kind and the registers of that
      kind in use are together exactly that kind's 32 registers. */
  lemma PerKind(s: State, k: Kind)
    requires Accounted(s)
    ensures multiset(Free(s, k)) + multiset(OfKind(s.used, k)) == multiset(Bank(k))
    ensures |Free(s, k)| + |OfKind(s.used, k)| == REGISTER_COUNT
  {
    forall x
      ensures (multiset(Free(s, k)) + multiset(OfKind(s.used, k)))[x] == multiset(Bank(k))[x]
    {
      KindSlice(s, k, x);
    }
    assert multiset(Free(s, k)) + multiset(OfKind(s.used, k)) == multiset(Bank(k));
    assert |multiset(Free(s, k)) + multiset(OfKind(s.used, k))| == |multiset(Bank(k))|;
  }

  /** Compiling from `new` on: every successful visit leaves every register
      accounted for and the 32 registers of each kind split between its free
      list and the used stack; the integrity check never fires. */
  lemma VisitKeepsAccounted(s: State, t: Token)
    requires Accounted(s)
    ensures Visit(s, t) == VisitNode(s, t)
    ensures Visit(s, t).Done? ==> Accounted(Visit(s, t).state)
    ensures Visit(s, t).Done? ==>
      forall k: Kind :: |Free(Visit(s, t).state, k)| + |OfKind(Visit(s, t).state.used, k)| == REGISTER_COUNT
  {
    VisitBalanced(s, t, []);
    if Visit(s, t).Done? {
      forall k: Kind
        ensures |Free(Visit(s, t).state, k)| + |OfKind(Visit(s, t).state.used, k)| == REGISTER_COUNT
      {
        PerKind(Visit(s, t).state, k);
      }
    }
  }
}
