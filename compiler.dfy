/** The high-level compiler of src/compiler/mod.rs: a visitor over the token
    tree that emits assembly lines and allocates VM registers from three LIFO
    free lists (one per register kind), a stack of registers in use, and a
    map from variable names to positions in that stack.

    The pure functions below say what one visit does to the compiler's state;
    the class `Compiler` runs the same steps on mutable fields and is proved
    to end in the state they describe. A Rust panic (`unwrap` of an empty
    stack, an index past the end, a failed integrity check) is `Panicked`. */
module Compiler {
  import opened Wrappers

  /** Each register bank holds 32 registers. */
  const REGISTER_COUNT: nat := 32
  /** `Syscall::PrintReg as u8`, the first variant of `Syscall`. */
  const PRINT_REG: int := 0
  /** `size_of::<f64>()`. */
  const F64_SIZE: nat := 8

  /** Which bank a register belongs to: `VmRegister::I`, `R` or `V`. */
  datatype Kind = IntKind | RealKind | VecKind

  /** A register handed out by the compiler. The source's `Register` pairs
      the index with a zero value of the bank's type, so two registers are
      equal exactly when index and kind are. */
  datatype Reg = Reg(idx: nat, kind: Kind)

  /** `Register::get_char`: the letter naming the bank in assembly text. */
  function KindChar(k: Kind): (c: char)
    ensures c in {'i', 'r', 'v'}
  {
    match k
    case IntKind => 'i'
    case RealKind => 'r'
    case VecKind => 'v'
  }

  /** `{:?}` of the zero value a register of the kind holds. */
  function KindDebug(k: Kind): string {
    match k
    case IntKind => "I(0)"
    case RealKind => "R(0.0)"
    case VecKind => "V([])"
  }

  /** The tokens `visit_token` handles. In a `Term` or `Expression` (`right` in the
      source, `rest` here) each pair
      is an operator token and its right operand. */
  datatype Token =
    | Comment(comment: string)
    | AdditionOp | SubtractionOp | MultiplicationOp | DivisionOp
    | EqualsOp | NotEqualsOp | GreaterThanOp | GreaterThanEqualsOp | LessThanOp | LessThanEqualsOp
    | Compare(left: Token, op: Token, right: Token)
    | Assign(ident: string, expr: Token)
    | Builtin(builtin: string, args: seq<Token>)
    | Identifier(name: string)
    | Real(value: real)
    | Coll(values: seq<Token>)
    | Factor(inner: Token)
    | Term(left: Token, rest: seq<(Token, Token)>)
    | Expression(left: Token, rest: seq<(Token, Token)>)
    | Program(expressions: seq<Token>)

  /** One emitted assembly line, before formatting. */
  datatype Line =
    | CodeSection                                          // .code
    | Halt                                                 // halt
    | Instruction(op: string, result: Reg, left: Reg, right: Reg)   // op $r $a $b
    | LoadInt(reg: Reg, value: int)                        // load $iN #value
    | LoadReal(reg: Reg, literal: real)                     // load $rN #value
    | Syscall(call: Reg, arg: Reg)                         // syscall $iN $kM
    | Alloc(reg: Reg, bytes: nat)                          // alloc $iN #bytes
    | StoreWord(base: Reg, word: Reg)                     // sw $iN $rM
    | LoadVector(vec: Reg, base: Reg, bytes: nat)          // load $vN $iM #bytes

  /** The compiler's fields. */
  datatype State = State(
    freeInt: seq<Reg>,
    freeReal: seq<Reg>,
    freeVec: seq<Reg>,
    used: seq<Reg>,
    rodata: seq<string>,
    assembly: seq<Line>,
    variables: map<string, nat>)

  /** The outcome of a visit: the state it leaves, with an error message when
      it returned `Err`, or a panic. */
  datatype Visited = Done(state: State) | Failed(message: string, state: State) | Panicked

  /** The registers 0..31 of a kind, in the order `new` stacks them. */
  function Bank(k: Kind): (b: seq<Reg>)
    ensures |b| == REGISTER_COUNT && forall i :: 0 <= i < |b| ==> b[i] == Reg(i, k)
  {
    seq(REGISTER_COUNT, (i: nat) => Reg(i, k))
  }

  /** `Compiler::new`. */
  const Initial: State := State(Bank(IntKind), Bank(RealKind), Bank(VecKind), [], [], [], map[])

  function Last<T>(s: seq<T>): T
    requires s != []
  {
    s[|s| - 1]
  }

  function DropLast<T>(s: seq<T>): seq<T>
    requires s != []
  {
    s[..|s| - 1]
  }

  /** The free list of a kind. */
  function Free(s: State, k: Kind): seq<Reg> {
    match k
    case IntKind => s.freeInt
    case RealKind => s.freeReal
    case VecKind => s.freeVec
  }

  function SetFree(s: State, k: Kind, f: seq<Reg>): (r: State)
    ensures Free(r, k) == f && forall j :: j != k ==> Free(r, j) == Free(s, j)
    ensures r.used == s.used && r.assembly == s.assembly && r.variables == s.variables && r.rodata == s.rodata
  {
    match k
    case IntKind => s.(freeInt := f)
    case RealKind => s.(freeReal := f)
    case VecKind => s.(freeVec := f)
  }

  /** `push_free_reg`: back onto the free list of its own kind. */
  function PushFree(s: State, r: Reg): (t: State)
    ensures Free(t, r.kind) == Free(s, r.kind) + [r]
    ensures forall j :: j != r.kind ==> Free(t, j) == Free(s, j)
    ensures t.used == s.used && t.assembly == s.assembly && t.variables == s.variables && t.rodata == s.rodata
  {
    SetFree(s, r.kind, Free(s, r.kind) + [r])
  }

  /** The kind of the result of an arithmetic operator in
      `get_binop_result_reg`. */
  function ResultKind(left: Kind, right: Kind): Kind {
    match left
    case IntKind => right
    case RealKind => if right == VecKind then VecKind else RealKind
    case VecKind => VecKind
  }

  /** `integrity_check` passes: no register in use is on its kind's free list. */
  predicate Integrity(s: State) {
    forall i :: 0 <= i < |s.used| ==> s.used[i] !in Free(s, s.used[i].kind)
  }

  /** `add_arith_instruction` (when `compare` is false) and
      `add_compare_instruction` (when it is true): pop the right then the left
      operand, take the result register, emit the line, push the result and
      return left then right to their free lists. */
  function Binop(s: State, op: string, compare: bool): Visited {
    if |s.used| < 2 then Panicked
    else
      var right, left := s.used[|s.used| - 1], s.used[|s.used| - 2];
      var s1 := s.(used := s.used[..|s.used| - 2]);
      var k := if compare then IntKind else ResultKind(left.kind, right.kind);
      if Free(s1, k) == [] then Panicked
      else
        var result := Last(Free(s1, k));
        var s2 := SetFree(s1, k, DropLast(Free(s1, k)));
        var s3 := s2.(assembly := s2.assembly + [Instruction(op, result, left, right)], used := s2.used + [result]);
        Done(PushFree(PushFree(s3, left), right))
  }

  /** The register-kind error of an assignment. */
  function KindChangeMessage(ident: string, was: Kind, now: Kind): string {
    "Variable '" + ident + "' was " + KindDebug(was) + " and is now " + KindDebug(now)
  }

  /** The rest of `Assign` once the right-hand side has been visited: the
      result leaves the used stack; a variable already bound has its old
      register removed from the stack and, when the kinds agree, freed; the
      name is bound to the stack position the result is pushed at. */
  function Bind(s: State, ident: string): Visited {
    if s.used == [] then Panicked
    else
      var result := Last(s.used);
      var s1 := s.(used := DropLast(s.used));
      if ident in s1.variables then
        var idx := s1.variables[ident];
        if idx >= |s1.used| then Panicked
        else
          var previous := s1.used[idx];
          var s2 := s1.(used := s1.used[..idx] + s1.used[idx + 1..]);
          if result.kind != previous.kind then Failed(KindChangeMessage(ident, previous.kind, result.kind), s2)
          else
            var s3 := PushFree(s2, previous);
            Done(s3.(variables := s3.variables[ident := |s3.used|], used := s3.used + [result]))
      else Done(s1.(variables := s1.variables[ident := |s1.used|], used := s1.used + [result]))
  }

  /** The rest of `write` once its argument has been visited: a print
      syscall on the argument's register, after which the argument's and the
      call's registers are free again. */
  function Write(s: State): Visited {
    if s.used == [] then Panicked
    else
      var reg := Last(s.used);
      var s1 := s.(used := DropLast(s.used));
      if s1.freeInt == [] then Panicked
      else
        var call := Last(s1.freeInt);
        var s2 := s1.(assembly := s1.assembly + [LoadInt(call, PRINT_REG), Syscall(call, reg)]);
        Done(PushFree(s2, reg))
  }

  /** `Identifier`: copy the variable's register into a fresh register of its
      kind by adding it to a zero integer register, which is freed again. */
  function CopyVariable(s: State, name: string): Visited {
    if name !in s.variables then Failed("Unknown variable '" + name + "'", s)
    else
      var index := s.variables[name];
      if index >= |s.used| then Panicked
      else
        var original := s.used[index];
        var k := original.kind;
        if Free(s, k) == [] then Panicked
        else
          var copy := Last(Free(s, k));
          var s1 := SetFree(s, k, DropLast(Free(s, k)));
          if s1.freeInt == [] then Panicked
          else
            var zero := Last(s1.freeInt);
            Done(s1.(assembly := s1.assembly + [LoadInt(zero, 0), Instruction("add", copy, zero, original)],
                     used := s1.used + [copy]))
  }

  /** `Real`: load the literal into a fresh real register. */
  function LoadLiteral(s: State, value: real): Visited {
    if s.freeReal == [] then Panicked
    else
      var reg := Last(s.freeReal);
      Done(s.(freeReal := DropLast(s.freeReal), assembly := s.assembly + [LoadReal(reg, value)],
              used := s.used + [reg]))
  }

  /** The start of `Coll`: allocate 8 bytes per element on the heap into the
      last free integer register, and copy that address into the next one,
      the cursor. Both stay off the free lists until the end. */
  function StartCollection(s: State, count: nat): State
    requires |s.freeInt| >= 2
  {
    var alloc, base := s.freeInt[|s.freeInt| - 1], s.freeInt[|s.freeInt| - 2];
    s.(freeInt := s.freeInt[..|s.freeInt| - 2],
       assembly := s.assembly + [Alloc(alloc, count * F64_SIZE), LoadInt(base, 0), Instruction("add", base, base, alloc)])
  }

  /** The end of `Coll`: free the cursor register, load the heap bytes into
      a fresh vector register, free the allocation register and push the
      vector register. */
  function FinishCollection(s: State, alloc: Reg, base: Reg, count: nat): Visited {
    var s1 := s.(freeInt := s.freeInt + [base]);
    if s1.freeVec == [] then Panicked
    else
      var vec := Last(s1.freeVec);
      Done(s1.(freeVec := DropLast(s1.freeVec), freeInt := s1.freeInt + [alloc],
               assembly := s1.assembly + [LoadVector(vec, alloc, count * F64_SIZE)], used := s1.used + [vec]))
  }

  /** `visit_token`: the node's own work, then the integrity check. */
  function Visit(s: State, t: Token): Visited
    decreases t, 3
  {
    match VisitNode(s, t)
    case Done(s1) => if Integrity(s1) then Done(s1) else Panicked
    case other => other
  }

  /** The body of `visit_token`'s match. */
  function VisitNode(s: State, t: Token): Visited
    decreases t, 2
  {
    match t
    case Comment(_) => Done(s)
    case AdditionOp => Binop(s, "add", false)
    case SubtractionOp => Binop(s, "sub", false)
    case MultiplicationOp => Binop(s, "mul", false)
    case DivisionOp => Binop(s, "div", false)
    case EqualsOp => Binop(s, "eq", true)
    case NotEqualsOp => Binop(s, "neq", true)
    case GreaterThanOp => Binop(s, "gt", true)
    case GreaterThanEqualsOp => Binop(s, "gte", true)
    case LessThanOp => Binop(s, "lt", true)
    case LessThanEqualsOp => Binop(s, "lte", true)
    case Compare(left, op, right) =>
      (match Visit(s, left)
       case Done(s1) =>
         (match Visit(s1, right)
          case Done(s2) => Visit(s2, op)
          case other => other)
       case other => other)
    case Assign(ident, expr) =>
      (match Visit(s, expr)
       case Done(s1) => Bind(s1, ident)
       case other => other)
    case Builtin(name, args) =>
      if name == "write" then
        if |args| != 1 then Failed("'write' expects a single argument", s)
        else
          match Visit(s, args[0])
          case Done(s1) => Write(s1)
          case other => other
      else Failed("Unknown builtin: " + name, s)
    case Identifier(name) => CopyVariable(s, name)
    case Real(value) => LoadLiteral(s, value)
    case Coll(values) =>
      if |s.freeInt| < 2 then Panicked
      else
        var alloc, base := s.freeInt[|s.freeInt| - 1], s.freeInt[|s.freeInt| - 2];
        (match Elements(StartCollection(s, |values|), t, 0, base)
         case Done(s2) => FinishCollection(s2, alloc, base, |values|)
         case other => other)
    case Factor(value) => Visit(s, value)
    case Term(left, _) =>
      (match Visit(s, left)
       case Done(s1) => Operands(s1, t, 0)
       case other => other)
    case Expression(left, _) =>
      (match Visit(s, left)
       case Done(s1) => Operands(s1, t, 0)
       case other => other)
    case Program(_) =>
      var s1 := s.(rodata := s.rodata + [".data"], assembly := s.assembly + [CodeSection]);
      (match Statements(s1, t, 0)
       case Done(s2) => Done(s2.(assembly := s2.assembly + [Halt]))
       case other => other)
  }

  /** The body of the `for` loop of `Coll` once the element has been
      visited: its register must be real; it is stored at the cursor and
      freed, and the cursor is advanced by 8 through a scratch integer
      register. */
  function StoreElement(s: State, base: Reg): Visited {
    if s.used == [] then Panicked
    else
      var u := Last(s.used);
      var s1 := s.(used := DropLast(s.used));
      if u.kind != RealKind then Failed("Unable to put non-real into a vector", s1)
      else
        var s2 := s1.(assembly := s1.assembly + [StoreWord(base, u)], freeReal := s1.freeReal + [u]);
        if s2.freeInt == [] then Panicked
        else
          var inc := Last(s2.freeInt);
          Done(s2.(assembly := s2.assembly + [LoadInt(inc, F64_SIZE), Instruction("add", base, base, inc)]))
  }

  /** The `for` loop of `Coll` from element `i` on. */
  function Elements(s: State, t: Token, i: nat, base: Reg): Visited
    requires t.Coll? && i <= |t.values|
    decreases t, 1, |t.values| - i
  {
    if i == |t.values| then Done(s)
    else
      match Visit(s, t.values[i])
      case Done(s1) =>
        (match StoreElement(s1, base)
         case Done(s2) => Elements(s2, t, i + 1, base)
         case other => other)
      case other => other
  }

  /** The loop of `Term` and `Expression` from pair `i` on: each operand,
      then its operator (postfix order). */
  function Operands(s: State, t: Token, i: nat): Visited
    requires (t.Term? || t.Expression?) && i <= |t.rest|
    decreases t, 1, |t.rest| - i
  {
    if i == |t.rest| then Done(s)
    else
      match Visit(s, t.rest[i].1)
      case Done(s1) =>
        (match Visit(s1, t.rest[i].0)
         case Done(s2) => Operands(s2, t, i + 1)
         case other => other)
      case other => other
  }

  /** The loop of `Program` from statement `i` on. */
  function Statements(s: State, t: Token, i: nat): Visited
    requires t.Program? && i <= |t.expressions|
    decreases t, 1, |t.expressions| - i
  {
    if i == |t.expressions| then Done(s)
    else
      match Visit(s, t.expressions[i])
      case Done(s1) => Statements(s1, t, i + 1)
      case other => other
  }

  /** What a method of `Compiler` ends with: `Ok(())`, `Err(message)`, or a
      panic. */
  datatype Outcome = Success | Error(message: string) | Panic

  /** The method ended as the visit says, in the state it says (after a
      panic the state is not observable). */
  predicate Follows(r: Outcome, after: State, v: Visited) {
    match v
    case Done(s) => r == Success && after == s
    case Failed(m, s) => r == Error(m) && after == s
    case Panicked => r == Panic
  }

  /** The compiler of src/compiler/mod.rs, with its fields updated in place. */
  class Compiler {
    var freeInt: seq<Reg>
    var freeReal: seq<Reg>
    var freeVec: seq<Reg>
    var used: seq<Reg>
    var rodata: seq<string>
    var assembly: seq<Line>
    var variables: map<string, nat>

    /** The fields as a value. */
    function Current(): State
      reads this
    {
      State(freeInt, freeReal, freeVec, used, rodata, assembly, variables)
    }

    /** `Compiler::new`. */
    constructor ()
      ensures Current() == Initial
    {
      freeInt, freeReal, freeVec := Bank(IntKind), Bank(RealKind), Bank(VecKind);
      used, rodata, assembly, variables := [], [], [], map[];
    }

    /** `integrity_check`: whether no register in use is on its kind's free
        list (the source panics when one is). */
    method IntegrityCheck() returns (passed: bool)
      ensures passed == Integrity(Current())
    {
      var i := 0;
      while i < |used|
        invariant 0 <= i <= |used|
        invariant forall j :: 0 <= j < i ==> used[j] !in Free(Current(), used[j].kind)
      {
        var r := used[i];
        var freeList := match r.kind
          case IntKind => freeInt
          case RealKind => freeReal
          case VecKind => freeVec;
        if r in freeList {
          return false;
        }
        i := i + 1;
      }
      return true;
    }

    /** `push_free_reg`. */
    method PushFreeReg(r: Reg)
      modifies this
      ensures Current() == PushFree(old(Current()), r)
    {
      match r.kind {
        case IntKind => freeInt := freeInt + [r];
        case RealKind => freeReal := freeReal + [r];
        case VecKind => freeVec := freeVec + [r];
      }
    }

    /** `get_binop_result_reg`: a register of the wider kind of the two
        operands is taken off its free list; `None` where the source's
        `unwrap` panics on an empty list. */
    method GetBinopResultReg(left: Reg, right: Reg) returns (result: Option<Reg>)
      modifies this
      ensures var k := ResultKind(left.kind, right.kind);
        if Free(old(Current()), k) == [] then result == None
        else result == Some(Last(Free(old(Current()), k)))
             && Current() == SetFree(old(Current()), k, DropLast(Free(old(Current()), k)))
    {
      var k := match left.kind
        case IntKind => right.kind
        case RealKind => (if right.kind == VecKind then VecKind else RealKind)
        case VecKind => VecKind;
      result := Pop(k);
    }

    /** `free_*_reg.pop()` on the list of kind `k`. */
    method Pop(k: Kind) returns (result: Option<Reg>)
      modifies this
      ensures if Free(old(Current()), k) == [] then result == None && Current() == old(Current())
        else result == Some(Last(Free(old(Current()), k)))
             && Current() == SetFree(old(Current()), k, DropLast(Free(old(Current()), k)))
    {
      match k {
        case IntKind =>
          if freeInt == [] { return None; }
          result := Some(Last(freeInt));
          freeInt := DropLast(freeInt);
        case RealKind =>
          if freeReal == [] { return None; }
          result := Some(Last(freeReal));
          freeReal := DropLast(freeReal);
        case VecKind =>
          if freeVec == [] { return None; }
          result := Some(Last(freeVec));
          freeVec := DropLast(freeVec);
      }
    }

    /** `add_arith_instruction`. */
    method AddArithInstruction(op: string) returns (r: Outcome)
      modifies this
      ensures Follows(r, Current(), Binop(old(Current()), op, false))
    {
      ghost var s0 := Current();
      if used == [] { return Panic; }
      var right := Last(used);
      used := DropLast(used);
      if used == [] { return Panic; }
      var left := Last(used);
      used := DropLast(used);
      ghost var k := ResultKind(left.kind, right.kind);
      assert left == s0.used[|s0.used| - 2] && right == s0.used[|s0.used| - 1];
      assert Current() == s0.(used := s0.used[..|s0.used| - 2]);
      ghost var s1 := Current();
      var result := GetBinopResultReg(left, right);
      if result.None? { return Panic; }
      ghost var s2 := Current();
      assert s2 == SetFree(s1, k, DropLast(Free(s1, k)));
      assembly := assembly + [Instruction(op, result.value, left, right)];
      used := used + [result.value];
      assert Current() == s2.(assembly := s2.assembly + [Instruction(op, result.value, left, right)], used := s2.used + [result.value]);
      PushFreeReg(left);
      PushFreeReg(right);
      r := Success;
    }

    /** `add_compare_instruction`: as `AddArithInstruction`, but the result
        is always an integer register. */
    method AddCompareInstruction(op: string) returns (r: Outcome)
      modifies this
      ensures Follows(r, Current(), Binop(old(Current()), op, true))
    {
      ghost var s0 := Current();
      if used == [] { return Panic; }
      var right := Last(used);
      used := DropLast(used);
      if used == [] { return Panic; }
      var left := Last(used);
      used := DropLast(used);
      ghost var k := IntKind;
      assert left == s0.used[|s0.used| - 2] && right == s0.used[|s0.used| - 1];
      assert Current() == s0.(used := s0.used[..|s0.used| - 2]);
      ghost var s1 := Current();
      var result := Pop(IntKind);
      if result.None? { return Panic; }
      ghost var s2 := Current();
      assert s2 == SetFree(s1, k, DropLast(Free(s1, k)));
      assembly := assembly + [Instruction(op, result.value, left, right)];
      used := used + [result.value];
      assert Current() == s2.(assembly := s2.assembly + [Instruction(op, result.value, left, right)], used := s2.used + [result.value]);
      PushFreeReg(left);
      PushFreeReg(right);
      r := Success;
    }

    /** `visit_token`: the node's own work, then the integrity check. */
    method VisitToken(t: Token) returns (r: Outcome)
      modifies this
      ensures Follows(r, Current(), Visit(old(Current()), t))
      decreases t, 2
    {
      r := VisitNodeOf(t);
      if r == Success {
        var passed := IntegrityCheck();
        if !passed {
          r := Panic;
        }
      }
    }

    /** The match of `visit_token`. */
    method VisitNodeOf(t: Token) returns (r: Outcome)
      modifies this
      ensures Follows(r, Current(), VisitNode(old(Current()), t))
      decreases t, 1
    {
      match t {
        case Comment(_) => r := Success;
        case AdditionOp => r := AddArithInstruction("add");
        case SubtractionOp => r := AddArithInstruction("sub");
        case MultiplicationOp => r := AddArithInstruction("mul");
        case DivisionOp => r := AddArithInstruction("div");
        case EqualsOp => r := AddCompareInstruction("eq");
        case NotEqualsOp => r := AddCompareInstruction("neq");
        case GreaterThanOp => r := AddCompareInstruction("gt");
        case GreaterThanEqualsOp => r := AddCompareInstruction("gte");
        case LessThanOp => r := AddCompareInstruction("lt");
        case LessThanEqualsOp => r := AddCompareInstruction("lte");
        case Compare(_, _, _) => r := VisitCompare(t);
        case Assign(_, _) => r := VisitAssign(t);
        case Builtin(_, _) => r := VisitBuiltin(t);
        case Identifier(name) => r := VisitIdentifier(name);
        case Real(value) => r := VisitReal(value);
        case Coll(_) => r := VisitColl(t);
        case Factor(inner) => r := VisitToken(inner);
        case Term(_, _) => r := VisitChain(t);
        case Expression(_, _) => r := VisitChain(t);
        case Program(_) => r := VisitProgram(t);
      }
    }

    method VisitCompare(t: Token) returns (r: Outcome)
      requires t.Compare?
      modifies this
      ensures Follows(r, Current(), VisitNode(old(Current()), t))
      decreases t, 0
    {
      r := VisitToken(t.left);
      if r != Success { return; }
      r := VisitToken(t.right);
      if r != Success { return; }
      r := VisitToken(t.op);
    }

    method VisitAssign(t: Token) returns (r: Outcome)
      requires t.Assign?
      modifies this
      ensures Follows(r, Current(), VisitNode(old(Current()), t))
      decreases t, 0
    {
      r := VisitToken(t.expr);
      if r != Success { return; }
      r := BindResult(t.ident);
    }

    /** The rest of `Assign` once the right-hand side has been visited. */
    method BindResult(ident: string) returns (r: Outcome)
      modifies this
      ensures Follows(r, Current(), Bind(old(Current()), ident))
    {
      if used == [] { return Panic; }
      var result := Last(used);
      used := DropLast(used);
      if ident in variables {
        var idx := variables[ident];
        if idx >= |used| { return Panic; }
        var previous := used[idx];
        used := used[..idx] + used[idx + 1..];
        if result.kind != previous.kind {
          return Error(KindChangeMessage(ident, previous.kind, result.kind));
        }
        PushFreeReg(previous);
      }
      variables := variables[ident := |used|];
      used := used + [result];
      r := Success;
    }

    method VisitBuiltin(t: Token) returns (r: Outcome)
      requires t.Builtin?
      modifies this
      ensures Follows(r, Current(), VisitNode(old(Current()), t))
      decreases t, 0
    {
      if t.builtin != "write" {
        return Error("Unknown builtin: " + t.builtin);
      }
      if |t.args| != 1 {
        return Error("'write' expects a single argument");
      }
      r := VisitToken(t.args[0]);
      if r != Success { return; }
      r := WriteRegister();
    }

    /** The rest of `write` once its argument has been visited. */
    method WriteRegister() returns (r: Outcome)
      modifies this
      ensures Follows(r, Current(), Write(old(Current())))
    {
      if used == [] { return Panic; }
      var reg := Last(used);
      used := DropLast(used);
      var call := Pop(IntKind);
      if call.None? { return Panic; }
      assembly := assembly + [LoadInt(call.value, PRINT_REG), Syscall(call.value, reg)];
      freeInt := freeInt + [call.value];
      PushFreeReg(reg);
      r := Success;
    }

    method VisitIdentifier(name: string) returns (r: Outcome)
      modifies this
      ensures Follows(r, Current(), CopyVariable(old(Current()), name))
    {
      if name !in variables {
        return Error("Unknown variable '" + name + "'");
      }
      var index := variables[name];
      if index >= |used| { return Panic; }
      var copy := Pop(used[index].kind);
      if copy.None? { return Panic; }
      var zero := Pop(IntKind);
      if zero.None? { return Panic; }
      assembly := assembly + [LoadInt(zero.value, 0), Instruction("add", copy.value, zero.value, used[index])];
      used := used + [copy.value];
      freeInt := freeInt + [zero.value];
      r := Success;
    }

    method VisitReal(value: real) returns (r: Outcome)
      modifies this
      ensures Follows(r, Current(), LoadLiteral(old(Current()), value))
    {
      var next := Pop(RealKind);
      if next.None? { return Panic; }
      assembly := assembly + [LoadReal(next.value, value)];
      used := used + [next.value];
      r := Success;
    }

    method VisitColl(t: Token) returns (r: Outcome)
      requires t.Coll?
      modifies this
      ensures Follows(r, Current(), VisitNode(old(Current()), t))
      decreases t, 0
    {
      var regs := StartColl(|t.values|);
      if regs.None? { return Panic; }
      var (alloc, base) := regs.value;
      ghost var start := Current();
      var i := 0;
      while i < |t.values|
        invariant 0 <= i <= |t.values|
        invariant Elements(start, t, 0, base) == Elements(Current(), t, i, base)
      {
        r := VisitToken(t.values[i]);
        if r != Success { return; }
        r := StoreCollectionElement(base);
        if r != Success { return; }
        i := i + 1;
      }
      r := FinishColl(alloc, base, |t.values|);
    }

    /** The start of `Coll`: take the allocation and cursor registers, emit
        the allocation and point the cursor at it; None where fewer than two
        integer registers are free. */
    method StartColl(count: nat) returns (regs: Option<(Reg, Reg)>)
      modifies this
      ensures regs.None? <==> |old(freeInt)| < 2
      ensures regs.Some? ==>
        && regs.value == (old(freeInt)[|old(freeInt)| - 1], old(freeInt)[|old(freeInt)| - 2])
        && Current() == StartCollection(old(Current()), count)
    {
      var alloc := Pop(IntKind);
      if alloc.None? { return None; }
      assembly := assembly + [Alloc(alloc.value, count * F64_SIZE)];
      var base := Pop(IntKind);
      if base.None? { return None; }
      assembly := assembly + [LoadInt(base.value, 0), Instruction("add", base.value, base.value, alloc.value)];
      regs := Some((alloc.value, base.value));
    }

    /** One pass of the `for` loop of `Coll` after visiting the element. */
    method StoreCollectionElement(base: Reg) returns (r: Outcome)
      modifies this
      ensures Follows(r, Current(), StoreElement(old(Current()), base))
    {
      if used == [] { return Panic; }
      var element := Last(used);
      used := DropLast(used);
      if element.kind != RealKind {
        return Error("Unable to put non-real into a vector");
      }
      assembly := assembly + [StoreWord(base, element)];
      freeReal := freeReal + [element];
      ghost var stored := Current();
      var inc := Pop(IntKind);
      if inc.None? { return Panic; }
      assembly := assembly + [LoadInt(inc.value, F64_SIZE), Instruction("add", base, base, inc.value)];
      freeInt := freeInt + [inc.value];
      assert freeInt == stored.freeInt;
      r := Success;
    }

    /** The end of `Coll`, after the loop. */
    method FinishColl(alloc: Reg, base: Reg, count: nat) returns (r: Outcome)
      modifies this
      ensures Follows(r, Current(), FinishCollection(old(Current()), alloc, base, count))
    {
      freeInt := freeInt + [base];
      var vec := Pop(VecKind);
      if vec.None? { return Panic; }
      assembly := assembly + [LoadVector(vec.value, alloc, count * F64_SIZE)];
      freeInt := freeInt + [alloc];
      used := used + [vec.value];
      r := Success;
    }

    /** `Term` and `Expression`. */
    method VisitChain(t: Token) returns (r: Outcome)
      requires t.Term? || t.Expression?
      modifies this
      ensures Follows(r, Current(), VisitNode(old(Current()), t))
      decreases t, 0
    {
      r := VisitToken(t.left);
      if r != Success { return; }
      ghost var start := Current();
      var i := 0;
      while i < |t.rest|
        invariant 0 <= i <= |t.rest|
        invariant Operands(start, t, 0) == Operands(Current(), t, i)
      {
        r := VisitToken(t.rest[i].1);
        if r != Success { return; }
        r := VisitToken(t.rest[i].0);
        if r != Success { return; }
        i := i + 1;
      }
      r := Success;
    }

    method VisitProgram(t: Token) returns (r: Outcome)
      requires t.Program?
      modifies this
      ensures Follows(r, Current(), VisitNode(old(Current()), t))
      decreases t, 0
    {
      rodata := rodata + [".data"];
      assembly := assembly + [CodeSection];
      ghost var start := Current();
      var i := 0;
      while i < |t.expressions|
        invariant 0 <= i <= |t.expressions|
        invariant Statements(start, t, 0) == Statements(Current(), t, i)
      {
        r := VisitToken(t.expressions[i]);
        if r != Success { return; }
        i := i + 1;
      }
      assembly := assembly + [Halt];
      r := Success;
    }
  }
}
