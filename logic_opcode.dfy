/** The logic opcode handlers of src/vm/logic_opcode.rs: `and`, `or` and
    `not` over integer, real and vector registers, where a number is true when
    it is not zero and the result is 1 or 0 of the destination's kind. */
module LogicOpcode {
  import opened Wrappers
  import opened Bytes
  import Float
  import opened Register
  import opened HandlerMachine

  type F64 = Float.F64

  /** `Number::to_bool` for `i32`. */
  predicate IntTruth(x: int) { x != 0 }

  /** `Number::to_bool` for `f64`: NaN and the infinities are true. */
  predicate RealTruth(x: F64) { Float.NonZero(x) }

  /** `From<i32>` of a truth value. */
  function IntOf(b: bool): int { if b then 1 else 0 }
  function RealOf(b: bool): F64 { Float.FromInt(IntOf(b)) }

  /** `do_and`, `do_or` and `do_not` at `i32`. */
  function IntAnd(a: int, b: int): (r: int)
    ensures IntTruth(r) <==> IntTruth(a) && IntTruth(b)
    ensures r == 0 || r == 1
  {
    if IntTruth(a) && IntTruth(b) then 1 else 0
  }

  function IntOr(a: int, b: int): (r: int)
    ensures IntTruth(r) <==> IntTruth(a) || IntTruth(b)
    ensures r == 0 || r == 1
  {
    if IntTruth(a) || IntTruth(b) then 1 else 0
  }

  function IntNot(a: int): (r: int)
    ensures IntTruth(r) <==> !IntTruth(a)
    ensures r == 0 || r == 1
  {
    if IntTruth(a) then 0 else 1
  }

  /** `do_and`, `do_or` and `do_not` at `f64`. */
  function RealAnd(a: F64, b: F64): (r: F64)
    ensures RealTruth(r) <==> RealTruth(a) && RealTruth(b)
    ensures r == Float.Fin(0.0) || r == Float.Fin(1.0)
  {
    if RealTruth(a) && RealTruth(b) then Float.FromInt(1) else Float.FromInt(0)
  }

  function RealOr(a: F64, b: F64): (r: F64)
    ensures RealTruth(r) <==> RealTruth(a) || RealTruth(b)
    ensures r == Float.Fin(0.0) || r == Float.Fin(1.0)
  {
    if RealTruth(a) || RealTruth(b) then Float.FromInt(1) else Float.FromInt(0)
  }

  function RealNot(a: F64): (r: F64)
    ensures RealTruth(r) <==> !RealTruth(a)
    ensures r == Float.Fin(0.0) || r == Float.Fin(1.0)
  {
    if RealTruth(a) then Float.FromInt(0) else Float.FromInt(1)
  }

  /** The generic helpers agree at both instances: on integers widened to
      `f64` the real versions give the widened integer result. */
  lemma InstancesAgree(a: int, b: int)
    ensures RealAnd(Float.FromInt(a), Float.FromInt(b)) == Float.FromInt(IntAnd(a, b))
    ensures RealOr(Float.FromInt(a), Float.FromInt(b)) == Float.FromInt(IntOr(a, b))
    ensures RealNot(Float.FromInt(a)) == Float.FromInt(IntNot(a))
  {
  }

  /** Negating twice gives the truth value as 1 or 0, and `not` turns `and`
      into `or` of the negations. */
  lemma NotLaws(a: int, b: int, x: F64, y: F64)
    ensures IntNot(IntNot(a)) == IntOf(IntTruth(a))
    ensures RealNot(RealNot(x)) == RealOf(RealTruth(x))
    ensures IntNot(IntAnd(a, b)) == IntOr(IntNot(a), IntNot(b))
    ensures RealNot(RealAnd(x, y)) == RealOr(RealNot(x), RealNot(y))
  {
  }

  datatype LogicOp = Conjunction | Disjunction

  /** Both binary handlers report the same errors and broadcast a scalar on
      either side of a vector. */
  const LOGIC_MESSAGES: Messages :=
    Messages("Cannot and vectors with unequal lengths", None,
             "Cannot and two non-vector registers into a vector register")

  function IntLogic(op: LogicOp, a: int, b: int): int {
    match op
    case Conjunction => IntAnd(a, b)
    case Disjunction => IntOr(a, b)
  }

  function RealLogic(op: LogicOp, a: F64, b: F64): F64 {
    match op
    case Conjunction => RealAnd(a, b)
    case Disjunction => RealOr(a, b)
  }

  /** The `i32` operation of `op`; it never panics. */
  function IntLogicOp(op: LogicOp): (f: (int, int) -> Option<int>)
    ensures forall x, y :: f(x, y) == Some(IntLogic(op, x, y))
  {
    (x, y) => Some(IntLogic(op, x, y))
  }

  /** The `f64` operation of `op`. */
  function RealLogicOp(op: LogicOp): (f: (F64, F64) -> F64)
    ensures forall x, y :: f(x, y) == RealLogic(op, x, y)
  {
    (x, y) => RealLogic(op, x, y)
  }

  /** `and` or `or` with `m.pc` just past the opcode. */
  function Logic(m: Machine, op: LogicOp): (t: Transition)
    requires WellFormed(m)
    ensures WellFormed(t.next)
    ensures !t.outcome.Panicked? ==> t.next.pc == m.pc + 3
  {
    Binary(m, IntLogicOp(op), RealLogicOp(op), LOGIC_MESSAGES)
  }

  /** `and`. */
  method And(vm: VM) returns (r: Outcome)
    requires WellFormed(vm.State())
    modifies vm, vm.iregisters, vm.rregisters, vm.vregisters
    ensures Follows(r, vm.State(), Logic(old(vm.State()), Conjunction))
  {
    r := ApplyBinary(vm, IntLogicOp(Conjunction), RealLogicOp(Conjunction),
                     LOGIC_MESSAGES);
  }

  /** `or`. */
  method Or(vm: VM) returns (r: Outcome)
    requires WellFormed(vm.State())
    modifies vm, vm.iregisters, vm.rregisters, vm.vregisters
    ensures Follows(r, vm.State(), Logic(old(vm.State()), Disjunction))
  {
    r := ApplyBinary(vm, IntLogicOp(Disjunction), RealLogicOp(Disjunction),
                     LOGIC_MESSAGES);
  }

  const NOT_MESSAGE := "Cannot and two non-vector registers into a vector register"

  /** `not` with `m.pc` just past the opcode: the destination's kind selects
      the branch, and a vector destination needs a vector input. */
  function Negation(m: Machine): (t: Transition)
    requires WellFormed(m)
    ensures WellFormed(t.next)
    ensures !t.outcome.Panicked? ==> t.next.pc == m.pc + 2
  {
    if m.pc + 2 > |m.program| then Transition(Panicked, m)
    else
      var out, inIdx := m.program[m.pc], m.program[m.pc + 1];
      var after := m.(pc := m.pc + 2);
      match RegisterAt(after, inIdx)
      case Err(e) => Transition(Failed(e), after)
      case Ok(a) =>
        match RegisterAt(after, out)
        case Err(e) => Transition(Failed(e), after)
        case Ok(I(_)) =>
          (match ToI32(a)
           case Ok(x) => Transition(Done, WriteInt(after, out, IntNot(x)))
           case Err(e) => Transition(Failed(e), after))
        case Ok(R(_)) =>
          (match ToF64(a)
           case Ok(x) => Transition(Done, WriteReal(after, out, RealNot(x)))
           case Err(e) => Transition(Failed(e), after))
        case Ok(V(_)) =>
          if a.V? then Transition(Done, WriteVector(after, out, seq(|a.v|, i requires 0 <= i < |a.v| => RealNot(a.v[i]))))
          else Transition(Failed(NOT_MESSAGE), after)
  }

  /** `not`. */
  method Not(vm: VM) returns (r: Outcome)
    requires WellFormed(vm.State())
    modifies vm, vm.iregisters, vm.rregisters, vm.vregisters
    ensures Follows(r, vm.State(), Negation(old(vm.State())))
  {
    var operands := vm.NextTwo();
    if operands.None? {
      return Panicked;
    }
    var (out, inIdx) := operands.value;
    var inReg := vm.GetRegister(inIdx);
    if inReg.Err? {
      return Failed(inReg.error);
    }
    var a := inReg.value;
    var outReg := vm.GetRegister(out);
    if outReg.Err? {
      return Failed(outReg.error);
    }
    match outReg.value {
      case I(_) =>
        var x := ToI32(a);
        if x.Err? {
          return Failed(x.error);
        }
        vm.iregisters[out] := IntNot(x.value);
      case R(_) =>
        var x := ToF64(a);
        if x.Err? {
          return Failed(x.error);
        }
        vm.rregisters[IdxFromReal(out)] := RealNot(x.value);
      case V(_) =>
        if !a.V? {
          return Failed(NOT_MESSAGE);
        }
        vm.vregisters[IdxFromVector(out)] := seq(|a.v|, i requires 0 <= i < |a.v| => RealNot(a.v[i]));
    }
    r := Done;
  }

  /** Whatever the operands, a logic handler that succeeds into an integer
      register writes 1 or 0 there, and every other register keeps its
      value. */
  lemma LogicIntegerTruth(m: Machine, op: LogicOp)
    requires WellFormed(m) && m.pc + 3 <= |m.program|
    ensures var t, out := Logic(m, op), m.program[m.pc];
      t.outcome == Done && IsInt(out) ==>
        && out < REGISTER_COUNT && (t.next.iregs[out] == 0 || t.next.iregs[out] == 1)
        && t.next == m.(pc := m.pc + 3, iregs := m.iregs[out := t.next.iregs[out]])
  {
  }

  /** A real destination receives 0.0 or 1.0 and nothing else changes. */
  lemma LogicRealTruth(m: Machine, op: LogicOp)
    requires WellFormed(m) && m.pc + 3 <= |m.program|
    ensures var t, out := Logic(m, op), m.program[m.pc];
      var k := IdxFromReal(out);
      t.outcome == Done && IsReal(out) ==>
        && (t.next.rregs[k] == Float.Fin(0.0) || t.next.rregs[k] == Float.Fin(1.0))
        && t.next == m.(pc := m.pc + 3, rregs := m.rregs[k := t.next.rregs[k]])
  {
  }

  /** A vector destination receives 0.0s and 1.0s and nothing else changes. */
  lemma LogicVectorTruth(m: Machine, op: LogicOp)
    requires WellFormed(m) && m.pc + 3 <= |m.program|
    ensures var t, out := Logic(m, op), m.program[m.pc];
      var k := IdxFromVector(out);
      t.outcome == Done && IsVector(out) ==>
        && (forall i :: 0 <= i < |t.next.vregs[k]| ==>
              t.next.vregs[k][i] == Float.Fin(0.0) || t.next.vregs[k][i] == Float.Fin(1.0))
        && t.next == m.(pc := m.pc + 3, vregs := m.vregs[k := t.next.vregs[k]])
  {
  }

  /** `not` into a vector register negates each element of a vector input
      and refuses a scalar input; into a scalar register it refuses a vector. */
  lemma NegationKinds(m: Machine)
    requires WellFormed(m) && m.pc + 2 <= |m.program|
    requires RegisterAt(m, m.program[m.pc]).Ok? && RegisterAt(m, m.program[m.pc + 1]).Ok?
    ensures var out, a := m.program[m.pc], RegisterAt(m, m.program[m.pc + 1]).value;
      var t := Negation(m);
      && (IsVector(out) && !a.V? ==> t.outcome == Failed(NOT_MESSAGE))
      && (IsVector(out) && a.V? ==>
            t.outcome == Done && |t.next.vregs[IdxFromVector(out)]| == |a.v|
            && forall i :: 0 <= i < |a.v| ==> t.next.vregs[IdxFromVector(out)][i] == RealNot(a.v[i]))
      && (!IsVector(out) && a.V? ==> t.outcome.Failed?)
      && (IsInt(out) && !a.V? ==> t == Transition(Done, m.(pc := m.pc + 2, iregs := m.iregs[out := IntNot(ToI32(a).value)])))
  {
    var after := m.(pc := m.pc + 2);
    assert RegisterAt(after, m.program[m.pc]) == RegisterAt(m, m.program[m.pc]);
    assert RegisterAt(after, m.program[m.pc + 1]) == RegisterAt(m, m.program[m.pc + 1]);
  }

  /** The truth tables the source's tests check. */
  lemma TruthTables()
    ensures RealAnd(Float.Fin(42.0), Float.Fin(64.0)) == Float.Fin(1.0)
    ensures RealAnd(Float.Fin(0.0), Float.Fin(42.0)) == Float.Fin(0.0)
    ensures RealOr(Float.Fin(0.0), Float.Fin(42.0)) == Float.Fin(1.0)
    ensures RealOr(Float.Fin(0.0), Float.Fin(0.0)) == Float.Fin(0.0)
    ensures IntAnd(42, 64) == 1 && IntAnd(0, 42) == 0 && IntOr(0, 42) == 1 && IntOr(0, 0) == 0
    ensures RealNot(Float.Fin(42.0)) == Float.Fin(0.0) && RealNot(Float.Fin(0.0)) == Float.Fin(1.0)
    ensures IntNot(42) == 0 && IntNot(0) == 1
  {
  }

  /** `and` of the integer registers 3 and 2 is 1, and of 3 and 0 is 0; the
      real 3.0 and the integer 2 give 1. */
  lemma AndExamples()
    ensures var m := Fresh.(iregs := Fresh.iregs[0 := 3][1 := 2], program := [0, 0, 1]);
      Logic(m, Conjunction).next.iregs[0] == 1
    ensures var m := Fresh.(iregs := Fresh.iregs[0 := 3][1 := 0], program := [0, 0, 1]);
      Logic(m, Conjunction).next.iregs[0] == 0
    ensures var m := Fresh.(rregs := Fresh.rregs[0 := Float.Fin(3.0)], iregs := Fresh.iregs[1 := 2], program := [0, 128, 1]);
      Logic(m, Conjunction).next.iregs[0] == 1
  {
    assert IdxFromReal(128) == 0;
  }
}
