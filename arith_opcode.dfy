/** The arithmetic opcode handlers of src/vm/arith_opcode.rs: `add`, `sub`,
    `mul` and `div` over integer, real and vector registers. */
module ArithOpcode {
  import opened Wrappers
  import opened Bytes
  import Float
  import opened Register
  import opened HandlerMachine
  import Vm

  /** The errors each handler reports; `sub` and `div` refuse a scalar left of
      a vector, `add` and `mul` broadcast it. */
  function MessagesOf(op: Vm.ArithOp): (r: Messages)
    ensures r.scalarFirst.None? <==> op == Vm.Plus || op == Vm.Times
  {
    match op
    case Plus => Messages("Cannot add vectors with unequal lengths", None,
                          "Cannot add two non-vector registers into a vector register")
    case Minus => Messages("Cannot sub vectors with unequal lengths", Some("Cannot sub vector from real"),
                           "Cannot sub two non-vector registers into a vector register")
    case Times => Messages("Cannot mul vectors with unequal lengths", None,
                           "Cannot mul two non-vector registers into a vector register")
    case Quotient => Messages("Cannot divide vectors with unequal lengths", Some("Cannot divide a real by a vector"),
                              "Cannot divide two non-vector registers into a vector register")
  }

  /** The `i32` operation of `op`, None where the source panics. */
  function IntOp(op: Vm.ArithOp): (f: (int, int) -> Option<int>)
    ensures forall x, y :: f(x, y) == Vm.IntArith(op, x, y)
  {
    (x, y) => Vm.IntArith(op, x, y)
  }

  /** The `f64` operation of `op`. */
  function RealOp(op: Vm.ArithOp): (f: (Float.F64, Float.F64) -> Float.F64)
    ensures forall x, y :: f(x, y) == Vm.RealArith(op, x, y)
  {
    (x, y) => Vm.RealArith(op, x, y)
  }

  /** One arithmetic handler with `m.pc` just past the opcode: `i32`
      arithmetic that panics on overflow and on a zero divisor, `f64`
      arithmetic, and element-wise or broadcast vector arithmetic. */
  function Arith(m: Machine, op: Vm.ArithOp): (t: Transition)
    requires WellFormed(m)
    ensures WellFormed(t.next)
  {
    Binary(m, IntOp(op), RealOp(op), MessagesOf(op))
  }

  /** `add`. */
  method Add(vm: VM) returns (r: Outcome)
    requires WellFormed(vm.State())
    modifies vm, vm.iregisters, vm.rregisters, vm.vregisters
    ensures Follows(r, vm.State(), Arith(old(vm.State()), Vm.Plus))
  {
    r := ApplyBinary(vm, IntOp(Vm.Plus), RealOp(Vm.Plus),
                     MessagesOf(Vm.Plus));
  }

  /** `sub`. */
  method Sub(vm: VM) returns (r: Outcome)
    requires WellFormed(vm.State())
    modifies vm, vm.iregisters, vm.rregisters, vm.vregisters
    ensures Follows(r, vm.State(), Arith(old(vm.State()), Vm.Minus))
  {
    r := ApplyBinary(vm, IntOp(Vm.Minus), RealOp(Vm.Minus),
                     MessagesOf(Vm.Minus));
  }

  /** `mul`. */
  method Mul(vm: VM) returns (r: Outcome)
    requires WellFormed(vm.State())
    modifies vm, vm.iregisters, vm.rregisters, vm.vregisters
    ensures Follows(r, vm.State(), Arith(old(vm.State()), Vm.Times))
  {
    r := ApplyBinary(vm, IntOp(Vm.Times), RealOp(Vm.Times),
                     MessagesOf(Vm.Times));
  }

  /** `div`. */
  method Div(vm: VM) returns (r: Outcome)
    requires WellFormed(vm.State())
    modifies vm, vm.iregisters, vm.rregisters, vm.vregisters
    ensures Follows(r, vm.State(), Arith(old(vm.State()), Vm.Quotient))
  {
    r := ApplyBinary(vm, IntOp(Vm.Quotient), RealOp(Vm.Quotient),
                     MessagesOf(Vm.Quotient));
  }

  /** The operand bytes a handler reads, at `m.pc`. */
  predicate At(m: Machine, out: u8, a: u8, b: u8) {
    m.pc + 3 <= |m.program| && m.program[m.pc] == out && m.program[m.pc + 1] == a && m.program[m.pc + 2] == b
  }

  /** Into an integer register the handlers store the exact `i32` result of
      the operands taken as `i32` (reals truncated toward zero), and panic when
      the result is not an `i32` or the divisor is zero; a vector operand is
      an error. */
  lemma IntegerDestination(m: Machine, op: Vm.ArithOp, out: u8, a: u8, b: u8)
    requires WellFormed(m) && At(m, out, a, b) && IsInt(out) && out < REGISTER_COUNT
    requires RegisterAt(m, a).Ok? && RegisterAt(m, b).Ok?
    ensures var ra, rb := RegisterAt(m, a).value, RegisterAt(m, b).value;
      var t := Arith(m, op);
      && (ra.V? || rb.V? ==> t.outcome.Failed? && t.next == m.(pc := m.pc + 3))
      && (!ra.V? && !rb.V? ==>
            var x, y := ToI32(ra).value, ToI32(rb).value;
            && (Vm.IntArith(op, x, y).Some? ==>
                  t == Transition(Done, m.(pc := m.pc + 3, iregs := m.iregs[out := Vm.IntArith(op, x, y).value])))
            && (Vm.IntArith(op, x, y).None? ==> t.outcome == Panicked))
  {
    BinaryIntegerDestination(m, IntOp(op), RealOp(op), MessagesOf(op));
  }

  /** Integer division has no zero-divisor guard: dividing an integer by an
      integer register holding zero panics. */
  lemma DivisionByZeroPanics(m: Machine, out: u8, a: u8, b: u8)
    requires WellFormed(m) && At(m, out, a, b) && out < REGISTER_COUNT && a < REGISTER_COUNT
    requires b < REGISTER_COUNT && m.iregs[b] == 0
    ensures Arith(m, Vm.Quotient).outcome == Panicked
  {
    IntegerDestination(m, Vm.Quotient, out, a, b);
  }

  /** Into a real register the handlers store the `f64` result of the
      operands taken as `f64`. */
  lemma RealDestination(m: Machine, op: Vm.ArithOp, out: u8, a: u8, b: u8)
    requires WellFormed(m) && At(m, out, a, b) && IsReal(out) && IdxFromReal(out) < REGISTER_COUNT
    requires RegisterAt(m, a).Ok? && RegisterAt(m, b).Ok?
    requires !RegisterAt(m, a).value.V? && !RegisterAt(m, b).value.V?
    ensures var x, y := ToF64(RegisterAt(m, a).value).value, ToF64(RegisterAt(m, b).value).value;
      Arith(m, op) == Transition(Done, m.(pc := m.pc + 3,
                                          rregs := m.rregs[IdxFromReal(out) := Vm.RealArith(op, x, y)]))
  {
    BinaryScalarDestinations(m, IntOp(op), RealOp(op), MessagesOf(op));
  }

  /** `sub` and `div` refuse a scalar left of a vector when the destination
      is a vector register. */
  lemma ScalarFirstRefused(m: Machine, op: Vm.ArithOp)
    requires WellFormed(m) && m.pc + 3 <= |m.program| && op in {Vm.Minus, Vm.Quotient}
    requires RegisterAt(m, m.program[m.pc]).Ok? && IsVector(m.program[m.pc])
    requires RegisterAt(m, m.program[m.pc + 1]).Ok? && !RegisterAt(m, m.program[m.pc + 1]).value.V?
    requires RegisterAt(m, m.program[m.pc + 2]).Ok? && RegisterAt(m, m.program[m.pc + 2]).value.V?
    ensures Arith(m, op).outcome == Failed(MessagesOf(op).scalarFirst.value)
  {
    BinaryVectorDestination(m, IntOp(op), RealOp(op), MessagesOf(op));
  }

  /** The machine of the source's tests: `VM::new()` with the given registers
      and the operand bytes of one instruction. */
  function Setup(iregs: seq<int>, rregs: seq<Float.F64>, vregs: seq<seq<Float.F64>>, operands: seq<u8>): (m: Machine)
    requires |iregs| <= REGISTER_COUNT && |rregs| <= REGISTER_COUNT && |vregs| <= REGISTER_COUNT
    requires forall k :: 0 <= k < |iregs| ==> IsI32(iregs[k])
    ensures WellFormed(m) && m.pc == 0 && m.program == operands
    ensures forall k :: 0 <= k < |iregs| ==> m.iregs[k] == iregs[k]
    ensures forall k :: 0 <= k < |rregs| ==> m.rregs[k] == rregs[k]
    ensures forall k :: 0 <= k < |vregs| ==> m.vregs[k] == vregs[k]
  {
    Machine(iregs + seq(REGISTER_COUNT - |iregs|, _ => 0),
            rregs + seq(REGISTER_COUNT - |rregs|, _ => Float.Fin(0.0)),
            vregs + seq(REGISTER_COUNT - |vregs|, _ => []), operands, 0)
  }

  /** 3 + 2 into an integer register is 5, and so is the real 3.2 plus 2,
      which truncates to 3 first. */
  lemma AddIntegersExample()
    ensures Arith(Setup([3, 2], [], [], [0, 0, 1]), Vm.Plus).next.iregs[0] == 5
    ensures Arith(Setup([0, 2], [Float.Fin(3.2)], [], [0, RealToIdx(0), 1]), Vm.Plus).next.iregs[0] == 5
  {
    AddTwoIntegers();
    AddRealToInteger();
  }

  lemma AddTwoIntegers()
    ensures Arith(Setup([3, 2], [], [], [0, 0, 1]), Vm.Plus).next.iregs[0] == 5
  {
    var m := Setup([3, 2], [], [], [0, 0, 1]);
    assert RegisterAt(m, 0) == Ok(I(3)) && RegisterAt(m, 1) == Ok(I(2));
    assert Vm.IntArith(Vm.Plus, 3, 2) == Some(5);
    IntegerDestination(m, Vm.Plus, 0, 0, 1);
  }

  lemma AddRealToInteger()
    ensures Arith(Setup([0, 2], [Float.Fin(3.2)], [], [0, RealToIdx(0), 1]), Vm.Plus).next.iregs[0] == 5
  {
    assert RealToIdx(0) == 128;
    var n := Setup([0, 2], [Float.Fin(3.2)], [], [0, 128, 1]);
    assert IdxFromReal(128) == 0;
    assert RegisterAt(n, 128) == Ok(R(Float.Fin(3.2))) && RegisterAt(n, 1) == Ok(I(2));
    assert ToI32(R(Float.Fin(3.2))) == Ok(3) by { assert Float.Trunc(3.2) == 3; }
    assert Vm.IntArith(Vm.Plus, 3, 2) == Some(5);
    IntegerDestination(n, Vm.Plus, 0, 128, 1);
  }

  /** [1, 2, 3.1] + [2, 3, 4] into a vector register is [3, 5, 7.1]. */
  lemma VectorAddExample()
    ensures var u := [Float.Fin(1.0), Float.Fin(2.0), Float.Fin(3.1)];
      var w := [Float.Fin(2.0), Float.Fin(3.0), Float.Fin(4.0)];
      Arith(Setup([], [], [u, w], [64, 64, 65]), Vm.Plus).next.vregs[0]
        == [Float.Fin(3.0), Float.Fin(5.0), Float.Fin(7.1)]
  {
    var u := [Float.Fin(1.0), Float.Fin(2.0), Float.Fin(3.1)];
    var w := [Float.Fin(2.0), Float.Fin(3.0), Float.Fin(4.0)];
    var m := Setup([], [], [u, w], [64, 64, 65]);
    BinaryVectorDestination(m, IntOp(Vm.Plus), RealOp(Vm.Plus), MessagesOf(Vm.Plus));
    var r := Arith(m, Vm.Plus).next.vregs[0];
    assert |r| == 3;
    assert r[0] == Float.Add(u[0], w[0]) && r[1] == Float.Add(u[1], w[1]) && r[2] == Float.Add(u[2], w[2]);
  }

  /** 1.2 + [1, 2, 3.1] into a vector register is [2.2, 3.2, 4.3]. */
  lemma ScalarFirstExample()
    ensures var u := [Float.Fin(1.0), Float.Fin(2.0), Float.Fin(3.1)];
      Arith(Setup([], [Float.Fin(1.2)], [u], [64, 128, 64]), Vm.Plus).next.vregs[0]
        == [Float.Fin(2.2), Float.Fin(3.2), Float.Fin(4.3)]
  {
    var u := [Float.Fin(1.0), Float.Fin(2.0), Float.Fin(3.1)];
    var m := Setup([], [Float.Fin(1.2)], [u], [64, 128, 64]);
    assert IdxFromReal(128) == 0;
    BinaryVectorDestination(m, IntOp(Vm.Plus), RealOp(Vm.Plus), MessagesOf(Vm.Plus));
    var r := Arith(m, Vm.Plus).next.vregs[0];
    assert |r| == 3;
    assert r[0] == Float.Add(Float.Fin(1.2), u[0]);
    assert r[1] == Float.Add(Float.Fin(1.2), u[1]);
    assert r[2] == Float.Add(Float.Fin(1.2), u[2]);
  }

  /** 1.2 - [1, 2, 3.1] into a vector register is refused. */
  lemma SubVectorFromRealExample()
    ensures var u := [Float.Fin(1.0), Float.Fin(2.0), Float.Fin(3.1)];
      Arith(Setup([], [Float.Fin(1.2)], [u], [64, 128, 64]), Vm.Minus).outcome
        == Failed("Cannot sub vector from real")
  {
    var u := [Float.Fin(1.0), Float.Fin(2.0), Float.Fin(3.1)];
    var m := Setup([], [Float.Fin(1.2)], [u], [64, 128, 64]);
    assert IdxFromReal(128) == 0 && IdxFromVector(64) == 0;
    assert RegisterAt(m, 64) == Ok(V(u)) && RegisterAt(m, 128) == Ok(R(Float.Fin(1.2)));
    ScalarFirstRefused(m, Vm.Minus);
  }
}
