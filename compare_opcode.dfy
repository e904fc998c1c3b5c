/** The comparison opcode handlers of src/vm/compare_opcode.rs: `eq`, `neq`,
    `gt`, `lt`, `gte` and `lte` over integer, real and vector registers, each
    writing 1 or 0 into an integer register. */
module CompareOpcode {
  import opened Wrappers
  import opened Bytes
  import Float
  import opened Register
  import opened HandlerMachine
  import Vm

  type F64 = Float.F64

  /** `PartialOrd for Vec<f64>`: the first pair of elements that are not
      equal decides, and when one vector is a prefix of the other the shorter
      is less; None when that first unequal pair is unordered (a NaN). */
  function LexCmp(va: seq<F64>, vb: seq<F64>): (r: Option<Float.Ordering>)
    decreases |va|
  {
    if va == [] then Some(if vb == [] then Float.Equal else Float.Less)
    else if vb == [] then Some(Float.Greater)
    else
      var first := Float.PartialCmp(va[0], vb[0]);
      if first == Some(Float.Equal) then LexCmp(va[1..], vb[1..]) else first
  }

  /** `PartialEq for Vec<f64>`: equal lengths and equal elements (NaN is
      equal to nothing). */
  predicate VecEq(va: seq<F64>, vb: seq<F64>) {
    |va| == |vb| && forall i :: 0 <= i < |va| ==> Float.Eq(va[i], vb[i])
  }

  /** Whether the comparison holds of two vectors. */
  predicate VecHolds(op: Vm.CompareOp, va: seq<F64>, vb: seq<F64>) {
    match op
    case EqualTo => VecEq(va, vb)
    case NotEqualTo => !VecEq(va, vb)
    case GreaterThan => LexCmp(va, vb) == Some(Float.Greater)
    case LessThan => LexCmp(va, vb) == Some(Float.Less)
    case AtLeast => LexCmp(va, vb) == Some(Float.Greater) || LexCmp(va, vb) == Some(Float.Equal)
    case AtMost => LexCmp(va, vb) == Some(Float.Less) || LexCmp(va, vb) == Some(Float.Equal)
  }

  const MIXED_VECTOR := "Cannot compare vectors with integers or reals"
  const OUTPUT_NOT_INTEGER := "Comparison operators require integer output registers"

  /** The comparison of two register contents, decided by the kind of the
      first: an integer compares as `i32` with the second converted, a real as
      `f64` (`==` within `f64::EPSILON`, `!=` beyond it), a vector only with a
      vector. */
  function Decide(op: Vm.CompareOp, a: Register, b: Register): (r: Result<bool, string>)
    ensures r.Ok? <==> (a.V? <==> b.V?)
    ensures a.V? && !b.V? ==> r == Err(MIXED_VECTOR)
  {
    match a
    case I(x) =>
      (match ToI32(b)
       case Ok(y) => Ok(Vm.IntHolds(op, x, y))
       case Err(e) => Err(e))
    case R(x) =>
      (match ToF64(b)
       case Ok(y) => Ok(Vm.Holds(op, x, y))
       case Err(e) => Err(e))
    case V(va) => if b.V? then Ok(VecHolds(op, va, b.v)) else Err(MIXED_VECTOR)
  }

  /** `are_register_contents_equal`. */
  function ContentsEqual(m: Machine, a: u8, b: u8): (r: Result<bool, string>)
    requires WellFormed(m)
    ensures RegisterAt(m, a).Ok? && RegisterAt(m, b).Ok? ==>
      r == Decide(Vm.EqualTo, RegisterAt(m, a).value, RegisterAt(m, b).value)
    ensures RegisterAt(m, a).Err? ==> r == Err(RegisterAt(m, a).error)
  {
    match (RegisterAt(m, a), RegisterAt(m, b))
    case (Err(e), _) => Err(e)
    case (_, Err(e)) => Err(e)
    case (Ok(ra), Ok(rb)) => Decide(Vm.EqualTo, ra, rb)
  }

  /** One comparison handler with `m.pc` just past the opcode: the
      destination must be an integer register before any operand is read; the
      flag is written into it, which panics when its index is past the bank. */
  function Comparison(m: Machine, op: Vm.CompareOp): (t: Transition)
    requires WellFormed(m)
    ensures WellFormed(t.next)
  {
    if m.pc >= |m.program| then Transition(Panicked, m)
    else
      var out := m.program[m.pc];
      if !IsInt(out) then Transition(Failed(OUTPUT_NOT_INTEGER), m.(pc := m.pc + 1))
      else if m.pc + 3 > |m.program| then Transition(Panicked, m)
      else
        var after := m.(pc := m.pc + 3);
        match (RegisterAt(after, m.program[m.pc + 1]), RegisterAt(after, m.program[m.pc + 2]))
        case (Err(e), _) => Transition(Failed(e), after)
        case (_, Err(e)) => Transition(Failed(e), after)
        case (Ok(a), Ok(b)) => Settle(m, op, a, b)
  }

  /** The rest of a comparison once both operands are read: the flag, or the
      error `Decide` gives, with the program counter past the three bytes. */
  function Settle(m: Machine, op: Vm.CompareOp, a: Register, b: Register): (t: Transition)
    requires WellFormed(m) && m.pc + 3 <= |m.program|
    ensures WellFormed(t.next)
  {
    var out, after := m.program[m.pc], m.(pc := m.pc + 3);
    match Decide(op, a, b)
    case Err(e) => Transition(Failed(e), after)
    case Ok(flag) =>
      if out < REGISTER_COUNT then Transition(Done, WriteInt(after, out, if flag then 1 else 0))
      else Transition(Panicked, m)
  }

  /** `eq`, which reads its operands through `are_register_contents_equal`. */
  method Eq(vm: VM) returns (r: Outcome)
    requires WellFormed(vm.State())
    modifies vm, vm.iregisters
    ensures Follows(r, vm.State(), Comparison(old(vm.State()), Vm.EqualTo))
  {
    var out := vm.NextU8();
    if out.None? {
      return Panicked;
    }
    if !IsInt(out.value) {
      return Failed(OUTPUT_NOT_INTEGER);
    }
    var operands := vm.NextTwo();
    if operands.None? {
      return Panicked;
    }
    var equal := AreRegisterContentsEqual(vm, operands.value.0, operands.value.1);
    if equal.Err? {
      return Failed(equal.error);
    }
    if out.value >= REGISTER_COUNT {
      return Panicked;
    }
    vm.iregisters[out.value] := if equal.value then 1 else 0;
    r := Done;
  }

  /** `are_register_contents_equal`, run on `vm`. */
  method AreRegisterContentsEqual(vm: VM, a: u8, b: u8) returns (r: Result<bool, string>)
    requires WellFormed(vm.State())
    ensures r == ContentsEqual(vm.State(), a, b)
  {
    var ra := vm.GetRegister(a);
    if ra.Err? {
      return Err(ra.error);
    }
    var rb := vm.GetRegister(b);
    if rb.Err? {
      return Err(rb.error);
    }
    r := Decide(Vm.EqualTo, ra.value, rb.value);
  }

  /** The body shared by `neq`, `gt`, `lt`, `gte` and `lte`, run on `vm`. */
  method Compare(vm: VM, op: Vm.CompareOp) returns (r: Outcome)
    requires WellFormed(vm.State())
    modifies vm, vm.iregisters
    ensures Follows(r, vm.State(), Comparison(old(vm.State()), op))
  {
    ghost var m := vm.State();
    var out := vm.NextU8();
    if out.None? {
      return Panicked;
    }
    if !IsInt(out.value) {
      return Failed(OUTPUT_NOT_INTEGER);
    }
    var operands := vm.NextTwo();
    if operands.None? {
      return Panicked;
    }
    var pair := vm.GetRegisters(operands.value.0, operands.value.1);
    if pair.Err? {
      return Failed(pair.error);
    }
    r := StoreFlag(vm, op, pair.value.0, pair.value.1, m);
  }

  /** The second half of `Compare`: decide and write the flag. */
  method StoreFlag(vm: VM, op: Vm.CompareOp, a: Register, b: Register, ghost m: Machine) returns (r: Outcome)
    requires WellFormed(m) && m.pc + 3 <= |m.program| && vm.State() == m.(pc := m.pc + 3)
    modifies vm.iregisters
    ensures Follows(r, vm.State(), Settle(m, op, a, b))
  {
    var out := vm.program[vm.pc - 3];
    var flag := Decide(op, a, b);
    if flag.Err? {
      return Failed(flag.error);
    }
    if out >= REGISTER_COUNT {
      return Panicked;
    }
    vm.iregisters[out] := if flag.value then 1 else 0;
    r := Done;
  }

  /** `neq`. */
  method Neq(vm: VM) returns (r: Outcome)
    requires WellFormed(vm.State())
    modifies vm, vm.iregisters
    ensures Follows(r, vm.State(), Comparison(old(vm.State()), Vm.NotEqualTo))
  {
    r := Compare(vm, Vm.NotEqualTo);
  }

  /** `gt`. */
  method Gt(vm: VM) returns (r: Outcome)
    requires WellFormed(vm.State())
    modifies vm, vm.iregisters
    ensures Follows(r, vm.State(), Comparison(old(vm.State()), Vm.GreaterThan))
  {
    r := Compare(vm, Vm.GreaterThan);
  }

  /** `lt`. */
  method Lt(vm: VM) returns (r: Outcome)
    requires WellFormed(vm.State())
    modifies vm, vm.iregisters
    ensures Follows(r, vm.State(), Comparison(old(vm.State()), Vm.LessThan))
  {
    r := Compare(vm, Vm.LessThan);
  }

  /** `gte`. */
  method Gte(vm: VM) returns (r: Outcome)
    requires WellFormed(vm.State())
    modifies vm, vm.iregisters
    ensures Follows(r, vm.State(), Comparison(old(vm.State()), Vm.AtLeast))
  {
    r := Compare(vm, Vm.AtLeast);
  }

  /** `lte`. */
  method Lte(vm: VM) returns (r: Outcome)
    requires WellFormed(vm.State())
    modifies vm, vm.iregisters
    ensures Follows(r, vm.State(), Comparison(old(vm.State()), Vm.AtMost))
  {
    r := Compare(vm, Vm.AtMost);
  }

  /** A destination that is not an integer register is refused before the
      operands are read: only the destination byte is consumed and no
      register changes. */
  lemma OutputCheckedFirst(m: Machine, op: Vm.CompareOp)
    requires WellFormed(m) && m.pc < |m.program| && !IsInt(m.program[m.pc])
    ensures Comparison(m, op) == Transition(Failed(OUTPUT_NOT_INTEGER), m.(pc := m.pc + 1))
  {
  }

  /** A comparison that succeeds writes 1 into its integer destination when
      the relation holds of the operands and 0 otherwise, and changes no
      other register. */
  lemma WritesOnlyFlag(m: Machine, op: Vm.CompareOp)
    requires WellFormed(m)
    ensures var t := Comparison(m, op);
      t.outcome == Done ==>
        && m.pc + 3 <= |m.program|
        && var out := m.program[m.pc];
           var a := RegisterAt(m, m.program[m.pc + 1]).value;
           var b := RegisterAt(m, m.program[m.pc + 2]).value;
           && out < REGISTER_COUNT
           && Decide(op, a, b).Ok?
           && t.next == m.(pc := m.pc + 3, iregs := m.iregs[out := if Decide(op, a, b).value then 1 else 0])
  {
    if Comparison(m, op).outcome == Done {
      var after := m.(pc := m.pc + 3);
      assert RegisterAt(after, m.program[m.pc + 1]) == RegisterAt(m, m.program[m.pc + 1]);
      assert RegisterAt(after, m.program[m.pc + 2]) == RegisterAt(m, m.program[m.pc + 2]);
    }
  }

  /** `eq` through `are_register_contents_equal` behaves as the comparison
      handlers do for `==`: once the destination byte has passed the integer
      check, the error of the operands' lookup, or the flag it decides, is
      what the shared comparison records. */
  lemma ContentsEqualDecides(m: Machine)
    requires WellFormed(m) && m.pc + 3 <= |m.program| && IsInt(m.program[m.pc])
    ensures var after := m.(pc := m.pc + 3);
      var out := m.program[m.pc];
      var t := Comparison(m, Vm.EqualTo);
      match ContentsEqual(after, m.program[m.pc + 1], m.program[m.pc + 2])
      case Err(e) => t == Transition(Failed(e), after)
      case Ok(x) =>
        if out < REGISTER_COUNT then t == Transition(Done, WriteInt(after, out, if x then 1 else 0))
        else t.outcome == Panicked
  {
  }

  /** Between an integer and any scalar, `neq` is the negation of `eq`,
      `lte` of `gt` and `gte` of `lt`. */
  lemma IntegerNegations(x: int, b: Register)
    requires !b.V?
    ensures Decide(Vm.NotEqualTo, I(x), b).value == !Decide(Vm.EqualTo, I(x), b).value
    ensures Decide(Vm.AtMost, I(x), b).value == !Decide(Vm.GreaterThan, I(x), b).value
    ensures Decide(Vm.AtLeast, I(x), b).value == !Decide(Vm.LessThan, I(x), b).value
  {
  }

  /** Between reals, `eq` and `neq` never both hold, and neither holds of a
      NaN or of two reals exactly `f64::EPSILON` apart. */
  lemma RealEqualityGap(x: F64, y: F64)
    ensures !(Decide(Vm.EqualTo, R(x), R(y)).value && Decide(Vm.NotEqualTo, R(x), R(y)).value)
    ensures x.NaN? ==> !Decide(Vm.EqualTo, R(x), R(y)).value && !Decide(Vm.NotEqualTo, R(x), R(y)).value
    ensures x.Fin? && y == Float.Fin(x.x + Float.EPSILON) ==>
      !Decide(Vm.EqualTo, R(x), R(y)).value && !Decide(Vm.NotEqualTo, R(x), R(y)).value
  {
    if x.Fin? && y == Float.Fin(x.x + Float.EPSILON) {
      assert Float.Sub(x, y) == Float.Fin(-Float.EPSILON);
    }
  }

  /** The lexicographic order finds two vectors equal exactly when `==` does. */
  lemma {:induction false} LexCmpEqual(va: seq<F64>, vb: seq<F64>)
    ensures LexCmp(va, vb) == Some(Float.Equal) <==> VecEq(va, vb)
    decreases |va|
  {
    if va != [] && vb != [] {
      LexCmpEqual(va[1..], vb[1..]);
      if Float.PartialCmp(va[0], vb[0]) == Some(Float.Equal) {
        if VecEq(va[1..], vb[1..]) {
          forall i | 0 <= i < |va|
            ensures Float.Eq(va[i], vb[i])
          {
            if i > 0 {
              assert va[i] == va[1..][i - 1] && vb[i] == vb[1..][i - 1];
            }
          }
        }
        if VecEq(va, vb) {
          forall i | 0 <= i < |va[1..]|
            ensures Float.Eq(va[1..][i], vb[1..][i])
          {
            assert Float.Eq(va[i + 1], vb[i + 1]);
          }
        }
      } else {
        assert !Float.Eq(va[0], vb[0]);
      }
    }
  }

  /** Swapping the operands swaps less and greater. */
  lemma {:induction false} LexCmpSwap(va: seq<F64>, vb: seq<F64>)
    ensures LexCmp(va, vb) == Some(Float.Less) <==> LexCmp(vb, va) == Some(Float.Greater)
    ensures LexCmp(va, vb).None? <==> LexCmp(vb, va).None?
    decreases |va|
  {
    if va != [] && vb != [] {
      Float.Trichotomy(va[0], vb[0]);
      if Float.PartialCmp(va[0], vb[0]) == Some(Float.Equal) {
        LexCmpSwap(va[1..], vb[1..]);
      }
    }
  }

  /** Between vectors, `neq` is the negation of `eq`, `lte` of `gt` and `gte`
      of `lt` whenever the vectors are ordered, and a NaN in the first
      position makes every order comparison false. */
  lemma VectorNegations(va: seq<F64>, vb: seq<F64>)
    ensures Decide(Vm.NotEqualTo, V(va), V(vb)).value == !Decide(Vm.EqualTo, V(va), V(vb)).value
    ensures LexCmp(va, vb).Some? ==>
      Decide(Vm.AtMost, V(va), V(vb)).value == !Decide(Vm.GreaterThan, V(va), V(vb)).value
    ensures va != [] && vb != [] && va[0].NaN? ==>
      !Decide(Vm.GreaterThan, V(va), V(vb)).value && !Decide(Vm.LessThan, V(va), V(vb)).value
      && !Decide(Vm.AtLeast, V(va), V(vb)).value && !Decide(Vm.AtMost, V(va), V(vb)).value
  {
    var c := LexCmp(va, vb);
    assert Decide(Vm.AtMost, V(va), V(vb)).value == (c == Some(Float.Less) || c == Some(Float.Equal));
    assert Decide(Vm.GreaterThan, V(va), V(vb)).value == (c == Some(Float.Greater));
    if c.Some? {
      assert c.value.Less? || c.value.Equal? || c.value.Greater?;
    }
  }

  /** A vector compared with a scalar, either way round, is an error. */
  lemma MixedOperandsRefused(op: Vm.CompareOp, va: seq<F64>, s: Register)
    requires !s.V?
    ensures Decide(op, V(va), s) == Err(MIXED_VECTOR)
    ensures Decide(op, s, V(va)).Err?
  {
  }

  /** The machine of the source's tests, holding the registers given and the
      operand bytes of one instruction. */
  function Setup(iregs: seq<int>, rregs: seq<F64>, vregs: seq<seq<F64>>, operands: seq<u8>): (m: Machine)
    requires |iregs| <= REGISTER_COUNT && |rregs| <= REGISTER_COUNT && |vregs| <= REGISTER_COUNT
    requires forall k :: 0 <= k < |iregs| ==> IsI32(iregs[k])
    ensures WellFormed(m) && m.pc == 0 && m.program == operands
    ensures forall k :: 0 <= k < |iregs| ==> m.iregs[k] == iregs[k]
    ensures forall k :: 0 <= k < |rregs| ==> m.rregs[k] == rregs[k]
    ensures forall k :: 0 <= k < |vregs| ==> m.vregs[k] == vregs[k]
  {
    Machine(iregs + seq(REGISTER_COUNT - |iregs|, _ => 0),
            rregs + seq(REGISTER_COUNT - |rregs|, _ => Float.Fin(0.0)),
            vregs + seq(REGISTER_COUNT - |vregs|, _ => []), operands, 0)
  }

  /** The integer 2 equals the real 2.0, and 3 does not. */
  lemma EqualIntegerRealExample()
    ensures Comparison(Setup([2], [Float.Fin(0.0), Float.Fin(2.0)], [], [0, 0, 129]), Vm.EqualTo).next.iregs[0] == 1
    ensures Comparison(Setup([3], [Float.Fin(0.0), Float.Fin(2.0)], [], [0, 0, 129]), Vm.EqualTo).next.iregs[0] == 0
  {
    assert IdxFromReal(129) == 1;
    WritesOnlyFlag(Setup([2], [Float.Fin(0.0), Float.Fin(2.0)], [], [0, 0, 129]), Vm.EqualTo);
    WritesOnlyFlag(Setup([3], [Float.Fin(0.0), Float.Fin(2.0)], [], [0, 0, 129]), Vm.EqualTo);
  }

  /** [2, 3, 4] equals [2, 3, 4]. */
  lemma EqualVectorsExample()
    ensures var u := [Float.Fin(2.0), Float.Fin(3.0), Float.Fin(4.0)];
      Comparison(Setup([], [], [u, u], [0, 64, 65]), Vm.EqualTo).next.iregs[0] == 1
  {
    var u := [Float.Fin(2.0), Float.Fin(3.0), Float.Fin(4.0)];
    var m := Setup([], [], [u, u], [0, 64, 65]);
    assert IdxFromVector(64) == 0 && IdxFromVector(65) == 1;
    WritesOnlyFlag(m, Vm.EqualTo);
  }

  /** [1, 2, 3.1] does not equal [2, 3, 4]. */
  lemma UnequalVectorsExample()
    ensures var u := [Float.Fin(1.0), Float.Fin(2.0), Float.Fin(3.1)];
      var w := [Float.Fin(2.0), Float.Fin(3.0), Float.Fin(4.0)];
      Comparison(Setup([], [], [u, w], [0, 64, 65]), Vm.EqualTo).next.iregs[0] == 0
  {
    var u := [Float.Fin(2.0), Float.Fin(3.0), Float.Fin(4.0)];
    var v := [Float.Fin(1.0), Float.Fin(2.0), Float.Fin(3.1)];
    var n := Setup([], [], [v, u], [0, 64, 65]);
    assert IdxFromVector(64) == 0 && IdxFromVector(65) == 1;
    assert !Float.Eq(v[0], u[0]);
    WritesOnlyFlag(n, Vm.EqualTo);
  }
}
