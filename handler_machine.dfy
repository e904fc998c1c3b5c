/** The virtual machine the opcode handlers of src/vm/arith_opcode.rs,
    src/vm/compare_opcode.rs and src/vm/logic_opcode.rs are written against.
    Besides the integer and real banks it has a bank of vector registers, and
    `get_register` reads any register by its encoded byte (src/vm/register.rs).
    Neither the vector bank nor `get_register` is in src/vm/mod.rs, and the
    body of `get_register` is not part of this model: `RegisterAt` reads the
    bank the byte's encoding names and fails when the index is past it.
    This is why the handlers get a machine of their own rather than sharing
    `Vm.Machine`, which has no vector bank.

    The handlers are methods of that machine; here they are methods taking
    the machine as a parameter, each proved against a pure function on a
    `Machine` value. A panic is the outcome `Panicked`, after which the state
    is not observed. */
module HandlerMachine {
  import opened Wrappers
  import opened Bytes
  import Float
  import opened Register

  type F64 = Float.F64

  /** Each register bank holds 32 registers. */
  const REGISTER_COUNT: nat := 32

  /** The handlers' view of the machine's state. */
  datatype Machine = Machine(
    iregs: seq<int>,
    rregs: seq<F64>,
    vregs: seq<seq<F64>>,
    program: seq<u8>,
    pc: nat)

  /** Every bank has 32 registers and the integer registers hold `i32` values. */
  predicate WellFormed(m: Machine) {
    |m.iregs| == REGISTER_COUNT && |m.rregs| == REGISTER_COUNT && |m.vregs| == REGISTER_COUNT
    && forall k :: 0 <= k < |m.iregs| ==> IsI32(m.iregs[k])
  }

  /** `VM::new()`: zeroed scalar registers, empty vectors, no program. */
  const Fresh: Machine :=
    Machine(seq(REGISTER_COUNT, _ => 0), seq(REGISTER_COUNT, _ => Float.Fin(0.0)),
            seq(REGISTER_COUNT, _ => []), [], 0)

  /** `Result<(), Error>` of a handler, or a panic. */
  datatype Outcome = Done | Failed(message: string) | Panicked

  /** The outcome of a handler and the state it leaves. */
  datatype Transition = Transition(outcome: Outcome, next: Machine)

  /** Whether a handler's outcome and final state agree with a transition;
      after a panic the state is not constrained. */
  predicate Follows(r: Outcome, after: Machine, t: Transition) {
    r == t.outcome && (!r.Panicked? ==> after == t.next)
  }

  /** `get_register`: the register of the bank the byte's encoding names. */
  function RegisterAt(m: Machine, b: u8): (r: Result<Register, string>)
    requires WellFormed(m)
    ensures r.Ok? && IsInt(b) ==> b < REGISTER_COUNT && r.value == I(m.iregs[b])
    ensures r.Ok? && IsReal(b) ==> IdxFromReal(b) < REGISTER_COUNT && r.value == R(m.rregs[IdxFromReal(b)])
    ensures r.Ok? && !IsInt(b) && !IsReal(b) ==>
      IdxFromVector(b) < REGISTER_COUNT && r.value == V(m.vregs[IdxFromVector(b)])
    ensures r.Ok? && r.value.I? ==> IsI32(r.value.i)
  {
    if IsInt(b) then
      if b < REGISTER_COUNT then Ok(I(m.iregs[b])) else Err("Register index out of range")
    else if IsReal(b) then
      var k := IdxFromReal(b);
      if k < REGISTER_COUNT then Ok(R(m.rregs[k])) else Err("Register index out of range")
    else
      var k := IdxFromVector(b);
      if k < REGISTER_COUNT then Ok(V(m.vregs[k])) else Err("Register index out of range")
  }

  /** A register is read exactly when its byte names a register of one bank
      only: a byte with both kind bits set never names one, so the order in
      which `get_register` tests the bits does not matter. */
  lemma RegisterAtEncodings(m: Machine, b: u8)
    requires WellFormed(m)
    ensures RegisterAt(m, b).Ok? <==> (b < 32 || 64 <= b < 96 || 128 <= b < 160)
    ensures RegisterAt(m, b).Ok? ==> (RegisterAt(m, b).value.V? <==> IsVector(b))
  {
  }

  /** Writing an integer register that has been read. */
  function WriteInt(m: Machine, b: u8, x: int): (r: Machine)
    requires WellFormed(m) && IsInt(b) && b < REGISTER_COUNT && IsI32(x)
    ensures WellFormed(r)
  {
    m.(iregs := m.iregs[b := x])
  }

  /** Writing a real register that has been read. */
  function WriteReal(m: Machine, b: u8, x: F64): (r: Machine)
    requires WellFormed(m) && IdxFromReal(b) < REGISTER_COUNT
    ensures WellFormed(r)
  {
    m.(rregs := m.rregs[IdxFromReal(b) := x])
  }

  /** Writing a vector register that has been read. */
  function WriteVector(m: Machine, b: u8, v: seq<F64>): (r: Machine)
    requires WellFormed(m) && IdxFromVector(b) < REGISTER_COUNT
    ensures WellFormed(r)
  {
    m.(vregs := m.vregs[IdxFromVector(b) := v])
  }

  /** `iter().zip().map(op).collect()`: the element-wise combination. */
  function Zip(va: seq<F64>, vb: seq<F64>, op: (F64, F64) -> F64): (r: seq<F64>)
    requires |va| == |vb|
    ensures |r| == |va| && forall i :: 0 <= i < |r| ==> r[i] == op(va[i], vb[i])
  {
    seq(|va|, i requires 0 <= i < |va| => op(va[i], vb[i]))
  }

  /** `iter().map(|a| op(a, y))`: a scalar on the right of every element. */
  function MapRight(va: seq<F64>, y: F64, op: (F64, F64) -> F64): (r: seq<F64>)
    ensures |r| == |va| && forall i :: 0 <= i < |r| ==> r[i] == op(va[i], y)
  {
    seq(|va|, i requires 0 <= i < |va| => op(va[i], y))
  }

  /** `iter().map(|b| op(x, b))`: a scalar on the left of every element. */
  function MapLeft(x: F64, vb: seq<F64>, op: (F64, F64) -> F64): (r: seq<F64>)
    ensures |r| == |vb| && forall i :: 0 <= i < |r| ==> r[i] == op(x, vb[i])
  {
    seq(|vb|, i requires 0 <= i < |vb| => op(x, vb[i]))
  }

  /** The error messages that tell the binary handlers apart, and whether a
      scalar may stand left of a vector (`Some` holds the error when not). */
  datatype Messages = Messages(unequalLengths: string, scalarFirst: Option<string>, noVector: string)

  /** The shape shared by `add`, `sub`, `mul`, `div`, `and` and `or`, with
      `m.pc` at the operand bytes: the kind of the destination selects the
      branch; an integer destination takes both operands as `i32` (`intOp`
      gives None where the source panics, and a result outside `i32` panics
      too), a real one takes both as `f64`, and a vector destination combines
      two vectors element-wise or broadcasts a scalar. */
  function Binary(m: Machine, intOp: (int, int) -> Option<int>, realOp: (F64, F64) -> F64,
                  messages: Messages): (t: Transition)
    requires WellFormed(m)
    ensures WellFormed(t.next)
    ensures !t.outcome.Panicked? ==> t.next.pc == m.pc + 3 && t.next.program == m.program
  {
    if m.pc + 3 > |m.program| then Transition(Panicked, m)
    else
      var out, aIdx, bIdx := m.program[m.pc], m.program[m.pc + 1], m.program[m.pc + 2];
      var after := m.(pc := m.pc + 3);
      match (RegisterAt(after, aIdx), RegisterAt(after, bIdx))
      case (Err(e), _) => Transition(Failed(e), after)
      case (_, Err(e)) => Transition(Failed(e), after)
      case (Ok(a), Ok(b)) => Combine(m, out, a, b, intOp, realOp, messages)
  }

  /** The second half of `Binary`: the operands `a` and `b` are read, and
      the destination register's bank decides how they combine. */
  function Combine(m: Machine, out: u8, a: Register, b: Register, intOp: (int, int) -> Option<int>,
                   realOp: (F64, F64) -> F64, messages: Messages): (t: Transition)
    requires WellFormed(m) && m.pc + 3 <= |m.program|
    ensures WellFormed(t.next)
    ensures !t.outcome.Panicked? ==> t.next.pc == m.pc + 3 && t.next.program == m.program
  {
    var after := m.(pc := m.pc + 3);
    match RegisterAt(after, out)
    case Err(e) => Transition(Failed(e), after)
    case Ok(I(_)) =>
      (match (ToI32(a), ToI32(b))
       case (Err(e), _) => Transition(Failed(e), after)
       case (_, Err(e)) => Transition(Failed(e), after)
       case (Ok(x), Ok(y)) =>
         match intOp(x, y)
         case Some(z) => if IsI32(z) then Transition(Done, WriteInt(after, out, z)) else Transition(Panicked, m)
         case None => Transition(Panicked, m))
    case Ok(R(_)) =>
      (match (ToF64(a), ToF64(b))
       case (Err(e), _) => Transition(Failed(e), after)
       case (_, Err(e)) => Transition(Failed(e), after)
       case (Ok(x), Ok(y)) => Transition(Done, WriteReal(after, out, realOp(x, y))))
    case Ok(V(_)) =>
      if a.V? && b.V? then
        if |a.v| != |b.v| then Transition(Failed(messages.unequalLengths), after)
        else Transition(Done, WriteVector(after, out, Zip(a.v, b.v, realOp)))
      else if a.V? then
        (match ToF64(b)
         case Ok(y) => Transition(Done, WriteVector(after, out, MapRight(a.v, y, realOp)))
         case Err(e) => Transition(Failed(e), after))
      else if b.V? then
        (match messages.scalarFirst
         case Some(message) => Transition(Failed(message), after)
         case None =>
           match ToF64(a)
           case Ok(x) => Transition(Done, WriteVector(after, out, MapLeft(x, b.v, realOp)))
           case Err(e) => Transition(Failed(e), after))
      else Transition(Failed(messages.noVector), after)
}

  /** The kind of the destination decides what a binary handler writes: an
      integer destination receives `intOp` of the operands as `i32`, a real
      one `realOp` of them as `f64`, and a vector operand into a scalar
      destination fails in its conversion. */
  lemma BinaryScalarDestinations(m: Machine, intOp: (int, int) -> Option<int>, realOp: (F64, F64) -> F64,
                                 messages: Messages)
    requires WellFormed(m) && m.pc + 3 <= |m.program|
    requires RegisterAt(m, m.program[m.pc]).Ok? && RegisterAt(m, m.program[m.pc + 1]).Ok?
    requires RegisterAt(m, m.program[m.pc + 2]).Ok?
    ensures var out := m.program[m.pc];
      var a, b := RegisterAt(m, m.program[m.pc + 1]).value, RegisterAt(m, m.program[m.pc + 2]).value;
      var t := Binary(m, intOp, realOp, messages);
      && (IsInt(out) && !a.V? && !b.V? && intOp(ToI32(a).value, ToI32(b).value).Some?
          && IsI32(intOp(ToI32(a).value, ToI32(b).value).value) ==>
            t == Transition(Done, m.(pc := m.pc + 3, iregs := m.iregs[out := intOp(ToI32(a).value, ToI32(b).value).value])))
      && (IsReal(out) && !a.V? && !b.V? ==>
            t == Transition(Done, m.(pc := m.pc + 3, rregs := m.rregs[IdxFromReal(out) := realOp(ToF64(a).value, ToF64(b).value)])))
      && (!IsVector(out) && (a.V? || b.V?) ==> t.outcome.Failed?)
  {
    var after := m.(pc := m.pc + 3);
    assert RegisterAt(after, m.program[m.pc]) == RegisterAt(m, m.program[m.pc]);
    assert RegisterAt(after, m.program[m.pc + 1]) == RegisterAt(m, m.program[m.pc + 1]);
    assert RegisterAt(after, m.program[m.pc + 2]) == RegisterAt(m, m.program[m.pc + 2]);
  }

  /** Into an integer destination: a vector operand fails with the program
      counter past the operands, and two scalars store `intOp`'s result taken
      on their `i32` values, or panic where `intOp` gives none. */
  lemma BinaryIntegerDestination(m: Machine, intOp: (int, int) -> Option<int>, realOp: (F64, F64) -> F64,
                                 messages: Messages)
    requires WellFormed(m) && m.pc + 3 <= |m.program|
    requires IsInt(m.program[m.pc]) && m.program[m.pc] < REGISTER_COUNT
    requires RegisterAt(m, m.program[m.pc + 1]).Ok? && RegisterAt(m, m.program[m.pc + 2]).Ok?
    requires forall x, y :: intOp(x, y).Some? ==> IsI32(intOp(x, y).value)
    ensures var out := m.program[m.pc];
      var a, b := RegisterAt(m, m.program[m.pc + 1]).value, RegisterAt(m, m.program[m.pc + 2]).value;
      var t := Binary(m, intOp, realOp, messages);
      && (a.V? || b.V? ==> t.outcome.Failed? && t.next == m.(pc := m.pc + 3))
      && (!a.V? && !b.V? && intOp(ToI32(a).value, ToI32(b).value).Some? ==>
            t == Transition(Done, m.(pc := m.pc + 3, iregs := m.iregs[out := intOp(ToI32(a).value, ToI32(b).value).value])))
      && (!a.V? && !b.V? && intOp(ToI32(a).value, ToI32(b).value).None? ==> t.outcome == Panicked)
  {
    var after := m.(pc := m.pc + 3);
    assert RegisterAt(after, m.program[m.pc]) == RegisterAt(m, m.program[m.pc]);
    assert RegisterAt(after, m.program[m.pc + 1]) == RegisterAt(m, m.program[m.pc + 1]);
    assert RegisterAt(after, m.program[m.pc + 2]) == RegisterAt(m, m.program[m.pc + 2]);
  }

  /** Into a vector destination: two vectors of unequal length fail, of equal
      length combine element by element; a vector and a scalar on its right
      broadcast; a scalar on the left broadcasts only where the handler allows
      it; two scalars fail. Every vector result has its operand's length. */
  lemma BinaryVectorDestination(m: Machine, intOp: (int, int) -> Option<int>, realOp: (F64, F64) -> F64,
                                messages: Messages)
    requires WellFormed(m) && m.pc + 3 <= |m.program|
    requires RegisterAt(m, m.program[m.pc]).Ok? && IsVector(m.program[m.pc])
    requires RegisterAt(m, m.program[m.pc + 1]).Ok? && RegisterAt(m, m.program[m.pc + 2]).Ok?
    ensures var out := m.program[m.pc];
      var a, b := RegisterAt(m, m.program[m.pc + 1]).value, RegisterAt(m, m.program[m.pc + 2]).value;
      var t := Binary(m, intOp, realOp, messages);
      var k := IdxFromVector(out);
      && (a.V? && b.V? && |a.v| != |b.v| ==> t.outcome == Failed(messages.unequalLengths))
      && (a.V? && b.V? && |a.v| == |b.v| ==>
            t.outcome == Done && |t.next.vregs[k]| == |a.v|
            && forall i :: 0 <= i < |a.v| ==> t.next.vregs[k][i] == realOp(a.v[i], b.v[i]))
      && (a.V? && !b.V? ==>
            t.outcome == Done && |t.next.vregs[k]| == |a.v|
            && forall i :: 0 <= i < |a.v| ==> t.next.vregs[k][i] == realOp(a.v[i], ToF64(b).value))
      && (!a.V? && b.V? && messages.scalarFirst.Some? ==> t.outcome == Failed(messages.scalarFirst.value))
      && (!a.V? && b.V? && messages.scalarFirst.None? ==>
            t.outcome == Done && |t.next.vregs[k]| == |b.v|
            && forall i :: 0 <= i < |b.v| ==> t.next.vregs[k][i] == realOp(ToF64(a).value, b.v[i]))
      && (!a.V? && !b.V? ==> t.outcome == Failed(messages.noVector))
      && (t.outcome == Done ==> t.next.iregs == m.iregs && t.next.rregs == m.rregs)
  {
    var after := m.(pc := m.pc + 3);
    assert RegisterAt(after, m.program[m.pc]) == RegisterAt(m, m.program[m.pc]);
    assert RegisterAt(after, m.program[m.pc + 1]) == RegisterAt(m, m.program[m.pc + 1]);
    assert RegisterAt(after, m.program[m.pc + 2]) == RegisterAt(m, m.program[m.pc + 2]);
  }

  /** The machine the handlers run on; its register banks are fixed arrays. */
  class VM {
    const iregisters: array<int>
    const rregisters: array<F64>
    const vregisters: array<seq<F64>>
    var program: seq<u8>
    var pc: nat

    /** The machine's state as a value. */
    function State(): Machine
      reads this, iregisters, rregisters, vregisters
    {
      Machine(iregisters[..], rregisters[..], vregisters[..], program, pc)
    }

    /** A machine with zeroed registers and empty vectors. */
    constructor ()
      ensures State() == Fresh && WellFormed(State())
    {
      iregisters := new int[REGISTER_COUNT](_ => 0);
      rregisters := new F64[REGISTER_COUNT](_ => Float.Fin(0.0));
      vregisters := new seq<F64>[REGISTER_COUNT](_ => []);
      program, pc := [], 0;
    }

    /** `next_u8`; None where the source indexes past the program. */
    method NextU8() returns (b: Option<u8>)
      modifies this
      ensures old(pc) < |program| ==> b == Some(program[old(pc)]) && pc == old(pc) + 1
      ensures old(pc) >= |program| ==> b.None? && pc == old(pc)
      ensures program == old(program)
      ensures State() == old(State()).(pc := pc)
    {
      if pc >= |program| {
        return None;
      }
      b := Some(program[pc]);
      pc := pc + 1;
    }

    /** Three `next_u8` calls in a row: the destination and the two operand
        bytes, or None where the program ends before the third. */
    method NextThree() returns (r: Option<(u8, u8, u8)>)
      modifies this
      ensures old(pc) + 3 <= |program| <==> r.Some?
      ensures r.Some? ==> r.value == (program[old(pc)], program[old(pc) + 1], program[old(pc) + 2])
      ensures r.Some? ==> State() == old(State()).(pc := old(pc) + 3)
      ensures program == old(program)
    {
      var out := NextU8();
      var a := NextU8();
      var b := NextU8();
      if out.None? || a.None? || b.None? {
        return None;
      }
      r := Some((out.value, a.value, b.value));
    }

    /** Two `next_u8` calls in a row: the two operand bytes, or None where
        the program ends before the second. */
    method NextTwo() returns (r: Option<(u8, u8)>)
      modifies this
      ensures old(pc) + 2 <= |program| <==> r.Some?
      ensures r.Some? ==> r.value == (program[old(pc)], program[old(pc) + 1])
      ensures r.Some? ==> State() == old(State()).(pc := old(pc) + 2)
      ensures program == old(program)
    {
      var a := NextU8();
      var b := NextU8();
      if a.None? || b.None? {
        return None;
      }
      r := Some((a.value, b.value));
    }

    /** `get_register` on two operand bytes, the first one first. */
    method GetRegisters(a: u8, b: u8) returns (r: Result<(Register, Register), string>)
      requires WellFormed(State())
      ensures RegisterAt(State(), a).Err? ==> r == Err(RegisterAt(State(), a).error)
      ensures RegisterAt(State(), a).Ok? && RegisterAt(State(), b).Err? ==> r == Err(RegisterAt(State(), b).error)
      ensures RegisterAt(State(), a).Ok? && RegisterAt(State(), b).Ok? ==>
        r == Ok((RegisterAt(State(), a).value, RegisterAt(State(), b).value))
    {
      var ra := GetRegister(a);
      if ra.Err? {
        return Err(ra.error);
      }
      var rb := GetRegister(b);
      if rb.Err? {
        return Err(rb.error);
      }
      r := Ok((ra.value, rb.value));
    }

    /** `get_register`. */
    method GetRegister(b: u8) returns (r: Result<Register, string>)
      requires WellFormed(State())
      ensures r == RegisterAt(State(), b)
    {
      if IsInt(b) {
        if b >= REGISTER_COUNT {
          return Err("Register index out of range");
        }
        r := Ok(I(iregisters[b]));
      } else if IsReal(b) {
        var k := IdxFromReal(b);
        if k >= REGISTER_COUNT {
          return Err("Register index out of range");
        }
        r := Ok(R(rregisters[k]));
      } else {
        var k := IdxFromVector(b);
        if k >= REGISTER_COUNT {
          return Err("Register index out of range");
        }
        r := Ok(V(vregisters[k]));
      }
    }
  }

  /** The body shared by the binary handlers, run on `vm`. */
  method ApplyBinary(vm: VM, intOp: (int, int) -> Option<int>, realOp: (F64, F64) -> F64,
                     messages: Messages) returns (r: Outcome)
    requires WellFormed(vm.State())
    modifies vm, vm.iregisters, vm.rregisters, vm.vregisters
    ensures Follows(r, vm.State(), Binary(old(vm.State()), intOp, realOp, messages))
  {
    ghost var m := vm.State();
    var operands := vm.NextThree();
    if operands.None? {
      return Panicked;
    }
    var (out, aIdx, bIdx) := operands.value;
    var pair := vm.GetRegisters(aIdx, bIdx);
    if pair.Err? {
      return Failed(pair.error);
    }
    r := CombineInto(vm, out, pair.value.0, pair.value.1, intOp, realOp, messages, m);
  }

  /** The second half of `ApplyBinary`: the operands are read and the
      program counter is past them. */
  method CombineInto(vm: VM, out: u8, a: Register, b: Register, intOp: (int, int) -> Option<int>,
                     realOp: (F64, F64) -> F64, messages: Messages, ghost m: Machine) returns (r: Outcome)
    requires WellFormed(m) && m.pc + 3 <= |m.program| && vm.State() == m.(pc := m.pc + 3)
    modifies vm.iregisters, vm.rregisters, vm.vregisters
    ensures Follows(r, vm.State(), Combine(m, out, a, b, intOp, realOp, messages))
  {
    var outReg := vm.GetRegister(out);
    if outReg.Err? {
      return Failed(outReg.error);
    }
    match outReg.value {
    case I(_) =>
      var x := ToI32(a);
      if x.Err? {
        return Failed(x.error);
      }
      var y := ToI32(b);
      if y.Err? {
        return Failed(y.error);
      }
      var z := intOp(x.value, y.value);
      if z.None? || !IsI32(z.value) {
        return Panicked;
      }
      vm.iregisters[out] := z.value;
    case R(_) =>
      var x := ToF64(a);
      if x.Err? {
        return Failed(x.error);
      }
      var y := ToF64(b);
      if y.Err? {
        return Failed(y.error);
      }
      vm.rregisters[IdxFromReal(out)] := realOp(x.value, y.value);
    case V(_) =>
      var k := IdxFromVector(out);
      if a.V? {
        if b.V? {
          if |a.v| != |b.v| {
            return Failed(messages.unequalLengths);
          }
          vm.vregisters[k] := Zip(a.v, b.v, realOp);
        } else {
          match ToF64(b) {
            case Err(e) => return Failed(e);
            case Ok(y) => vm.vregisters[k] := MapRight(a.v, y, realOp);
          }
        }
      } else if b.V? {
        if messages.scalarFirst.Some? {
          return Failed(messages.scalarFirst.value);
        }
        match ToF64(a) {
          case Err(e) => return Failed(e);
          case Ok(x) => vm.vregisters[k] := MapLeft(x, b.v, realOp);
        }
      } else {
        return Failed(messages.noVector);
      }
    }
    return Done;
  }
}
