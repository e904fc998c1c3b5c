/** The bytecode virtual machine (src/vm/mod.rs): 32 integer and 32 real
    registers, the loaded program with its program counter, a byte heap and
    the read-only data section. The pure functions `Loaded`, `Next` and
    `Execution` on a `Machine` value specify `set_bytecode`, `step` and
    `run`; the `VM` class executes them in place.

    A panic of the Rust program (an index out of bounds, an `unwrap` of
    nothing, an arithmetic overflow of a debug build, a division by zero) is
    the outcome `Panicked`; the state it leaves behind is never observed.
    Text the `PRINT` instruction writes to standard output is collected in
    `stdout`, one entry per line. */
module Vm {
  import opened Wrappers
  import opened Bytes
  import opened Float
  import opened AsmToken
  import Instruction
  import Register
  import Utf8
  import Asm

  /** Each register bank holds 32 registers. */
  const REGISTER_COUNT: nat := 32

  /** `usize` is 64 bits wide. */
  const USIZE_MODULUS: nat := 0x1_0000_0000_0000_0000

  /** The whole state of the machine. */
  datatype Machine = Machine(
    iregs: seq<int>,
    rregs: seq<F64>,
    program: seq<u8>,
    heap: seq<u8>,
    pc: nat,
    roData: seq<u8>,
    stdout: seq<seq<u8>>)

  /** Both banks have 32 registers and the integer registers hold `i32` values. */
  predicate WellFormed(m: Machine) {
    |m.iregs| == REGISTER_COUNT && |m.rregs| == REGISTER_COUNT
    && forall k :: 0 <= k < |m.iregs| ==> IsI32(m.iregs[k])
  }

  /** `VM::new`: zeroed registers, nothing loaded. */
  const Fresh: Machine :=
    Machine(seq(REGISTER_COUNT, _ => 0), seq(REGISTER_COUNT, _ => Fin(0.0)), [], [], 0, [], [])

  /** What a call returns: its value, an `Error` with its message, or a panic. */
  datatype Outcome<T> = Returned(value: T) | Error(message: string) | Panicked

  /** The outcome of a call together with the state it leaves; after a panic
      the state is the one before the call. */
  datatype Transition<T> = Transition(outcome: Outcome<T>, next: Machine)

  function Continue(m: Machine): Transition<bool> { Transition(Returned(false), m) }

  function Panic<T>(m: Machine): Transition<T> { Transition(Panicked, m) }

  /** `is_valid_bytecode`: longer than the header and starting with `DOVM`. */
  predicate IsValidBytecode(bytecode: seq<u8>) {
    |bytecode| > DO_HEADER_LEN && bytecode[..4] == DO_HEADER_PREFIX
  }

  /** `is_int_register` of this file tests bit 7 only, unlike the register
      module, which also requires bit 6 to be clear. */
  predicate IsIntRegister(b: u8) { b < 128 }

  /** `set_bytecode`: the program becomes the bytecode, the read-only section
      named by the header's length field is appended to `ro_data`, and
      execution is to start right after it. */
  function Loaded(m: Machine, bytecode: seq<u8>): (t: Transition<()>)
    ensures !IsValidBytecode(bytecode) ==> t == Transition(Error("Invalid bytecode"), m)
    ensures t.outcome.Returned? ==>
      && IsValidBytecode(bytecode)
      && t.next.program == bytecode
      && t.next.pc == DO_HEADER_LEN + BigEndian(bytecode[4..8]) <= |bytecode|
      && t.next.roData == m.roData + bytecode[DO_HEADER_LEN..t.next.pc]
      && t.next.iregs == m.iregs && t.next.rregs == m.rregs && t.next.heap == m.heap
  {
    if !IsValidBytecode(bytecode) then Transition(Error("Invalid bytecode"), m)
    else
      var roLength := BigEndian(bytecode[4..8]);
      var roEnd := DO_HEADER_LEN + roLength;
      if roEnd > |bytecode| then Panic(m)
      else
        Transition(Returned(()),
          m.(program := bytecode, roData := m.roData + bytecode[DO_HEADER_LEN..roEnd], pc := roEnd))
  }

  /** `x as usize` for an `i32`: a negative value wraps to the top of the range. */
  function AsUsize(x: int): (u: nat)
    requires IsI32(x)
    ensures x >= 0 ==> u == x
    ensures x < 0 ==> u >= USIZE_MODULUS - 0x8000_0000
  {
    if x < 0 then x + USIZE_MODULUS else x
  }

  /** `n as i32` for a `usize`: the low 32 bits, read as two's complement. */
  function WrapI32(n: nat): (x: int)
    ensures IsI32(x)
    ensures n <= I32_MAX ==> x == n
  {
    var low := n % 0x1_0000_0000;
    if low > I32_MAX then low - 0x1_0000_0000 else low
  }

  /** A register's value as the handlers read it. */
  datatype Scalar = IntValue(i: int) | RealValue(r: F64)

  /** Reading the register a byte names: an integer register when bit 7 is
      clear, else the real register of the low seven bits; None when that
      index is past the bank (an index out of bounds). */
  function ReadRegister(m: Machine, b: u8): (v: Option<Scalar>)
    requires WellFormed(m)
    ensures v.Some? <==> (if IsIntRegister(b) then b < REGISTER_COUNT else Register.IdxFromReal(b) < REGISTER_COUNT)
    ensures v.Some? && IsIntRegister(b) ==> v.value == IntValue(m.iregs[b])
    ensures v.Some? && !IsIntRegister(b) ==> v.value == RealValue(m.rregs[Register.IdxFromReal(b)])
    ensures v.Some? && v.value.IntValue? ==> IsI32(v.value.i)
  {
    if IsIntRegister(b) then
      if b < REGISTER_COUNT then Some(IntValue(m.iregs[b])) else None
    else
      var k := Register.IdxFromReal(b);
      if k < REGISTER_COUNT then Some(RealValue(m.rregs[k])) else None
  }

  /** The operand as an `i32`: reals are cast with `as i32`. */
  function AsI32(v: Scalar): (i: int)
    ensures IsI32(i)
    ensures v.IntValue? && IsI32(v.i) ==> i == v.i
  {
    match v
    case IntValue(i) => if IsI32(i) then i else 0
    case RealValue(r) => Float.ToI32(r)
  }

  /** The operand as an `f64`: integers are widened exactly. */
  function AsF64(v: Scalar): F64 {
    match v
    case IntValue(i) => FromInt(i)
    case RealValue(r) => r
  }

  /** Writing an integer register; None when the index is past the bank. */
  function StoreInt(m: Machine, dest: u8, x: int): (r: Option<Machine>)
    requires WellFormed(m) && IsIntRegister(dest) && IsI32(x)
    ensures r.Some? <==> dest < REGISTER_COUNT
    ensures r.Some? ==> WellFormed(r.value) && r.value == m.(iregs := m.iregs[dest := x])
  {
    if dest < REGISTER_COUNT then Some(m.(iregs := m.iregs[dest := x])) else None
  }

  /** Writing the real register of a byte with bit 7 set; None past the bank. */
  function StoreReal(m: Machine, dest: u8, x: F64): (r: Option<Machine>)
    requires WellFormed(m) && !IsIntRegister(dest)
    ensures r.Some? <==> Register.IdxFromReal(dest) < REGISTER_COUNT
    ensures r.Some? ==> WellFormed(r.value) && r.value == m.(rregs := m.rregs[Register.IdxFromReal(dest) := x])
  {
    var k := Register.IdxFromReal(dest);
    if k < REGISTER_COUNT then Some(m.(rregs := m.rregs[k := x])) else None
  }

  /** Continue with the written state, or panic when the write was out of bounds. */
  function Stored(m: Machine, written: Option<Machine>): (t: Transition<bool>)
    requires WellFormed(m) && (written.Some? ==> WellFormed(written.value))
    ensures WellFormed(t.next)
  {
    match written
    case Some(next) => Continue(next)
    case None => Panic(m)
  }

  /** The four arithmetic instructions. */
  datatype ArithOp = Plus | Minus | Times | Quotient

  /** `i32` division, truncating toward zero. */
  function TruncDiv(a: int, b: int): (q: int)
    requires b != 0
    ensures a >= 0 && b > 0 ==> q == a / b
  {
    var magnitude := (if a < 0 then -a else a) / (if b < 0 then -b else b);
    if (a < 0) != (b < 0) then -magnitude else magnitude
  }

  /** Checked `i32` arithmetic: None when the result overflows or the divisor
      is zero, where the Rust program panics. */
  function IntArith(op: ArithOp, a: int, b: int): (r: Option<int>)
    ensures r.Some? ==> IsI32(r.value)
    ensures op == Plus && IsI32(a + b) ==> r == Some(a + b)
    ensures op == Minus && IsI32(a - b) ==> r == Some(a - b)
    ensures op == Times && IsI32(a * b) ==> r == Some(a * b)
    ensures op == Quotient ==> (r.Some? ==> b != 0)
  {
    var x :=
      match op
      case Plus => Some(a + b)
      case Minus => Some(a - b)
      case Times => Some(a * b)
      case Quotient => if b == 0 then None else Some(TruncDiv(a, b));
    if x.Some? && IsI32(x.value) then x else None
  }

  /** `f64` arithmetic. */
  function RealArith(op: ArithOp, a: F64, b: F64): F64 {
    match op
    case Plus => Add(a, b)
    case Minus => Sub(a, b)
    case Times => Mul(a, b)
    case Quotient => Div(a, b)
  }

  /** `add`, `sub`, `mul` and `div` with `m.pc` just past the opcode: the
      destination's kind decides whether both operands are taken as `i32`
      or as `f64`. */
  function Arith(m: Machine, op: ArithOp): (t: Transition<bool>)
    requires WellFormed(m)
    ensures WellFormed(t.next)
    ensures t.outcome.Returned? ==> t.outcome.value == false && t.next.pc == m.pc + 3
    ensures !t.outcome.Error?
  {
    if m.pc + 3 > |m.program| then Panic(m)
    else
      var dest, aReg, bReg := m.program[m.pc], m.program[m.pc + 1], m.program[m.pc + 2];
      var after := m.(pc := m.pc + 3);
      match (ReadRegister(after, aReg), ReadRegister(after, bReg))
      case (Some(a), Some(b)) =>
        if IsIntRegister(dest) then
          (match IntArith(op, AsI32(a), AsI32(b))
           case Some(x) => Stored(m, StoreInt(after, dest, x))
           case None => Panic(m))
        else Stored(m, StoreReal(after, dest, RealArith(op, AsF64(a), AsF64(b))))
      case _ => Panic(m)
  }

  /** The six comparison instructions. */
  datatype CompareOp = EqualTo | NotEqualTo | GreaterThan | LessThan | AtLeast | AtMost

  /** `(a - b).abs() > f64::EPSILON`. */
  predicate Apart(a: F64, b: F64) {
    match Sub(a, b)
    case Fin(d) => (if d < 0.0 then -d else d) > EPSILON
    case Inf(_) => true
    case NaN => false
  }

  /** Whether the comparison holds of the two operands taken as `f64`. */
  predicate Holds(op: CompareOp, a: F64, b: F64) {
    match op
    case EqualTo => NearlyEqual(a, b)
    case NotEqualTo => Apart(a, b)
    case GreaterThan => Gt(a, b)
    case LessThan => Lt(a, b)
    case AtLeast => Ge(a, b)
    case AtMost => Le(a, b)
  }

  /** `eq` … `lte`: both operands as `f64`, 1 or 0 into the destination of either kind. */
  function Compare(m: Machine, op: CompareOp): (t: Transition<bool>)
    requires WellFormed(m)
    ensures WellFormed(t.next)
    ensures t.outcome.Returned? ==> t.outcome.value == false && t.next.pc == m.pc + 3
    ensures !t.outcome.Error?
  {
    if m.pc + 3 > |m.program| then Panic(m)
    else
      var dest, aReg, bReg := m.program[m.pc], m.program[m.pc + 1], m.program[m.pc + 2];
      var after := m.(pc := m.pc + 3);
      match (ReadRegister(after, aReg), ReadRegister(after, bReg))
      case (Some(a), Some(b)) =>
        var flag := Holds(op, AsF64(a), AsF64(b));
        if IsIntRegister(dest) then Stored(m, StoreInt(after, dest, if flag then 1 else 0))
        else Stored(m, StoreReal(after, dest, Fin(if flag then 1.0 else 0.0)))
      case _ => Panic(m)
  }

  /** `LOAD`: an integer register takes the next four bytes as a big-endian
      `i32`, a real register the next eight as a binary64. */
  function Load(m: Machine): (t: Transition<bool>)
    requires WellFormed(m)
    ensures WellFormed(t.next)
    ensures !t.outcome.Error?
  {
    if m.pc >= |m.program| then Panic(m)
    else
      var dest := m.program[m.pc];
      if IsIntRegister(dest) then
        if m.pc + 5 > |m.program| then Panic(m)
        else
          var x := BytesToI32(m.program[m.pc + 1..m.pc + 5]);
          Stored(m, StoreInt(m.(pc := m.pc + 5), dest, x))
      else
        if m.pc + 9 > |m.program| then Panic(m)
        else
          var x := FromBytes(m.program[m.pc + 1..m.pc + 9]);
          Stored(m, StoreReal(m.(pc := m.pc + 9), dest, x))
  }

  /** `JMP`: to the value of the integer register the operand byte indexes. */
  function Jump(m: Machine): (t: Transition<bool>)
    requires WellFormed(m)
    ensures WellFormed(t.next)
    ensures !t.outcome.Error?
  {
    if m.pc >= |m.program| then Panic(m)
    else
      var reg := m.program[m.pc];
      if reg >= REGISTER_COUNT then Panic(m)
      else Continue(m.(pc := AsUsize(m.iregs[reg])))
  }

  /** `jeq`: the target must be an integer register; the jump is taken when
      the two operands are equal to within `f64::EPSILON`. */
  function JumpIfEqual(m: Machine): (t: Transition<bool>)
    requires WellFormed(m)
    ensures WellFormed(t.next)
  {
    if m.pc >= |m.program| then Panic(m)
    else
      var reg := m.program[m.pc];
      if !IsIntRegister(reg) then
        Transition(Error("Cannot jump to non-integer location"), m.(pc := m.pc + 1))
      else if reg >= REGISTER_COUNT || m.pc + 3 > |m.program| then Panic(m)
      else
        var target := m.iregs[reg];
        var aReg, bReg := m.program[m.pc + 1], m.program[m.pc + 2];
        var after := m.(pc := m.pc + 3);
        match (ReadRegister(after, aReg), ReadRegister(after, bReg))
        case (Some(a), Some(b)) =>
          if NearlyEqual(AsF64(a), AsF64(b)) then Continue(after.(pc := AsUsize(target)))
          else Continue(after)
        case _ => Panic(m)
  }

  /** `Vec::resize(n, 0)`: truncated to `n` bytes or extended with zeros. */
  function Resize(s: seq<u8>, n: nat): (r: seq<u8>)
    ensures |r| == n
    ensures forall k :: 0 <= k < n && k < |s| ==> r[k] == s[k]
    ensures forall k :: |s| <= k < n ==> r[k] == 0
  {
    if n <= |s| then s[..n] else s + seq(n - |s|, _ => 0)
  }

  /** `ALLOC`: the destination must be an integer register and receives the
      old heap length; the heap is resized by the contents of the byte-count
      register. The source's second guard tests the destination again, so
      the kind of the byte-count register is never checked: a real one is
      an index out of bounds. */
  function Alloc(m: Machine): (t: Transition<bool>)
    requires WellFormed(m)
    ensures WellFormed(t.next)
  {
    if m.pc >= |m.program| then Panic(m)
    else
      var reg := m.program[m.pc];
      if !IsIntRegister(reg) then
        Transition(Error("Cannot write heap location to non-integer register"), m.(pc := m.pc + 1))
      else if m.pc + 2 > |m.program| then Panic(m)
      else
        var bytesReg := m.program[m.pc + 1];
        if bytesReg >= REGISTER_COUNT || reg >= REGISTER_COUNT then Panic(m)
        else
          var bytes := m.iregs[bytesReg];
          var start := WrapI32(|m.heap|);
          var newEnd := start + bytes;
          // an overflowing sum panics, and a negative one is a `usize` no
          // allocation can reach
          if !IsI32(newEnd) || newEnd < 0 then Panic(m)
          else
            Continue(m.(pc := m.pc + 2, iregs := m.iregs[reg := start], heap := Resize(m.heap, newEnd)))
  }

  /** The index of the first zero byte of `s` at or after `k`, if any. */
  function FirstNul(s: seq<u8>, k: nat): (r: Option<nat>)
    ensures r.Some? ==> k <= r.value < |s| && s[r.value] == 0
    ensures r.Some? ==> forall j :: k <= j < r.value ==> s[j] != 0
    ensures r.None? ==> forall j :: k <= j < |s| ==> s[j] != 0
    decreases |s| - k
  {
    if k >= |s| then None
    else if s[k] == 0 then Some(k)
    else FirstNul(s, k + 1)
  }

  /** `PRINT`: the zero-terminated string at a 16-bit offset into `ro_data`,
      printed as one line when it is valid UTF-8. */
  function Print(m: Machine): (t: Transition<bool>)
    requires WellFormed(m)
    ensures WellFormed(t.next)
  {
    if m.pc + 2 > |m.program| then Panic(m)
    else
      var offset := BigEndian(m.program[m.pc..m.pc + 2]);
      var after := m.(pc := m.pc + 2);
      match FirstNul(m.roData, offset)
      case None => Panic(m)
      case Some(end) =>
        var text := m.roData[offset..end];
        if Utf8.Valid(text) then Continue(after.(stdout := m.stdout + [text]))
        else Transition(Error("Error decoding string to print"), after)
  }

  /** The instruction of an opcode, with `m.pc` just past the opcode byte. */
  function Execute(m: Machine, op: Instruction.Opcode): (t: Transition<bool>)
    requires WellFormed(m)
    ensures WellFormed(t.next)
  {
    match op
    case HLT => Transition(Returned(true), m)
    case LOAD => Load(m)
    case ADD => Arith(m, Plus)
    case SUB => Arith(m, Minus)
    case MUL => Arith(m, Times)
    case DIV => Arith(m, Quotient)
    case JMP => Jump(m)
    case EQ => Compare(m, EqualTo)
    case NEQ => Compare(m, NotEqualTo)
    case GT => Compare(m, GreaterThan)
    case LT => Compare(m, LessThan)
    case GTE => Compare(m, AtLeast)
    case LTE => Compare(m, AtMost)
    case JEQ => JumpIfEqual(m)
    case ALLOC => Alloc(m)
    case PRINT => Print(m)
    case IGL => Transition(Error("Unrecognized opcode 'IGL'"), m)
  }

  /** `step`: fails once `pc` has left the program, panics on a byte that is
      no opcode, and otherwise executes the opcode at `pc`; `Returned(true)`
      means the machine halted. The machine stays well-formed. */
  function Next(m: Machine): (t: Transition<bool>)
    requires WellFormed(m)
    ensures WellFormed(t.next)
    ensures m.pc >= |m.program| ==> t == Transition(Error("Ran out of program to run"), m)
  {
    if m.pc >= |m.program| then Transition(Error("Ran out of program to run"), m)
    else
      match Instruction.TryFromByte(m.program[m.pc])
      case None => Panic(m)
      case Some(op) => Execute(m.(pc := m.pc + 1), op)
  }

  /** A step function that applies to every well-formed machine and leaves
      a well-formed one behind. */
  ghost predicate KeepsWellFormed(step: Machine --> Transition<bool>) {
    forall m :: WellFormed(m) ==> step.requires(m) && WellFormed(step(m).next)
  }

  lemma NextKeepsWellFormed()
    ensures KeepsWellFormed(Next)
  {
    forall m | WellFormed(m)
      ensures WellFormed(Next(m).next)
    {
    }
  }

  /** At most `fuel` steps of `step` from `m`: `Returned(true)` when the
      machine halted, `Returned(false)` when the fuel ran out first,
      otherwise the error or panic of the failing step. */
  function Iterate(step: Machine --> Transition<bool>, m: Machine, fuel: nat): (t: Transition<bool>)
    requires KeepsWellFormed(step) && WellFormed(m)
    ensures WellFormed(t.next)
    decreases fuel, 0
  {
    if fuel == 0 then Transition(Returned(false), m)
    else Resume(step, step(m), fuel - 1)
  }

  /** The rest of a run after a step: the step's transition when it halted,
      failed or panicked, otherwise the run from the new state. */
  function Resume(step: Machine --> Transition<bool>, s: Transition<bool>, fuel: nat): (t: Transition<bool>)
    requires KeepsWellFormed(step) && WellFormed(s.next)
    ensures WellFormed(t.next)
    decreases fuel, 1
  {
    if s.outcome == Returned(false) then Iterate(step, s.next, fuel) else s
  }

  /** `run`, for at most `fuel` steps of `step`. */
  function Execution(m: Machine, fuel: nat): (t: Transition<bool>)
    requires WellFormed(m)
    ensures WellFormed(t.next)
    ensures fuel == 0 ==> t == Transition(Returned(false), m)
  {
    NextKeepsWellFormed();
    Iterate(Next, m, fuel)
  }

  /** Whether the state and outcome of a call agree with a transition: the
      state is constrained only when the call did not panic. */
  predicate Follows<T(==)>(r: Outcome<T>, after: Machine, t: Transition<T>) {
    r == t.outcome && (!r.Panicked? ==> after == t.next)
  }

  /** The machine itself: the register banks are fixed arrays updated in
      place, the other fields are reassigned. */
  class VM {
    const iregisters: array<int>
    const rregisters: array<F64>
    var program: seq<u8>
    var heap: seq<u8>
    var pc: nat
    var roData: seq<u8>
    var stdout: seq<seq<u8>>

    /** The machine's state as a value. */
    function State(): Machine
      reads this, iregisters, rregisters
    {
      Machine(iregisters[..], rregisters[..], program, heap, pc, roData, stdout)
    }

    /** `VM::new`. */
    constructor ()
      ensures State() == Fresh && WellFormed(State())
    {
      iregisters := new int[REGISTER_COUNT](_ => 0);
      rregisters := new F64[REGISTER_COUNT](_ => Fin(0.0));
      program, heap, pc, roData, stdout := [], [], 0, [], [];
      new;
      assert iregisters[..] == seq(REGISTER_COUNT, _ => 0);
      assert rregisters[..] == seq(REGISTER_COUNT, _ => Fin(0.0));
    }

    /** `set_bytecode`, with the read-only length assembled from the four
        header bytes by shifts. */
    method SetBytecode(bytecode: seq<u8>) returns (r: Outcome<()>)
      modifies this
      ensures Follows(r, State(), Loaded(old(State()), bytecode))
    {
      if !IsValidBytecode(bytecode) {
        return Error("Invalid bytecode");
      }
      program := bytecode;
      var bytes := program[4..8];
      var b0, b1, b2, b3: nat := bytes[0], bytes[1], bytes[2], bytes[3];
      var roLength := b0 * 0x100_0000 + b1 * 0x1_0000 + b2 * 0x100 + b3;
      assert roLength == BigEndian(bytes) by {
        assert bytes[..3][..2][..1][..0] == [];
        assert bytes[..3][..2] == bytes[..2] && bytes[..2][..1] == bytes[..1];
        assert BigEndian(bytes[..1]) == b0;
        assert BigEndian(bytes[..2]) == b0 * 0x100 + b1;
        assert BigEndian(bytes[..3]) == b0 * 0x1_0000 + b1 * 0x100 + b2;
      }
      var roEnd := DO_HEADER_LEN + roLength;
      if roLength != 0 {
        if roEnd > |program| {
          return Panicked;
        }
        roData := roData + program[DO_HEADER_LEN..roEnd];
      }
      pc := roEnd;
      return Returned(());
    }

    /** `next_u8`, `next_u16`, `next_i32` and `next_f64`: the `n` bytes at
        `pc`, which then moves past them; None when the program ends first. */
    method Fetch(n: nat) returns (bytes: Option<seq<u8>>)
      modifies this
      ensures old(pc) + n <= |program| ==> bytes == Some(program[old(pc)..old(pc) + n]) && pc == old(pc) + n
      ensures old(pc) + n > |program| ==> bytes.None? && pc == old(pc)
      ensures program == old(program) && heap == old(heap) && roData == old(roData) && stdout == old(stdout)
    {
      if pc + n > |program| {
        return None;
      }
      bytes := Some(program[pc..pc + n]);
      pc := pc + n;
    }

    /** The register an operand byte names, read from its bank. */
    method Read(b: u8) returns (v: Option<Scalar>)
      requires WellFormed(State())
      ensures v == ReadRegister(State(), b)
    {
      if IsIntRegister(b) {
        if b >= REGISTER_COUNT {
          return None;
        }
        v := Some(IntValue(iregisters[b]));
      } else {
        var k := Register.IdxFromReal(b);
        if k >= REGISTER_COUNT {
          return None;
        }
        v := Some(RealValue(rregisters[k]));
      }
    }

    /** The `LOAD` arm of `step`. */
    method DoLoad() returns (r: Outcome<bool>)
      requires WellFormed(State())
      modifies this, iregisters, rregisters
      ensures Follows(r, State(), Load(old(State())))
    {
      var register := Fetch(1);
      if register.None? {
        return Panicked;
      }
      var dest := register.value[0];
      if IsIntRegister(dest) {
        var bytes := Fetch(4);
        if bytes.None? || dest >= REGISTER_COUNT {
          return Panicked;
        }
        iregisters[dest] := BytesToI32(bytes.value);
      } else {
        var bytes := Fetch(8);
        var k := Register.IdxFromReal(dest);
        if bytes.None? || k >= REGISTER_COUNT {
          return Panicked;
        }
        rregisters[k] := FromBytes(bytes.value);
      }
      return Returned(false);
    }

    /** `add`, `sub`, `mul` and `div`. */
    method DoArith(op: ArithOp) returns (r: Outcome<bool>)
      requires WellFormed(State())
      modifies this, iregisters, rregisters
      ensures Follows(r, State(), Arith(old(State()), op))
    {
      var operands := Fetch(3);
      if operands.None? {
        return Panicked;
      }
      var dest, aReg, bReg := operands.value[0], operands.value[1], operands.value[2];
      var a := Read(aReg);
      var b := Read(bReg);
      if a.None? || b.None? {
        return Panicked;
      }
      if IsIntRegister(dest) {
        var x := IntArith(op, AsI32(a.value), AsI32(b.value));
        if x.None? || dest >= REGISTER_COUNT {
          return Panicked;
        }
        iregisters[dest] := x.value;
      } else {
        var k := Register.IdxFromReal(dest);
        if k >= REGISTER_COUNT {
          return Panicked;
        }
        rregisters[k] := RealArith(op, AsF64(a.value), AsF64(b.value));
      }
      return Returned(false);
    }

    /** `eq`, `neq`, `gt`, `lt`, `gte` and `lte`. */
    method DoCompare(op: CompareOp) returns (r: Outcome<bool>)
      requires WellFormed(State())
      modifies this, iregisters, rregisters
      ensures Follows(r, State(), Compare(old(State()), op))
    {
      var operands := Fetch(3);
      if operands.None? {
        return Panicked;
      }
      var dest, aReg, bReg := operands.value[0], operands.value[1], operands.value[2];
      var a := Read(aReg);
      var b := Read(bReg);
      if a.None? || b.None? {
        return Panicked;
      }
      var flag := Holds(op, AsF64(a.value), AsF64(b.value));
      if IsIntRegister(dest) {
        if dest >= REGISTER_COUNT {
          return Panicked;
        }
        iregisters[dest] := if flag then 1 else 0;
      } else {
        var k := Register.IdxFromReal(dest);
        if k >= REGISTER_COUNT {
          return Panicked;
        }
        rregisters[k] := Fin(if flag then 1.0 else 0.0);
      }
      return Returned(false);
    }

    /** The `JMP` arm of `step`. */
    method DoJump() returns (r: Outcome<bool>)
      requires WellFormed(State())
      modifies this
      ensures Follows(r, State(), Jump(old(State())))
    {
      var register := Fetch(1);
      if register.None? || register.value[0] >= REGISTER_COUNT {
        return Panicked;
      }
      var target := iregisters[register.value[0]];
      pc := AsUsize(target);
      return Returned(false);
    }

    /** `jeq`. */
    method DoJumpIfEqual() returns (r: Outcome<bool>)
      requires WellFormed(State())
      modifies this
      ensures Follows(r, State(), JumpIfEqual(old(State())))
    {
      var register := Fetch(1);
      if register.None? {
        return Panicked;
      }
      var reg := register.value[0];
      if !IsIntRegister(reg) {
        return Error("Cannot jump to non-integer location");
      }
      if reg >= REGISTER_COUNT {
        return Panicked;
      }
      var target := iregisters[reg];
      var operands := Fetch(2);
      if operands.None? {
        return Panicked;
      }
      var a := Read(operands.value[0]);
      var b := Read(operands.value[1]);
      if a.None? || b.None? {
        return Panicked;
      }
      if NearlyEqual(AsF64(a.value), AsF64(b.value)) {
        pc := AsUsize(target);
      }
      return Returned(false);
    }

    /** The `ALLOC` arm of `step`, with its second guard as written. */
    method DoAlloc() returns (r: Outcome<bool>)
      requires WellFormed(State())
      modifies this, iregisters
      ensures Follows(r, State(), Alloc(old(State())))
    {
      var register := Fetch(1);
      if register.None? {
        return Panicked;
      }
      var reg := register.value[0];
      if !IsIntRegister(reg) {
        return Error("Cannot write heap location to non-integer register");
      }
      var bytesRegister := Fetch(1);
      if bytesRegister.None? {
        return Panicked;
      }
      var bytesReg := bytesRegister.value[0];
      if !IsIntRegister(reg) {
        return Error("Cannot allocate non-integer number of bytes");
      }
      if bytesReg >= REGISTER_COUNT || reg >= REGISTER_COUNT {
        return Panicked;
      }
      var bytes := iregisters[bytesReg];
      var start := WrapI32(|heap|);
      iregisters[reg] := start;
      var newEnd := start + bytes;
      if !IsI32(newEnd) || newEnd < 0 {
        return Panicked;
      }
      heap := Resize(heap, newEnd);
      return Returned(false);
    }

    /** The `PRINT` arm of `step`: the scan for the terminating zero byte. */
    method DoPrint() returns (r: Outcome<bool>)
      requires WellFormed(State())
      modifies this
      ensures Follows(r, State(), Print(old(State())))
    {
      var bytes := Fetch(2);
      if bytes.None? {
        return Panicked;
      }
      var offset := BigEndian(bytes.value);
      var end := offset;
      while end < |roData| && roData[end] != 0
        invariant offset <= end
        invariant forall j :: offset <= j < end ==> j < |roData| && roData[j] != 0
        decreases |roData| - end
      {
        end := end + 1;
      }
      if end >= |roData| {
        return Panicked;
      }
      assert FirstNul(roData, offset) == Some(end);
      var text := roData[offset..end];
      if !Utf8.Valid(text) {
        return Error("Error decoding string to print");
      }
      stdout := stdout + [text];
      return Returned(false);
    }

    /** `step`: decode the opcode at `pc` and execute it. */
    method Step() returns (r: Outcome<bool>)
      requires WellFormed(State())
      modifies this, iregisters, rregisters
      ensures Follows(r, State(), Next(old(State())))
    {
      if pc >= |program| {
        return Error("Ran out of program to run");
      }
      var opcode := Instruction.TryFromByte(program[pc]);
      if opcode.None? {
        return Panicked;
      }
      pc := pc + 1;
      match opcode.value
      case HLT => r := Returned(true);
      case LOAD => r := DoLoad();
      case ADD => r := DoArith(Plus);
      case SUB => r := DoArith(Minus);
      case MUL => r := DoArith(Times);
      case DIV => r := DoArith(Quotient);
      case JMP => r := DoJump();
      case EQ => r := DoCompare(EqualTo);
      case NEQ => r := DoCompare(NotEqualTo);
      case GT => r := DoCompare(GreaterThan);
      case LT => r := DoCompare(LessThan);
      case GTE => r := DoCompare(AtLeast);
      case LTE => r := DoCompare(AtMost);
      case JEQ => r := DoJumpIfEqual();
      case ALLOC => r := DoAlloc();
      case PRINT => r := DoPrint();
      case IGL => r := Error("Unrecognized opcode 'IGL'");
    }

    /** One iteration of `run`'s loop with `fuel` steps left: how the run
        from the state before it relates to the state after it. */
    method Advance(fuel: nat) returns (r: Outcome<bool>)
      requires WellFormed(State()) && fuel > 0
      modifies this, iregisters, rregisters
      ensures r.Returned? ==> WellFormed(State())
      ensures r == Returned(false) ==> Execution(old(State()), fuel) == Execution(State(), fuel - 1)
      ensures r == Returned(true) ==> Execution(old(State()), fuel) == Transition(Returned(true), State())
      ensures !r.Returned? ==> Follows(r, State(), Execution(old(State()), fuel))
    {
      ExecutionTakesStep(State(), fuel);
      r := Step();
    }

    /** `run`, for at most `fuel` steps: steps until the machine halts or a
        step fails. */
    method Run(fuel: nat) returns (r: Outcome<bool>)
      requires WellFormed(State())
      modifies this, iregisters, rregisters
      ensures Follows(r, State(), Execution(old(State()), fuel))
    {
      ghost var goal := Execution(State(), fuel);
      var exit := false;
      var remaining := fuel;
      while !exit && remaining > 0
        invariant WellFormed(State())
        invariant !exit ==> goal == Execution(State(), remaining)
        invariant exit ==> goal == Transition(Returned(true), State())
        decreases remaining
      {
        var s := Advance(remaining);
        if !s.Returned? {
          return s;
        }
        exit := s.value;
        remaining := remaining - 1;
      }
      return Returned(exit);
    }
  }

  // Properties of the machine.

  /** Three bytes read one at a time from a slice of the program. */
  lemma ThreeBytes(p: seq<u8>, i: nat, x: u8, y: u8, z: u8)
    requires i + 3 <= |p| && p[i..i + 3] == [x, y, z]
    ensures p[i] == x && p[i + 1] == y && p[i + 2] == z
  {
    assert p[i] == p[i..i + 3][0];
    assert p[i + 1] == p[i..i + 3][1];
    assert p[i + 2] == p[i..i + 3][2];
  }

  /** A run with fuel left takes one step of `Next`; it goes on from the new
      state only when that step neither halted, failed nor panicked. */
  lemma ExecutionTakesStep(m: Machine, fuel: nat)
    requires WellFormed(m) && fuel > 0
    ensures var s := Next(m);
      Execution(m, fuel) == if s.outcome == Returned(false) then Execution(s.next, fuel - 1) else s
  {
    NextKeepsWellFormed();
    assert Execution(m, fuel) == Resume(Next, Next(m), fuel - 1);
  }

  /** The VM loads what the assembler writes: behind the header for a
      read-only section of `|ro|` bytes, `ro` itself is appended to `ro_data`
      and execution starts at the first byte of the code that follows. */
  lemma LoadsAssembledProgram(m: Machine, ro: seq<u8>, code: seq<u8>)
    requires |ro| < 0x1_0000_0000 && |ro| + |code| > 0
    ensures var t := Loaded(m, Asm.Header(|ro|) + ro + code);
      && t.outcome == Returned(())
      && t.next.pc == DO_HEADER_LEN + |ro|
      && t.next.roData == m.roData + ro
      && t.next.program[t.next.pc..] == code
  {
    var h := Asm.Header(|ro|);
    var bytecode := h + ro + code;
    assert bytecode[..4] == h[..4];
    assert bytecode[4..8] == h[4..8];
    assert BigEndian(bytecode[4..8]) == |ro|;
    assert bytecode[DO_HEADER_LEN..DO_HEADER_LEN + |ro|] == ro;
    assert bytecode[DO_HEADER_LEN + |ro|..] == code;
  }

  /** The two bytecodes of the source's own test: four arbitrary bytes are
      refused, and a bare header with an empty read-only section followed by
      four bytes loads nothing and starts at byte 32. */
  lemma SetBytecodeExample(m: Machine, bad: seq<u8>, good: seq<u8>)
    requires bad == [1, 2, 3, 4, 0, 0, 0, 0]
    requires good == DO_HEADER_PREFIX + seq(28, _ => 0) + [1, 2, 3, 4]
    ensures Loaded(m, bad) == Transition(Error("Invalid bytecode"), m)
    ensures Loaded(m, good).outcome == Returned(())
    ensures Loaded(m, good).next.roData == m.roData && Loaded(m, good).next.pc == DO_HEADER_LEN
  {
    var zeros: seq<u8> := [0, 0, 0, 0];
    assert good[4..8] == zeros;
    assert BigEndian(zeros) == 0 by {
      assert zeros[..3][..2][..1][..0] == [];
      assert zeros[..3][..2] == zeros[..2] && zeros[..2][..1] == zeros[..1];
      assert BigEndian(zeros[..1]) == 0;
      assert BigEndian(zeros[..2]) == 0;
      assert BigEndian(zeros[..3]) == 0;
    }
    assert |good| == 36 && good[..4] == DO_HEADER_PREFIX;
  }

  /** `HLT` halts the machine with `pc` just past it, and IGL is an error with
      `pc` just past it; a byte that is no opcode panics. */
  lemma HaltAndIllegal(m: Machine)
    requires WellFormed(m) && m.pc < |m.program|
    ensures m.program[m.pc] == 0 ==> Next(m) == Transition(Returned(true), m.(pc := m.pc + 1))
    ensures m.program[m.pc] == 255 ==> Next(m).outcome.Error? && Next(m).next == m.(pc := m.pc + 1)
    ensures 16 <= m.program[m.pc] < 255 ==> Next(m).outcome == Panicked
  {
  }

  /** `LOAD` into an integer register stores the big-endian `i32` of its
      next four bytes, so every `i32` can be loaded from its encoding. */
  lemma LoadInteger(m: Machine, r: u8, x: int)
    requires WellFormed(m) && r < REGISTER_COUNT && IsI32(x)
    requires m.pc + 6 <= |m.program| && m.program[m.pc] == 1 && m.program[m.pc + 1] == r
    requires m.program[m.pc + 2..m.pc + 6] == I32ToBytes(x)
    ensures Next(m) == Continue(m.(pc := m.pc + 6, iregs := m.iregs[r := x]))
  {
    I32RoundTrip(x, I32ToBytes(x));
    var after := m.(pc := m.pc + 1);
    assert after.program[after.pc + 1..after.pc + 5] == I32ToBytes(x);
  }

  /** The source's test: `LOAD $0` with bytes 0, 0, 1, 244 stores 500. */
  lemma LoadExample(m: Machine)
    requires WellFormed(m) && m.pc == 0 && m.program == [1, 0, 0, 0, 1, 244]
    ensures Next(m).outcome == Returned(false) && Next(m).next.iregs[0] == 500
  {
    assert I32ToBytes(500) == [0, 0, 1, 244] by {
      assert Pow256(4) == 0x1_0000_0000;
      Asm.LengthBytes(500);
    }
    assert m.program[2..6] == [0, 0, 1, 244];
    LoadInteger(m, 0, 500);
  }

  /** The value the four arithmetic instructions compute on integers. */
  function IntResult(op: ArithOp, a: int, b: int): int
    requires op == Quotient ==> b != 0
  {
    match op
    case Plus => a + b
    case Minus => a - b
    case Times => a * b
    case Quotient => TruncDiv(a, b)
  }

  /** On integer registers the arithmetic instructions store the exact
      result when it is an `i32` and panic otherwise, and on a zero divisor. */
  lemma ArithOnIntegers(m: Machine, op: ArithOp, d: u8, a: u8, b: u8)
    requires WellFormed(m) && d < REGISTER_COUNT && a < REGISTER_COUNT && b < REGISTER_COUNT
    requires m.pc + 3 <= |m.program| && m.program[m.pc..m.pc + 3] == [d, a, b]
    ensures var x, y := m.iregs[a], m.iregs[b];
      if (op == Quotient && y == 0) || !IsI32(IntResult(op, x, y)) then Arith(m, op).outcome == Panicked
      else Arith(m, op) == Continue(m.(pc := m.pc + 3, iregs := m.iregs[d := IntResult(op, x, y)]))
  {
    ThreeBytes(m.program, m.pc, d, a, b);
  }

  /** On integer registers the comparisons state the integer relation. */
  predicate IntHolds(op: CompareOp, x: int, y: int) {
    match op
    case EqualTo => x == y
    case NotEqualTo => x != y
    case GreaterThan => x > y
    case LessThan => x < y
    case AtLeast => x >= y
    case AtMost => x <= y
  }

  /** Widened to `f64`, two integers are within `f64::EPSILON` of each other
      exactly when they are equal, and compare as the integers do. */
  lemma IntegerComparison(op: CompareOp, x: int, y: int)
    ensures Holds(op, FromInt(x), FromInt(y)) <==> IntHolds(op, x, y)
  {
    var d := x as real - y as real;
    assert Sub(FromInt(x), FromInt(y)) == Fin(d);
    if x != y {
      assert d >= 1.0 || d <= -1.0;
    }
  }

  /** A comparison of integer registers writes 1 into the integer
      destination when the integer relation holds and 0 otherwise. */
  lemma CompareIntegers(m: Machine, op: CompareOp, d: u8, a: u8, b: u8)
    requires WellFormed(m) && d < REGISTER_COUNT && a < REGISTER_COUNT && b < REGISTER_COUNT
    requires m.pc + 3 <= |m.program| && m.program[m.pc..m.pc + 3] == [d, a, b]
    ensures Compare(m, op) ==
      Continue(m.(pc := m.pc + 3, iregs := m.iregs[d := if IntHolds(op, m.iregs[a], m.iregs[b]) then 1 else 0]))
  {
    ThreeBytes(m.program, m.pc, d, a, b);
    IntegerComparison(op, m.iregs[a], m.iregs[b]);
  }

  /** On integers `neq` is the negation of `eq` and `lte` of `gt`; on NaN,
      which is neither within nor beyond `f64::EPSILON` of anything, both
      `eq` and `neq` give 0. */
  lemma NegatedComparisons(x: int, y: int, z: F64)
    ensures Holds(NotEqualTo, FromInt(x), FromInt(y)) <==> !Holds(EqualTo, FromInt(x), FromInt(y))
    ensures Holds(AtMost, FromInt(x), FromInt(y)) <==> !Holds(GreaterThan, FromInt(x), FromInt(y))
    ensures !Holds(EqualTo, NaN, z) && !Holds(NotEqualTo, NaN, z)
  {
    IntegerComparison(NotEqualTo, x, y);
    IntegerComparison(EqualTo, x, y);
    IntegerComparison(AtMost, x, y);
    IntegerComparison(GreaterThan, x, y);
  }

  /** Whatever the operands, a comparison writes only 0 or 1, into the
      integer or the real destination. */
  lemma ComparisonWritesFlag(m: Machine, op: CompareOp)
    requires WellFormed(m)
    ensures var t := Compare(m, op);
      t.outcome.Returned? ==>
        && m.pc + 3 <= |m.program|
        && var dest := m.program[m.pc];
        && t.next.pc == m.pc + 3 && t.next.heap == m.heap && t.next.roData == m.roData
        && (IsIntRegister(dest) ==>
              t.next.rregs == m.rregs && t.next.iregs == m.iregs[dest := t.next.iregs[dest]]
              && t.next.iregs[dest] in {0, 1})
        && (!IsIntRegister(dest) ==>
              var k := Register.IdxFromReal(dest);
              t.next.iregs == m.iregs && t.next.rregs == m.rregs[k := t.next.rregs[k]]
              && t.next.rregs[k] in {Fin(0.0), Fin(1.0)})
  {
  }

  /** `JMP` sets `pc` to the integer register's value, wrapped to `usize`. */
  lemma JumpTarget(m: Machine, r: u8)
    requires WellFormed(m) && r < REGISTER_COUNT
    requires m.pc + 2 <= |m.program| && m.program[m.pc] == 6 && m.program[m.pc + 1] == r
    ensures Next(m) == Continue(m.(pc := AsUsize(m.iregs[r])))
    ensures m.iregs[r] >= 0 ==> Next(m).next.pc == m.iregs[r]
  {
  }

  /** `jeq` refuses a real target register; otherwise it jumps exactly when
      the operands are equal to within `f64::EPSILON`, and else continues
      right after its operands. */
  lemma JumpIfEqualBranches(m: Machine, t: u8, a: u8, b: u8)
    requires WellFormed(m) && m.pc + 4 <= |m.program| && m.program[m.pc] == 13
    requires m.program[m.pc + 1..m.pc + 4] == [t, a, b]
    requires ReadRegister(m, a).Some? && ReadRegister(m, b).Some?
    ensures !IsIntRegister(t) ==> Next(m) == Transition(Error("Cannot jump to non-integer location"), m.(pc := m.pc + 2))
    ensures IsIntRegister(t) && t < REGISTER_COUNT ==>
      var equal := NearlyEqual(AsF64(ReadRegister(m, a).value), AsF64(ReadRegister(m, b).value));
      Next(m) == Continue(m.(pc := if equal then AsUsize(m.iregs[t]) else m.pc + 4))
  {
    ThreeBytes(m.program, m.pc + 1, t, a, b);
  }

  /** `ALLOC` stores the old heap length in its destination and grows the
      heap by as many zero bytes as the count register holds; the count is
      read before the destination is written. */
  lemma AllocGrowsHeap(m: Machine, d: u8, c: u8)
    requires WellFormed(m) && d < REGISTER_COUNT && c < REGISTER_COUNT
    requires m.pc + 3 <= |m.program| && m.program[m.pc..m.pc + 3] == [14, d, c]
    requires m.iregs[c] >= 0 && |m.heap| + m.iregs[c] <= I32_MAX
    ensures Next(m) ==
      Continue(m.(pc := m.pc + 3, iregs := m.iregs[d := |m.heap|], heap := m.heap + seq(m.iregs[c], _ => 0)))
  {
    ThreeBytes(m.program, m.pc, 14, d, c);
    assert Resize(m.heap, |m.heap| + m.iregs[c]) == m.heap + seq(m.iregs[c], _ => 0);
  }

  /** The source's test: with 1024 in `$0`, `ALLOC $0 $0` makes a heap of 1024 bytes. */
  lemma AllocExample(m: Machine)
    requires WellFormed(m) && m.pc == 0 && m.program == [14, 0, 0, 0] && m.heap == [] && m.iregs[0] == 1024
    ensures Next(m).outcome == Returned(false) && |Next(m).next.heap| == 1024
  {
    AllocGrowsHeap(m, 0, 0);
  }

  /** The kind of the byte-count register is never checked: a real one is
      not refused with the error the source writes for it but indexes the
      integer bank out of bounds. */
  lemma AllocRealCountPanics(m: Machine, d: u8, c: u8)
    requires WellFormed(m) && d < REGISTER_COUNT && c >= 128
    requires m.pc + 3 <= |m.program| && m.program[m.pc..m.pc + 3] == [14, d, c]
    ensures Next(m).outcome == Panicked
  {
    ThreeBytes(m.program, m.pc, 14, d, c);
  }

  /** `PRINT` of a string the assembler stored: the UTF-8 encoding of a
      string without NUL, followed by its zero terminator at a 16-bit
      offset, is printed as one line. */
  lemma PrintsStoredString(m: Machine, s: string, offset: nat)
    requires WellFormed(m) && offset < 0x1_0000 && forall i :: 0 <= i < |s| ==> s[i] != '\0'
    requires offset + |Utf8.Encode(s)| < |m.roData|
    requires m.roData[offset..offset + |Utf8.Encode(s)| + 1] == Utf8.Encode(s) + [0]
    requires m.pc + 3 <= |m.program| && m.program[m.pc] == 15 && m.program[m.pc + 1..m.pc + 3] == ToBigEndian(offset, 2)
    ensures Next(m) == Continue(m.(pc := m.pc + 3, stdout := m.stdout + [Utf8.Encode(s)]))
  {
    var m1 := m.(pc := m.pc + 1);
    assert Next(m) == Print(m1) by {
      assert Instruction.TryFromByte(15) == Some(Instruction.PRINT);
    }
    PrintsAt(m1, s, offset);
    assert m1.(pc := m1.pc + 2, stdout := m1.stdout + [Utf8.Encode(s)]) == m.(pc := m.pc + 3, stdout := m.stdout + [Utf8.Encode(s)]);
  }

  /** `PRINT` with its operand bytes at `m.pc`. */
  lemma PrintsAt(m: Machine, s: string, offset: nat)
    requires WellFormed(m) && offset < 0x1_0000 && forall i :: 0 <= i < |s| ==> s[i] != '\0'
    requires offset + |Utf8.Encode(s)| < |m.roData|
    requires m.roData[offset..offset + |Utf8.Encode(s)| + 1] == Utf8.Encode(s) + [0]
    requires m.pc + 2 <= |m.program| && m.program[m.pc..m.pc + 2] == ToBigEndian(offset, 2)
    ensures Print(m) == Continue(m.(pc := m.pc + 2, stdout := m.stdout + [Utf8.Encode(s)]))
  {
    StoredStringFound(m.roData, s, offset);
    assert BigEndian(m.program[m.pc..m.pc + 2]) == offset by {
      assert Pow256(2) == 0x1_0000;
      BigEndianOfToBigEndian(offset, 2);
    }
  }

  /** The scan for the terminator of a string the assembler stored stops
      right behind it, and what it finds is valid UTF-8. */
  lemma StoredStringFound(ro: seq<u8>, s: string, offset: nat)
    requires forall i :: 0 <= i < |s| ==> s[i] != '\0'
    requires offset + |Utf8.Encode(s)| < |ro|
    requires ro[offset..offset + |Utf8.Encode(s)| + 1] == Utf8.Encode(s) + [0]
    ensures FirstNul(ro, offset) == Some(offset + |Utf8.Encode(s)|)
    ensures ro[offset..offset + |Utf8.Encode(s)|] == Utf8.Encode(s) && Utf8.Valid(Utf8.Encode(s))
  {
    Utf8.EncodeHasNoZero(s);
    Utf8.EncodeValid(s);
    TerminatedAt(ro, Utf8.Encode(s), offset);
  }

  /** Bytes without a zero, stored with a zero behind them: the scan from
      their start finds that zero and the bytes in front of it. */
  lemma TerminatedAt(ro: seq<u8>, e: seq<u8>, offset: nat)
    requires offset + |e| < |ro| && ro[offset..offset + |e| + 1] == e + [0]
    requires forall i :: 0 <= i < |e| ==> e[i] != 0
    ensures FirstNul(ro, offset) == Some(offset + |e|) && ro[offset..offset + |e|] == e
  {
    forall j | offset <= j < offset + |e|
      ensures ro[j] != 0
    {
      assert ro[j] == (e + [0])[j - offset];
    }
    assert ro[offset + |e|] == (e + [0])[|e|];
    FirstNulAt(ro, offset, offset + |e|);
    assert ro[offset..offset + |e|] == ro[offset..offset + |e| + 1][..|e|];
  }

  /** The scan stops at the first zero byte. */
  lemma {:induction false} FirstNulAt(ro: seq<u8>, k: nat, end: nat)
    requires k <= end < |ro| && ro[end] == 0 && forall j :: k <= j < end ==> ro[j] != 0
    ensures FirstNul(ro, k) == Some(end)
    decreases end - k
  {
    if k < end {
      FirstNulAt(ro, k + 1, end);
    }
  }

  /** Once a run has stopped, more fuel changes nothing. The lemma holds
      for every step function, so for `Execution`, which iterates `Next`. */
  lemma {:induction false} IterateStable(step: Machine --> Transition<bool>, m: Machine, fuel: nat, extra: nat)
    requires KeepsWellFormed(step) && WellFormed(m)
    requires Iterate(step, m, fuel).outcome != Returned(false)
    ensures Iterate(step, m, fuel + extra) == Iterate(step, m, fuel)
    decreases fuel, 0
  {
    if fuel == 0 {
      assert false;
    } else {
      ResumeStable(step, step(m), fuel - 1, extra);
    }
  }

  lemma {:induction false} ResumeStable(step: Machine --> Transition<bool>, s: Transition<bool>, fuel: nat, extra: nat)
    requires KeepsWellFormed(step) && WellFormed(s.next)
    requires Resume(step, s, fuel).outcome != Returned(false)
    ensures Resume(step, s, fuel + extra) == Resume(step, s, fuel)
    decreases fuel, 1
  {
    if s.outcome == Returned(false) {
      IterateStable(step, s.next, fuel, extra);
    }
  }

  /** Running for `a + b` steps is running for `a`, then for `b` more from
      where the first run left off. */
  lemma {:induction false} IterateSplits(step: Machine --> Transition<bool>, m: Machine, a: nat, b: nat)
    requires KeepsWellFormed(step) && WellFormed(m)
    requires Iterate(step, m, a).outcome == Returned(false)
    ensures Iterate(step, m, a + b) == Iterate(step, Iterate(step, m, a).next, b)
    decreases a, 0
  {
    if a > 0 {
      ResumeSplits(step, step(m), a - 1, b);
    }
  }

  lemma {:induction false} ResumeSplits(step: Machine --> Transition<bool>, s: Transition<bool>, a: nat, b: nat)
    requires KeepsWellFormed(step) && WellFormed(s.next)
    requires Resume(step, s, a).outcome == Returned(false)
    ensures Resume(step, s, a + b) == Iterate(step, Resume(step, s, a).next, b)
    decreases a, 1
  {
    IterateSplits(step, s.next, a, b);
  }
}
