/** One parsed assembly line and its byte encoding
    (src/asm/instruction_parsers.rs). */
module InstructionParsers {
  import opened Wrappers
  import opened Bytes
  import opened Float
  import opened AsmToken
  import Instruction
  import Register
  import Symbols

  datatype AssemblerInstruction = AssemblerInstruction(
    labelToken: Option<Token>,
    directive: Option<Token>,
    opcode: Option<Token>,
    operand0: Option<Token>,
    operand1: Option<Token>,
    operand2: Option<Token>)

  predicate IsLabel(i: AssemblerInstruction) { i.labelToken.Some? }

  /** The declared label's name; None unless the label slot holds a LabelDecl. */
  function LabelName(i: AssemblerInstruction): (r: Option<string>)
    ensures r.Some? <==> i.labelToken.Some? && i.labelToken.value.LabelDecl?
    ensures r.Some? ==> r.value == i.labelToken.value.name
  {
    match i.labelToken
    case Some(LabelDecl(name)) => Some(name)
    case _ => None
  }

  predicate IsDirective(i: AssemblerInstruction) { i.directive.Some? }

  /** The directive's name; None unless the directive slot holds a Directive. */
  function DirectiveName(i: AssemblerInstruction): (r: Option<string>)
    ensures r.Some? <==> i.directive.Some? && i.directive.value.Directive?
    ensures r.Some? ==> r.value == i.directive.value.name
  {
    match i.directive
    case Some(Directive(name)) => Some(name)
    case _ => None
  }

  predicate IsOpcode(i: AssemblerInstruction) { i.opcode.Some? }

  /** Some operand slot is filled. */
  predicate HasOperands(i: AssemblerInstruction)
    ensures HasOperands(i) <==> exists k :: 0 <= k < 3 && Operands(i)[k].Some?
  {
    assert Operands(i)[0] == i.operand0 && Operands(i)[1] == i.operand1 && Operands(i)[2] == i.operand2;
    i.operand0.Some? || i.operand1.Some? || i.operand2.Some?
  }

  /** The string of a `.str` line; None unless the first operand is a DoString. */
  function StringConstant(i: AssemblerInstruction): (r: Option<string>)
    ensures r.Some? <==> i.operand0.Some? && i.operand0.value.DoString?
    ensures r.Some? ==> r.value == i.operand0.value.text
  {
    match i.operand0
    case Some(DoString(value)) => Some(value)
    case _ => None
  }

  function Operands(i: AssemblerInstruction): seq<Option<Token>> {
    [i.operand0, i.operand1, i.operand2]
  }

  /** Bytes produced so far, or the process exiting on a token it cannot encode. */
  datatype Emit = Emitted(bytes: seq<u8>) | Exit

  /** `extract_operand` for one token: what it appends. The 8-byte encoding of a
      real is `realBytes`; tokens that are not operands append nothing. */
  function OperandBytes(t: Token, syms: seq<Symbols.Symbol>, realBytes: F64 -> Bytes8): (r: Emit)
    ensures t.IntRegister? ==> r == Emitted([t.idx])
    ensures t.RealRegister? ==> r == Emitted([Register.RealToIdx(t.idx)])
    ensures t.Integer? && IsI32(t.intValue) ==> r == Emitted(I32ToBytes(t.intValue)) && |r.bytes| == 4
    ensures t.LabelRef? ==> (r.Exit? <==> Symbols.ValueOf(syms, t.name).None?)
    ensures t.LabelRef? && r.Emitted? ==>
      var v := Symbols.ValueOf(syms, t.name).value;
      r.bytes == [(v / 256) % 256, v % 256]
  {
    match t
    case IntRegister(idx) => Emitted([idx])
    case RealRegister(idx) => Emitted([Register.RealToIdx(idx)])
    case Integer(value) =>
      Emitted(ToBigEndian((if value < 0 then value + 0x1_0000_0000 else value) % 0x1_0000_0000, 4))
    case Real(value) => Emitted(realBytes(value))
    case LabelRef(name) =>
      (match Symbols.ValueOf(syms, name)
       case Some(v) => Emitted([(v / 256) % 256, v % 256])
       case None => Exit)
    case _ => Emitted([])
  }

  /** `extract_operand` applied to one operand slot after `prefix`. */
  function Append(prefix: Emit, slot: Option<Token>, syms: seq<Symbols.Symbol>, realBytes: F64 -> Bytes8): Emit {
    match prefix
    case Exit => Exit
    case Emitted(init) =>
      match slot
      case None => prefix
      case Some(t) =>
        match OperandBytes(t, syms, realBytes)
        case Exit => Exit
        case Emitted(more) => Emitted(init + more)
  }

  /** The operands' encodings, in slot order, stopping at the first exit. */
  function OperandsBytes(ops: seq<Option<Token>>, syms: seq<Symbols.Symbol>, realBytes: F64 -> Bytes8): Emit {
    if ops == [] then Emitted([])
    else Append(OperandsBytes(ops[..|ops| - 1], syms, realBytes), ops[|ops| - 1], syms, realBytes)
  }

  /** Zero bytes appended until there are at least four. */
  function PadTo4(s: seq<u8>): (r: seq<u8>)
    ensures |r| == if |s| < 4 then 4 else |s|
    ensures r[..|s|] == s && forall k :: |s| <= k < |r| ==> r[k] == 0
  {
    if |s| < 4 then s + seq(4 - |s|, _ => 0) else s
  }

  /** The opcode byte, if the line has one; a non-opcode token there exits. */
  function OpcodeBytes(i: AssemblerInstruction): Emit {
    match i.opcode
    case None => Emitted([])
    case Some(Op(code)) => Emitted([Instruction.ToByte(code)])
    case Some(_) => Exit
  }

  /** What `to_bytes` returns: the opcode byte, then each operand's encoding in
      slot order, zero-padded to four bytes. */
  function Encode(i: AssemblerInstruction, syms: seq<Symbols.Symbol>, realBytes: F64 -> Bytes8): (r: Emit)
    ensures r.Emitted? ==> |r.bytes| >= 4
    ensures r.Emitted? && i.opcode.Some? ==>
      i.opcode.value.Op? && r.bytes[0] == Instruction.ToByte(i.opcode.value.code)
    ensures r.Emitted? ==>
      OpcodeBytes(i).Emitted? && OperandsBytes(Operands(i), syms, realBytes).Emitted? &&
      r.bytes == PadTo4(OpcodeBytes(i).bytes + OperandsBytes(Operands(i), syms, realBytes).bytes)
  {
    match OpcodeBytes(i)
    case Exit => Exit
    case Emitted(op) =>
      match OperandsBytes(Operands(i), syms, realBytes)
      case Exit => Exit
      case Emitted(rest) => Emitted(PadTo4(op + rest))
  }

  /** `extract_operand`: appends one token's encoding to `results`. */
  method ExtractOperand(t: Token, symbols: Symbols.Table, realBytes: F64 -> Bytes8, results: seq<u8>)
    returns (r: Emit)
    ensures r == Append(Emitted(results), Some(t), symbols.symbols, realBytes)
  {
    match t
    case IntRegister(idx) => r := Emitted(results + [idx]);
    case RealRegister(idx) =>
      var b := Register.RealToIdx(idx);
      r := Emitted(results + [b]);
    case Integer(value) =>
      var out := results;
      var be := ToBigEndian((if value < 0 then value + 0x1_0000_0000 else value) % 0x1_0000_0000, 4);
      for k := 0 to 4
        invariant out == results + be[..k]
      {
        out := out + [be[k]];
      }
      r := Emitted(out);
    case Real(value) =>
      var out := results;
      var be := realBytes(value);
      for k := 0 to 8
        invariant out == results + be[..k]
      {
        out := out + [be[k]];
      }
      r := Emitted(out);
    case LabelRef(name) =>
      var v := symbols.Value(name);
      if v.Some? {
        var lb := v.value;
        var hb := lb / 256;
        r := Emitted(results + [hb % 256, lb % 256]);
      } else {
        r := Exit;
      }
    case _ => r := Emitted(results);
  }

  /** `to_bytes`: the encoding of one line. */
  method ToBytes(i: AssemblerInstruction, symbols: Symbols.Table, realBytes: F64 -> Bytes8)
    returns (r: Emit)
    ensures r == Encode(i, symbols.symbols, realBytes)
  {
    var results: seq<u8> := [];
    if i.opcode.Some? {
      match i.opcode.value
      case Op(code) => results := results + [Instruction.ToByte(code)];
      case _ => return Exit;
    }
    assert OpcodeBytes(i) == Emitted(results);
    var e := ExtractOperands(Operands(i), symbols, realBytes, results);
    if e.Exit? {
      return Exit;
    }
    results := PadZeros(e.bytes);
    r := Emitted(results);
  }

  /** The loop of `to_bytes` over the three operand slots. */
  method ExtractOperands(ops: seq<Option<Token>>, symbols: Symbols.Table, realBytes: F64 -> Bytes8, start: seq<u8>)
    returns (r: Emit)
    requires |ops| == 3
    ensures match OperandsBytes(ops, symbols.symbols, realBytes)
            case Exit => r == Exit
            case Emitted(more) => r == Emitted(start + more)
  {
    var results := start;
    for k := 0 to 3
      invariant OperandsBytes(ops[..k], symbols.symbols, realBytes).Emitted?
      invariant results == start + OperandsBytes(ops[..k], symbols.symbols, realBytes).bytes
    {
      OperandsBytesStep(ops, k, symbols.symbols, realBytes);
      if ops[k].Some? {
        var e := ExtractOperand(ops[k].value, symbols, realBytes, results);
        if e.Exit? {
          ExitPropagates(ops, k + 1, symbols.symbols, realBytes);
          return Exit;
        }
        results := e.bytes;
      }
    }
    assert ops[..3] == ops;
    r := Emitted(results);
  }

  /** The padding loop of `to_bytes`. */
  method PadZeros(base: seq<u8>) returns (results: seq<u8>)
    ensures results == PadTo4(base)
  {
    results := base;
    while |results| < 4
      invariant |base| <= |results| && results == base + seq(|results| - |base|, _ => 0)
      invariant |results| <= 4 || results == base
    {
      results := results + [0];
    }
  }

  /** One more operand slot: its encoding is appended. */
  lemma OperandsBytesStep(ops: seq<Option<Token>>, k: nat, syms: seq<Symbols.Symbol>, realBytes: F64 -> Bytes8)
    requires k < |ops|
    ensures OperandsBytes(ops[..k + 1], syms, realBytes) ==
      Append(OperandsBytes(ops[..k], syms, realBytes), ops[k], syms, realBytes)
  {
    assert ops[..k + 1][..k] == ops[..k];
  }

  /** Once a prefix of the operands exits, the whole encoding exits. */
  lemma {:induction false} ExitPropagates(ops: seq<Option<Token>>, k: nat, syms: seq<Symbols.Symbol>, realBytes: F64 -> Bytes8)
    requires k <= |ops| && OperandsBytes(ops[..k], syms, realBytes) == Exit
    ensures OperandsBytes(ops, syms, realBytes) == Exit
    decreases |ops| - k
  {
    if k < |ops| {
      assert ops[..k + 1][..k] == ops[..k];
      ExitPropagates(ops, k + 1, syms, realBytes);
    } else {
      assert ops[..k] == ops;
    }
  }

  /** The encodings the tests pin down: integer register 4 is `[4]`, real
      register 3 is `[131]`, 42 is `[0,0,0,42]` and -42 is `[255,255,255,214]`. */
  lemma OperandExamples(syms: seq<Symbols.Symbol>, realBytes: F64 -> Bytes8)
    ensures OperandBytes(IntRegister(4), syms, realBytes) == Emitted([4])
    ensures OperandBytes(RealRegister(3), syms, realBytes) == Emitted([131])
    ensures OperandBytes(Integer(42), syms, realBytes) == Emitted([0, 0, 0, 42])
    ensures OperandBytes(Integer(-42), syms, realBytes) == Emitted([255, 255, 255, 214])
  {
    assert ToBigEndian(4294967254, 4) == ToBigEndian(16777215, 3) + [214];
    assert ToBigEndian(16777215, 3) == ToBigEndian(65535, 2) + [255];
    assert ToBigEndian(65535, 2) == ToBigEndian(255, 1) + [255];
    assert ToBigEndian(42, 4) == ToBigEndian(0, 3) + [42];
  }

  /** A line with an opcode and a register, a real register and an integer
      encodes as the opcode byte followed by the three encodings; a bare opcode
      is padded with three zeros. */
  lemma EncodeExamples(code: Instruction.Opcode, a: u8, b: u8, v: int,
                       syms: seq<Symbols.Symbol>, realBytes: F64 -> Bytes8)
    requires IsI32(v)
    ensures Encode(AssemblerInstruction(None, None, Some(Op(code)), Some(IntRegister(a)),
                                        Some(RealRegister(b)), Some(Integer(v))), syms, realBytes)
         == Emitted([Instruction.ToByte(code), a, Register.RealToIdx(b)] + I32ToBytes(v))
    ensures Encode(AssemblerInstruction(None, None, Some(Op(code)), None, None, None), syms, realBytes)
         == Emitted([Instruction.ToByte(code), 0, 0, 0])
  {
    EncodeThreeOperands(code, a, b, v, syms, realBytes);
    EncodeBareOpcode(code, syms, realBytes);
  }

  lemma EncodeThreeOperands(code: Instruction.Opcode, a: u8, b: u8, v: int,
                            syms: seq<Symbols.Symbol>, realBytes: F64 -> Bytes8)
    requires IsI32(v)
    ensures Encode(AssemblerInstruction(None, None, Some(Op(code)), Some(IntRegister(a)),
                                        Some(RealRegister(b)), Some(Integer(v))), syms, realBytes)
         == Emitted([Instruction.ToByte(code), a, Register.RealToIdx(b)] + I32ToBytes(v))
  {
    var i := AssemblerInstruction(None, None, Some(Op(code)), Some(IntRegister(a)),
                                  Some(RealRegister(b)), Some(Integer(v)));
    var ops := Operands(i);
    assert ops[..1][..0] == [] && ops[..2][..1] == ops[..1] && ops[..|ops| - 1] == ops[..2];
    assert OperandsBytes(ops[..1], syms, realBytes) == Emitted([a]);
    assert OperandsBytes(ops[..2], syms, realBytes) == Emitted([a, Register.RealToIdx(b)]);
    assert OperandsBytes(ops, syms, realBytes) == Emitted([a, Register.RealToIdx(b)] + I32ToBytes(v));
    assert [Instruction.ToByte(code)] + ([a, Register.RealToIdx(b)] + I32ToBytes(v)) ==
      [Instruction.ToByte(code), a, Register.RealToIdx(b)] + I32ToBytes(v);
  }

  lemma EncodeBareOpcode(code: Instruction.Opcode, syms: seq<Symbols.Symbol>, realBytes: F64 -> Bytes8)
    ensures Encode(AssemblerInstruction(None, None, Some(Op(code)), None, None, None), syms, realBytes)
         == Emitted([Instruction.ToByte(code), 0, 0, 0])
  {
    var j := AssemblerInstruction(None, None, Some(Op(code)), None, None, None);
    var none := Operands(j);
    assert none[..1][..0] == [] && none[..2][..1] == none[..1] && none[..|none| - 1] == none[..2];
    assert OperandsBytes(none[..1], syms, realBytes) == Emitted([]);
    assert OperandsBytes(none[..2], syms, realBytes) == Emitted([]);
    assert OperandsBytes(none, syms, realBytes) == Emitted([]);
  }
}
