/** The older opcode numbering (src/asm/instruction.rs), which the VM decodes:
    discriminant bytes, case-insensitive mnemonics and `Instruction::new`.
    It is kept beside the `Opcode` module because the two tables disagree:
    this one has `PRINT` and no `LW`, `SW` or `SYSCALL`, so every opcode from
    `ADD` on has another byte here. */
module Instruction {
  import opened Wrappers
  import opened Text
  import opened Bytes

  datatype Opcode =
    | HLT | LOAD | ADD | SUB | MUL | DIV | JMP | EQ | NEQ
    | GT | LT | GTE | LTE | JEQ | ALLOC | PRINT | IGL

  /** The opcodes in declaration order, so that HLT..PRINT have discriminants 0..15. */
  const Numbered: seq<Opcode> :=
    [HLT, LOAD, ADD, SUB, MUL, DIV, JMP, EQ, NEQ, GT, LT, GTE, LTE, JEQ, ALLOC, PRINT]

  /** `u8::from(op)`: the `#[repr(u8)]` discriminant. */
  function ToByte(op: Opcode): (b: u8)
    ensures op == IGL <==> b == 255
    ensures op != IGL ==> b < |Numbered| && Numbered[b] == op
  {
    match op
    case HLT => 0 case LOAD => 1 case ADD => 2 case SUB => 3 case MUL => 4
    case DIV => 5 case JMP => 6 case EQ => 7 case NEQ => 8 case GT => 9
    case LT => 10 case GTE => 11 case LTE => 12 case JEQ => 13 case ALLOC => 14
    case PRINT => 15 case IGL => 255
  }

  /** `Opcode::try_from(u8)`: defined exactly on the discriminants. */
  function TryFromByte(b: u8): (r: Option<Opcode>)
    ensures r.Some? <==> b < |Numbered| || b == 255
    ensures r.Some? ==> ToByte(r.value) == b
  {
    if b < |Numbered| then Some(Numbered[b])
    else if b == 255 then Some(IGL)
    else None
  }

  /** Converting to a byte and back is the identity; 0 is HLT and 200 is no opcode. */
  lemma ByteRoundTrip(op: Opcode)
    ensures TryFromByte(ToByte(op)) == Some(op)
    ensures TryFromByte(0) == Some(HLT) && TryFromByte(200).None?
  {
  }

  /** The mnemonic `From<CompleteStr>` maps to each opcode; IGL has none. */
  function Mnemonic(op: Opcode): Option<string> {
    match op
    case HLT => Some("halt") case LOAD => Some("load") case ADD => Some("add")
    case SUB => Some("sub") case MUL => Some("mul") case DIV => Some("div")
    case JMP => Some("jmp") case EQ => Some("eq") case NEQ => Some("neq")
    case GT => Some("gt") case LT => Some("lt") case GTE => Some("gte")
    case LTE => Some("lte") case JEQ => Some("jeq") case ALLOC => Some("alloc")
    case PRINT => Some("print") case IGL => None
  }

  /** The match arms tried in order: the first opcode spelled `word`. */
  function Lookup(word: string, ops: seq<Opcode>): (r: Option<Opcode>)
    ensures r.Some? ==> r.value in ops && Mnemonic(r.value) == Some(word)
    ensures r.None? ==> forall i :: 0 <= i < |ops| ==> Mnemonic(ops[i]) != Some(word)
  {
    if ops == [] then None
    else if Mnemonic(ops[0]) == Some(word) then Some(ops[0])
    else Lookup(word, ops[1..])
  }

  /** `Opcode::from(CompleteStr)`: the opcode whose mnemonic is the lower-cased
      input, and IGL when there is none. */
  function FromMnemonic(s: string): (op: Opcode)
    ensures op != IGL ==> Mnemonic(op) == Some(ToLower(s))
    ensures op == IGL <==> forall o: Opcode :: Mnemonic(o) != Some(ToLower(s))
  {
    match Lookup(ToLower(s), Numbered)
    case Some(op) => op
    case None =>
      forall o: Opcode ensures Mnemonic(o) != Some(ToLower(s)) {
        if o != IGL { assert Numbered[ToByte(o)] == o; }
      }
      IGL
  }

  /** No two opcodes share a mnemonic. */
  lemma MnemonicInjective(a: Opcode, b: Opcode)
    requires Mnemonic(a).Some? && Mnemonic(a) == Mnemonic(b)
    ensures a == b
  {
    match a
    case HLT => case LOAD => case ADD => case SUB => case MUL => case DIV =>
    case JMP => case EQ => case NEQ => case GT => case LT => case GTE =>
    case LTE => case JEQ => case ALLOC => case PRINT =>
  }

  /** Every opcode but IGL is recognised from its mnemonic written in any case. */
  lemma FromMnemonicRoundTrip(op: Opcode, s: string)
    requires Mnemonic(op).Some? && ToLower(s) == Mnemonic(op).value
    ensures FromMnemonic(s) == op
  {
    var r := FromMnemonic(s);
    assert r != IGL;
    MnemonicInjective(r, op);
  }

  /** A decoded instruction; the VM works on opcodes directly. */
  datatype Instruction = Instruction(opcode: Opcode)

  /** `Instruction::new`. */
  function New(opcode: Opcode): (i: Instruction)
    ensures i.opcode == opcode
  {
    Instruction(opcode)
  }
}
