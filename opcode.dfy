/** The assembler's opcode table (src/asm/opcode.rs): discriminant bytes and
    case-insensitive mnemonics. */
module Opcode {
  import opened Wrappers
  import opened Text
  import opened Bytes

  datatype Opcode =
    | HLT | LOAD | LW | SW | ADD | SUB | MUL | DIV | JMP
    | EQ | NEQ | GT | LT | GTE | LTE | JEQ | ALLOC | SYSCALL | IGL

  /** The opcodes in declaration order, so that HLT..SYSCALL have discriminants 0..17. */
  const Numbered: seq<Opcode> :=
    [HLT, LOAD, LW, SW, ADD, SUB, MUL, DIV, JMP, EQ, NEQ, GT, LT, GTE, LTE, JEQ, ALLOC, SYSCALL]

  /** `u8::from(op)`: the `#[repr(u8)]` discriminant. */
  function ToByte(op: Opcode): (b: u8)
    ensures op == IGL <==> b == 255
    ensures op != IGL ==> b < |Numbered| && Numbered[b] == op
  {
    match op
    case HLT => 0 case LOAD => 1 case LW => 2 case SW => 3 case ADD => 4
    case SUB => 5 case MUL => 6 case DIV => 7 case JMP => 8 case EQ => 9
    case NEQ => 10 case GT => 11 case LT => 12 case GTE => 13 case LTE => 14
    case JEQ => 15 case ALLOC => 16 case SYSCALL => 17 case IGL => 255
  }

  /** `Opcode::try_from(u8)`: defined exactly on the discriminants. */
  function TryFromByte(b: u8): (r: Option<Opcode>)
    ensures r.Some? <==> b < |Numbered| || b == 255
    ensures r.Some? ==> ToByte(r.value) == b
  {
    if b < |Numbered| then Some(Numbered[b])
    else if b == 255 then Some(IGL)
    else None
  }

  /** Converting to a byte and back is the identity. */
  lemma ByteRoundTrip(op: Opcode)
    ensures TryFromByte(ToByte(op)) == Some(op)
  {
  }

  /** The mnemonic `From<CompleteStr>` maps to each opcode; IGL has none. */
  function Mnemonic(op: Opcode): Option<string> {
    match op
    case HLT => Some("halt") case LOAD => Some("load") case LW => Some("lw")
    case SW => Some("sw") case ADD => Some("add") case SUB => Some("sub")
    case MUL => Some("mul") case DIV => Some("div") case JMP => Some("jmp")
    case EQ => Some("eq") case NEQ => Some("neq") case GT => Some("gt")
    case LT => Some("lt") case GTE => Some("gte") case LTE => Some("lte")
    case JEQ => Some("jeq") case ALLOC => Some("alloc") case SYSCALL => Some("syscall")
    case IGL => None
  }

  /** The match arms tried in order: the first opcode spelled `word`. */
  function Lookup(word: string, ops: seq<Opcode>): (r: Option<Opcode>)
    ensures r.Some? ==> r.value in ops && Mnemonic(r.value) == Some(word)
    ensures r.None? ==> forall i :: 0 <= i < |ops| ==> Mnemonic(ops[i]) != Some(word)
  {
    if ops == [] then None
    else if Mnemonic(ops[0]) == Some(word) then Some(ops[0])
    else Lookup(word, ops[1..])
  }

  /** `Opcode::from(CompleteStr)`: the opcode whose mnemonic is the lower-cased
      input, and IGL when there is none. */
  function FromMnemonic(s: string): (op: Opcode)
    ensures op != IGL ==> Mnemonic(op) == Some(ToLower(s))
    ensures op == IGL <==> forall o: Opcode :: Mnemonic(o) != Some(ToLower(s))
  {
    match Lookup(ToLower(s), Numbered)
    case Some(op) => op
    case None =>
      forall o: Opcode ensures Mnemonic(o) != Some(ToLower(s)) {
        if o != IGL { assert Numbered[ToByte(o)] == o; }
      }
      IGL
  }

  /** Every opcode but IGL is recognised from its mnemonic written in any case;
      `hlt` is not a mnemonic. */
  lemma FromMnemonicRoundTrip(op: Opcode, s: string)
    requires Mnemonic(op).Some? && ToLower(s) == Mnemonic(op).value
    ensures FromMnemonic(s) == op
    ensures FromMnemonic("hlt") == IGL
  {
    var r := FromMnemonic(s);
    assert r != IGL;
    MnemonicInjective(r, op);
    HltIsIllegal();
  }

  /** HLT is spelled `halt`, so `hlt` falls through to IGL. */
  lemma HltIsIllegal()
    ensures FromMnemonic("hlt") == IGL
  {
    assert ToLower("hlt") == "hlt";
    forall o: Opcode ensures Mnemonic(o) != Some("hlt") { }
  }

  /** No two opcodes share a mnemonic. */
  lemma MnemonicInjective(a: Opcode, b: Opcode)
    requires Mnemonic(a).Some? && Mnemonic(a) == Mnemonic(b)
    ensures a == b
  {
    match a
    case HLT => case LOAD => case LW => case SW => case ADD => case SUB =>
    case MUL => case DIV => case JMP => case EQ => case NEQ => case GT =>
    case LT => case GTE => case LTE => case JEQ => case ALLOC => case SYSCALL =>
  }
}
