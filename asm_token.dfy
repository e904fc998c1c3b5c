/** The assembler's tokens (src/asm/mod.rs): what the assembly parsers produce
    and the instruction encoder consumes. */
module AsmToken {
  import opened Bytes
  import opened Float
  import Instruction

  datatype Token =
    | Op(code: Instruction.Opcode)
    | IntRegister(idx: u8)
    | RealRegister(idx: u8)
    | Integer(intValue: int)
    | Real(realValue: F64)
    | LabelDecl(name: string)
    | LabelRef(name: string)
    | Directive(name: string)
    | DoString(text: string)

  /** The 32-byte bytecode header starts with "DOVM". */
  const DO_HEADER_PREFIX: seq<u8> := [68, 79, 86, 77]
  const DO_HEADER_LEN: nat := 32

  /** Eight bytes, the size of an encoded `f64`. */
  type Bytes8 = s: seq<u8> | |s| == 8 witness [0, 0, 0, 0, 0, 0, 0, 0]
}
