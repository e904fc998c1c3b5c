/** VM register values and the register-byte encoding (src/vm/register.rs):
    bit 7 of an operand byte marks a real register, bit 6 a vector register,
    and a byte with both bits clear names an integer register. */
module Register {
  import opened Wrappers
  import opened Bytes
  import opened Float

  /** The contents of one register of each bank. */
  datatype Register = I(i: int) | R(r: F64) | V(v: seq<F64>)

  /** `TryInto<i32>`: integers as they are, reals truncated, vectors refused. */
  function ToI32(reg: Register): (r: Result<int, string>)
    ensures r.Ok? <==> !reg.V?
    ensures reg.I? ==> r == Ok(reg.i)
    ensures reg.R? ==> r == Ok(Float.ToI32(reg.r))
  {
    match reg
    case I(i) => Ok(i)
    case R(x) => Ok(Float.ToI32(x))
    case V(_) => Err("Cannot convert vector register into i32")
  }

  /** `TryInto<f64>`: integers widened exactly, reals as they are, vectors refused. */
  function ToF64(reg: Register): (r: Result<F64, string>)
    ensures r.Ok? <==> !reg.V?
    ensures reg.I? ==> r == Ok(Fin(reg.i as real))
    ensures reg.R? ==> r == Ok(reg.r)
  {
    match reg
    case I(i) => Ok(FromInt(i))
    case R(x) => Ok(x)
    case V(_) => Err("Cannot convert vector register into f64")
  }

  /** `TryInto<Vec<f64>>`: only vectors convert, to their contents. */
  function ToVec(reg: Register): (r: Result<seq<F64>, string>)
    ensures r.Ok? <==> reg.V?
    ensures reg.V? ==> r == Ok(reg.v)
  {
    match reg
    case I(_) => Err("Cannot convert integer register into vector")
    case R(_) => Err("Cannot convert real register into vector")
    case V(v) => Ok(v)
  }

  // The masks of the source are written arithmetically on the byte's value:
  // bit 7 is `b / 128 % 2` (0x80) and bit 6 is `b / 64 % 2` (0x40).

  /** `is_real_register`: `b & 0x80 == 0x80`. */
  predicate IsReal(b: u8) { b / 128 % 2 == 1 }

  /** `is_vector_register`: `b & 0x40 == 0x40`. */
  predicate IsVector(b: u8) { b / 64 % 2 == 1 }

  /** `is_int_register`: neither a real nor a vector byte. */
  predicate IsInt(b: u8)
    ensures IsInt(b) <==> b < 64
  {
    !IsReal(b) && !IsVector(b)
  }

  /** `idx_from_int_register` is the identity. */
  function IdxFromInt(b: u8): u8 { b }

  /** `idx_from_real_register`: `b & 0x7F`, clearing bit 7. */
  function IdxFromReal(b: u8): (i: u8)
    ensures !IsReal(i) && i < 128
  {
    if IsReal(b) then b - 128 else b
  }

  /** `idx_from_vector_register`: `b & 0xBF`, clearing bit 6. */
  function IdxFromVector(b: u8): (i: u8)
    ensures !IsVector(i) && IsReal(i) == IsReal(b)
  {
    if IsVector(b) then b - 64 else b
  }

  /** `int_register_to_idx` is the identity. */
  function IntToIdx(r: u8): u8 { r }

  /** `real_register_to_idx`: `r | 0x80`, setting bit 7. */
  function RealToIdx(r: u8): (b: u8)
    ensures IsReal(b) && IsVector(b) == IsVector(r)
  {
    if IsReal(r) then r else r + 128
  }

  /** `vector_register_to_idx`: `r | 0x40`, setting bit 6. */
  function VectorToIdx(r: u8): (b: u8)
    ensures IsVector(b) && IsReal(b) == IsReal(r)
  {
    if IsVector(r) then r else r + 64
  }

  /** Encoding a real register below 128 and decoding it gives it back, and
      likewise a vector register whose bit 6 is clear. */
  lemma IndexRoundTrips(r: u8)
    ensures r < 128 ==> IdxFromReal(RealToIdx(r)) == r
    ensures r % 128 < 64 ==> IdxFromVector(VectorToIdx(r)) == r
    ensures IdxFromInt(IntToIdx(r)) == r
  {
  }

  /** Registers below 64 are classified by their encoding alone: an integer
      byte is only an integer, a real byte only real, a vector byte only vector.
      Above that the classes overlap: 0xC0 is both real and vector. */
  lemma Classification(r: u8)
    requires r < 64
    ensures IsInt(IntToIdx(r)) && !IsReal(IntToIdx(r)) && !IsVector(IntToIdx(r))
    ensures IsReal(RealToIdx(r)) && !IsVector(RealToIdx(r)) && !IsInt(RealToIdx(r))
    ensures IsVector(VectorToIdx(r)) && !IsReal(VectorToIdx(r)) && !IsInt(VectorToIdx(r))
    ensures IsReal(0xC0) && IsVector(0xC0)
  {
  }
}
