/** A model of Rust's `f64` at the level the VM needs it: exact real arithmetic
    (rounding is not modelled), signed infinities and NaN with the IEEE 754
    rules for the special values, the IEEE comparisons, the saturating `as i32`
    cast, and decoding of the 8-byte big-endian binary64 interchange format. */
module Float {
  import opened Wrappers
  import opened Bytes

  datatype F64 = Fin(x: real) | Inf(negative: bool) | NaN

  /** `i as f64` for an `i32`, which is exact. */
  function FromInt(i: int): F64 { Fin(i as real) }

  function Neg(a: F64): F64 {
    match a
    case Fin(x) => Fin(-x)
    case Inf(n) => Inf(!n)
    case NaN => NaN
  }

  function Add(a: F64, b: F64): F64 {
    match (a, b)
    case (Fin(x), Fin(y)) => Fin(x + y)
    case (Inf(n), Fin(_)) => Inf(n)
    case (Fin(_), Inf(n)) => Inf(n)
    case (Inf(n), Inf(m)) => if n == m then Inf(n) else NaN
    case _ => NaN
  }

  function Sub(a: F64, b: F64): F64 { Add(a, Neg(b)) }

  function Mul(a: F64, b: F64): F64 {
    match (a, b)
    case (Fin(x), Fin(y)) => Fin(x * y)
    case (Inf(n), Fin(y)) => if y == 0.0 then NaN else Inf(n != (y < 0.0))
    case (Fin(x), Inf(n)) => if x == 0.0 then NaN else Inf(n != (x < 0.0))
    case (Inf(n), Inf(m)) => Inf(n != m)
    case _ => NaN
  }

  /** Division; a zero divisor is taken to be +0.0 (signed zeros are not modelled). */
  function Div(a: F64, b: F64): F64 {
    match (a, b)
    case (Fin(x), Fin(y)) =>
      if y != 0.0 then Fin(x / y) else if x == 0.0 then NaN else Inf(x < 0.0)
    case (Inf(n), Fin(y)) => Inf(n != (y < 0.0))
    case (Fin(_), Inf(_)) => Fin(0.0)
    case (Inf(_), Inf(_)) => NaN
    case _ => NaN
  }

  datatype Ordering = Less | Equal | Greater

  /** Position on the extended real line: -inf, the finite numbers, +inf. */
  function Tier(a: F64): int {
    match a
    case Inf(n) => if n then 0 else 2
    case Fin(_) => 1
    case NaN => 3
  }

  /** Strict order on the extended reals; never holds of NaN. */
  predicate Below(a: F64, b: F64) {
    !a.NaN? && !b.NaN? && (Tier(a) < Tier(b) || (a.Fin? && b.Fin? && a.x < b.x))
  }

  /** `f64::partial_cmp`: None exactly when an operand is NaN. */
  function PartialCmp(a: F64, b: F64): (r: Option<Ordering>)
    ensures r.None? <==> (a.NaN? || b.NaN?)
    ensures r == Some(Equal) <==> !a.NaN? && a == b
  {
    if a.NaN? || b.NaN? then None
    else if Below(a, b) then Some(Less)
    else if Below(b, a) then Some(Greater)
    else Some(Equal)
  }

  /** The IEEE comparison operators. */
  predicate Eq(a: F64, b: F64) { PartialCmp(a, b) == Some(Equal) }
  predicate Lt(a: F64, b: F64) { PartialCmp(a, b) == Some(Less) }
  predicate Gt(a: F64, b: F64) { PartialCmp(a, b) == Some(Greater) }
  predicate Le(a: F64, b: F64) { Lt(a, b) || Eq(a, b) }
  predicate Ge(a: F64, b: F64) { Gt(a, b) || Eq(a, b) }

  /** `f64::EPSILON`, 2^-52. */
  const EPSILON: real := 1.0 / 4503599627370496.0

  /** `(a - b).abs() < f64::EPSILON`. */
  predicate NearlyEqual(a: F64, b: F64) {
    match Sub(a, b)
    case Fin(d) => (if d < 0.0 then -d else d) < EPSILON
    case _ => false
  }

  /** `x != 0.0`, which holds of NaN and of the infinities. */
  predicate NonZero(a: F64) { !(a.Fin? && a.x == 0.0) }

  /** Truncation toward zero of a real. */
  function Trunc(x: real): int {
    if x >= 0.0 then x.Floor else -((-x).Floor)
  }

  /** `a as i32`: truncation toward zero, saturating at the `i32` bounds, NaN to 0. */
  function ToI32(a: F64): (i: int)
    ensures IsI32(i)
    ensures a.Fin? && IsI32(Trunc(a.x)) ==> i == Trunc(a.x)
  {
    match a
    case NaN => 0
    case Inf(n) => if n then I32_MIN else I32_MAX
    case Fin(x) =>
      var t := Trunc(x);
      if t < I32_MIN then I32_MIN else if t > I32_MAX then I32_MAX else t
  }

  /** 2^e for any integer e, as a real. */
  function Scale(e: int): (r: real)
    ensures r > 0.0
    decreases if e < 0 then -e else e
  {
    if e == 0 then 1.0
    else if e > 0 then 2.0 * Scale(e - 1)
    else Scale(e + 1) / 2.0
  }

  /** `f64::from_be_bytes`: the value of an 8-byte binary64 interchange encoding,
      most significant byte first (a negative zero reads as zero). */
  function FromBytes(b: seq<u8>): F64
    requires |b| == 8
  {
    var u := BigEndian(b);
    var negative := u >= 0x8000_0000_0000_0000;
    var e := (u / 0x10_0000_0000_0000) % 0x800;
    var m := u % 0x10_0000_0000_0000;
    if e == 0x7FF then (if m == 0 then Inf(negative) else NaN)
    else
      var magnitude :=
        if e == 0 then m as real * Scale(-1074)
        else (0x10_0000_0000_0000 + m) as real * Scale(e - 1075);
      Fin(if negative then -magnitude else magnitude)
  }

  /** Comparisons of two numbers are mutually exclusive and, without NaN, total. */
  lemma Trichotomy(a: F64, b: F64)
    ensures !a.NaN? && !b.NaN? ==> (Lt(a, b) || Eq(a, b) || Gt(a, b))
    ensures !(Lt(a, b) && Gt(a, b)) && !(Lt(a, b) && Eq(a, b)) && !(Eq(a, b) && Gt(a, b))
    ensures Lt(a, b) <==> Gt(b, a)
  {
  }
}
