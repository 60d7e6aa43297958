/**
 * Java language primitives the model needs: nullable values, the exceptions that
 * escape a method, 32-bit int arithmetic (wrap-around, bitwise AND), long division
 * that truncates toward zero, and IEEE-754 doubles with their NaN and infinity tags.
 */
module JavaLang {

  /** A Java reference that may be null. */
  datatype Option<+T> = None | Some(value: T) {
    function GetOr(default: T): T {
      match this
      case Some(v) => v
      case None => default
    }
  }

  /** The unchecked exceptions that can escape the modelled methods. */
  datatype JavaException =
    | ArrayIndexOutOfBounds
    | StringIndexOutOfBounds
    | NumberFormat
    | NullPointer
    | IndexOutOfBounds

  /** How a void Java method ended: normally, or by throwing. */
  datatype Outcome = Completed | Threw(exception: JavaException)

  // ---------------------------------------------------------------------------
  // 32-bit int

  const INT_MIN: int := -0x8000_0000
  const INT_MAX: int := 0x7FFF_FFFF
  const TWO_32: int := 0x1_0000_0000

  predicate InInt32(x: int) {
    INT_MIN <= x <= INT_MAX
  }

  /** The int a Java expression of type int yields for the mathematical value x. */
  function Wrap32(x: int): (r: int)
    ensures InInt32(r)
    ensures (r - x) % TWO_32 == 0
    ensures InInt32(x) ==> r == x
  {
    (x - INT_MIN) % TWO_32 + INT_MIN
  }

  /** Bitwise AND of the binary expansions of two naturals. */
  function BitAnd(a: nat, b: nat): (r: nat)
    ensures r <= a && r <= b
  {
    if a == 0 || b == 0 then 0
    else 2 * BitAnd(a / 2, b / 2) + (a % 2) * (b % 2)
  }

  /** The two's-complement bit pattern of an int, read as an unsigned number. */
  function ToUnsigned32(x: int): (u: nat)
    requires InInt32(x)
    ensures u < TWO_32
    ensures x >= 0 ==> u == x
  {
    if x < 0 then x + TWO_32 else x
  }

  function FromUnsigned32(u: nat): (x: int)
    requires u < TWO_32
    ensures InInt32(x)
    ensures u <= INT_MAX ==> x == u
  {
    if u <= INT_MAX then u else u - TWO_32
  }

  /** Java's `a & b` on two ints. */
  function And32(a: int, b: int): (r: int)
    requires InInt32(a) && InInt32(b)
    ensures a >= 0 && b >= 0 ==> r == BitAnd(a, b)
  {
    FromUnsigned32(BitAnd(ToUnsigned32(a), ToUnsigned32(b)))
  }

  // ---------------------------------------------------------------------------
  // long division and remainder (truncating toward zero, as in Java)

  function JavaDiv(a: int, b: int): (q: int)
    requires b > 0
    ensures a >= 0 ==> q == a / b
    ensures a < 0 ==> q == -((-a) / b)
  {
    if a >= 0 then a / b else -((-a) / b)
  }

  function JavaRem(a: int, b: int): (r: int)
    requires b > 0
    ensures a == JavaDiv(a, b) * b + r
    ensures a >= 0 ==> 0 <= r < b
    ensures a < 0 ==> -b < r <= 0
  {
    a - JavaDiv(a, b) * b
  }

  // ---------------------------------------------------------------------------
  // IEEE-754 double (and float): a real value or one of the three special values.
  // Arithmetic is exact on the real part; rounding is not modelled.

  datatype Double = Finite(r: real) | NaN | PosInf | NegInf

  predicate IsNaN(d: Double) {
    d.NaN?
  }

  predicate IsInfinite(d: Double) {
    d.PosInf? || d.NegInf?
  }

  function Neg(a: Double): Double {
    match a
    case Finite(x) => Finite(-x)
    case NaN => NaN
    case PosInf => NegInf
    case NegInf => PosInf
  }

  function Add(a: Double, b: Double): (r: Double)
    ensures a.Finite? && b.Finite? ==> r == Finite(a.r + b.r)
    ensures IsNaN(a) || IsNaN(b) ==> IsNaN(r)
  {
    match (a, b)
    case (NaN, _) => NaN
    case (_, NaN) => NaN
    case (Finite(x), Finite(y)) => Finite(x + y)
    case (PosInf, NegInf) => NaN
    case (NegInf, PosInf) => NaN
    case (PosInf, _) => PosInf
    case (NegInf, _) => NegInf
    case (_, PosInf) => PosInf
    case (_, NegInf) => NegInf
  }

  function Sub(a: Double, b: Double): (r: Double)
    ensures a.Finite? && b.Finite? ==> r == Finite(a.r - b.r)
    ensures IsNaN(a) || IsNaN(b) ==> IsNaN(r)
  {
    Add(a, Neg(b))
  }

  /** -1, 0 or 1 for the sign of a non-NaN value. */
  function Sign(a: Double): int
    requires !IsNaN(a)
  {
    match a
    case Finite(x) => if x < 0.0 then -1 else if x == 0.0 then 0 else 1
    case PosInf => 1
    case NegInf => -1
  }

  function Infinity(sign: int): Double {
    if sign < 0 then NegInf else PosInf
  }

  function Mul(a: Double, b: Double): Double
  {
    if IsNaN(a) || IsNaN(b) then NaN
    else if a.Finite? && b.Finite? then Finite(a.r * b.r)
    else if Sign(a) == 0 || Sign(b) == 0 then NaN
    else Infinity(Sign(a) * Sign(b))
  }

  function Div(a: Double, b: Double): Double
  {
    if IsNaN(a) || IsNaN(b) then NaN
    else if a.Finite? && b.Finite? then
      if b.r != 0.0 then Finite(a.r / b.r)
      else if a.r == 0.0 then NaN
      else Infinity(Sign(a))
    else if IsInfinite(a) && IsInfinite(b) then NaN
    else if IsInfinite(b) then Finite(0.0)
    else Infinity(Sign(a) * (if Sign(b) == 0 then 1 else Sign(b)))
  }

  /** Java's `a < b`: false whenever either side is NaN. */
  predicate Less(a: Double, b: Double) {
    match (a, b)
    case (NaN, _) => false
    case (_, NaN) => false
    case (Finite(x), Finite(y)) => x < y
    case (NegInf, NegInf) => false
    case (NegInf, _) => true
    case (_, PosInf) => !a.PosInf?
    case (_, _) => false
  }
}
