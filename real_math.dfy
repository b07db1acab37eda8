/**
 * The floating-point library functions the audio front end calls
 * (`std::log10`, `std::pow(10, x)`, `std::cos`, `std::sin`) and the
 * reinterpretation of four bytes as a `float`. Their numerical values are
 * not modelled: every operation that needs them takes a `Math` record, and
 * a property that depends on one of them states what it assumes of it
 * (monotonicity) as a precondition.
 */
module RealMath {

  datatype Math = Math(
    /** std::log10 */
    log10: real -> real,
    /** x |-> std::pow(10, x) */
    exp10: real -> real,
    /** x |-> std::cos(2 * pi * x): the angle is given in turns, so that pi is not needed */
    cosTurn: real -> real,
    /** x |-> std::sin(2 * pi * x) */
    sinTurn: real -> real,
    /** value of a non-zero IEEE-754 binary32 bit pattern (the all-zero pattern is 0.0) */
    float32: nat -> real)

  /** f is strictly increasing on the positive reals (log10 is). */
  ghost predicate IncreasingOnPositives(f: real -> real)
  {
    forall x, y :: 0.0 < x < y ==> f(x) < f(y)
  }

  /** f is strictly increasing everywhere (x |-> 10^x is). */
  ghost predicate Increasing(f: real -> real)
  {
    forall x, y :: x < y ==> f(x) < f(y)
  }

  /** The value of a 32-bit float pattern; all-zero bits are +0.0. */
  function Float32Value(math: Math, bits: nat): real
  {
    if bits == 0 then 0.0 else math.float32(bits)
  }

  function Min(a: int, b: int): (r: int)
    ensures r <= a && r <= b && (r == a || r == b)
  {
    if a <= b then a else b
  }

  function Max(a: int, b: int): (r: int)
    ensures r >= a && r >= b && (r == a || r == b)
  {
    if a >= b then a else b
  }

  function MaxReal(a: real, b: real): (r: real)
    ensures r >= a && r >= b && (r == a || r == b)
  {
    if a >= b then a else b
  }
}
