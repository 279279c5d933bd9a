/** The scalar arithmetic the synthesiser borrows from Python and numpy, over exact reals. */
module Numeric {

  /** numpy's value of pi. Only its role as a factor of the phase matters here. */
  const Pi: real := 3.141592653589793

  function Abs(x: real): (r: real)
    ensures r >= 0.0
    ensures r == x || r == -x
  {
    if x < 0.0 then -x else x
  }

  /** numpy.sign: -1, 0 or 1 according to the sign of x, with sign(0) == 0. */
  function Sign(x: real): (r: real)
    ensures r == -1.0 || r == 0.0 || r == 1.0
    ensures r == 0.0 <==> x == 0.0
    ensures r > 0.0 <==> x > 0.0
    ensures r * x == Abs(x)
  {
    if x > 0.0 then 1.0 else if x < 0.0 then -1.0 else 0.0
  }

  /** Python's `int(x)` of a float and numpy's float-to-integer cast: truncation toward zero. */
  function Trunc(x: real): (r: int)
    ensures Abs(r as real) <= Abs(x) < Abs(r as real) + 1.0
    ensures x >= 0.0 ==> r >= 0
    ensures x <= 0.0 ==> r <= 0
  {
    if x >= 0.0 then x.Floor else -((-x).Floor)
  }

  /** Truncation never reverses the order of two values. */
  lemma TruncMonotone(x: real, y: real)
    requires x <= y
    ensures Trunc(x) <= Trunc(y)
  {
  }

  /**
   * The sine and exponential that numpy evaluates, kept abstract. The model
   * holds for every pair of functions meeting `Valid`, which the real sine and
   * exponential do; nothing else about them is assumed.
   */
  datatype Transcendental = Transcendental(sin: real -> real, exp: real -> real)
  {
    ghost predicate Valid() {
      && sin(0.0) == 0.0
      && exp(0.0) == 1.0
      && (forall x :: 0.0 < exp(x))
      && (forall x, y :: x < y ==> exp(x) < exp(y))
    }
  }

  /** A valid exponential of a non-positive argument is a gain in (0, 1]. */
  lemma ExpOfNonPositive(m: Transcendental, x: real)
    requires m.Valid()
    requires x <= 0.0
    ensures 0.0 < m.exp(x) <= 1.0
  {
    if x < 0.0 {
      assert m.exp(x) < m.exp(0.0);
    }
  }
}
