/**
 Real-number helpers used by the roof solver: the absolute value, maximum and
 minimum of JavaScript's `Math` object, and what a square-root function must
 satisfy. Each helper is specified by what it means rather than by its body.
 */
module RealOps {

  /** `Math.abs` on reals. */
  function Abs(x: real): (r: real)
    ensures r >= 0.0
    ensures r == x || r == -x
  {
    if x < 0.0 then -x else x
  }

  /** `Math.max` on reals: the larger of `a` and `b`. */
  function Max(a: real, b: real): (r: real)
    ensures r >= a && r >= b
    ensures r == a || r == b
  {
    if a >= b then a else b
  }

  /** `Math.min` on reals: the smaller of `a` and `b`. */
  function Min(a: real, b: real): (r: real)
    ensures r <= a && r <= b
    ensures r == a || r == b
  {
    if a <= b then a else b
  }

  /** What a square root must satisfy on the non-negative reals. */
  ghost predicate IsSqrt(sqrt: real -> real)
  {
    forall x: real :: 0.0 <= x ==> 0.0 <= sqrt(x) && sqrt(x) * sqrt(x) == x
  }

  /** Squaring is monotone on the non-negative reals, read backwards. */
  lemma SquareMonotone(a: real, b: real)
    requires 0.0 <= b
    requires a * a <= b * b
    ensures a <= b
  {
    if a + b > 0.0 {
      assert (a - b) * (a + b) <= 0.0;
    }
  }

  /** Squaring is monotone on the non-negative reals. */
  lemma SquareMonotoneUp(a: real, b: real)
    requires 0.0 <= a <= b
    ensures a * a <= b * b
  {
    assert a * a <= a * b;
    assert a * b <= b * b;
  }
}
