/**
 * The numeric primitives the physics core borrows from numpy (square root,
 * cosine, sine), passed around as values. The model never fixes how they are
 * computed; each member that relies on one states, as a precondition, the
 * property of it that its proof uses.
 */
module Numerics {

  /** numpy's `sqrt`, `cos` and `sin`, read over the reals. */
  datatype Primitives = Primitives(sqrt: real -> real, cos: real -> real, sin: real -> real)

  /** `sqrt` returns the non-negative square root of every non-negative argument. */
  ghost predicate IsSqrt(sqrt: real -> real)
  {
    forall v: real :: 0.0 <= v ==> 0.0 <= sqrt(v) && sqrt(v) * sqrt(v) == v
  }

  /** `cos` and `sin` lie on the unit circle and start at angle zero. */
  ghost predicate IsUnitCircle(cos: real -> real, sin: real -> real)
  {
    && cos(0.0) == 1.0
    && sin(0.0) == 0.0
    && forall t: real :: cos(t) * cos(t) + sin(t) * sin(t) == 1.0
  }

  /** Python's built-in `max` on two numbers. */
  function Max(a: real, b: real): (m: real)
    ensures a <= m && b <= m
    ensures m == a || m == b
  {
    if a < b then b else a
  }

  /** Python's built-in `abs`. */
  function Abs(a: real): (m: real)
    ensures 0.0 <= m
    ensures m == a || m == -a
  {
    if a < 0.0 then -a else a
  }

  /** A product of two positive numbers is positive. */
  lemma ProductPositive(a: real, b: real)
    requires 0.0 < a && 0.0 < b
    ensures 0.0 < a * b
  {
  }

  /** Squaring is strictly increasing on the non-negative reals. */
  lemma SquareLess(l: real, r: real)
    requires 0.0 <= l < r
    ensures l * l < r * r
  {
    ProductPositive(r - l, r + l);
    assert (r - l) * (r + l) == r * r - l * l;
  }

  /**
   * The root of an argument clamped at zero is a non-negative number whose
   * square is the clamped argument, and it is zero exactly when the argument
   * is not positive.
   */
  lemma ClampedSqrt(sqrt: real -> real, v: real)
    requires IsSqrt(sqrt)
    ensures 0.0 <= sqrt(Max(0.0, v))
    ensures sqrt(Max(0.0, v)) * sqrt(Max(0.0, v)) == Max(0.0, v)
    ensures sqrt(Max(0.0, v)) == 0.0 <==> v <= 0.0
  {
    var r := sqrt(Max(0.0, v));
    assert 0.0 <= r && r * r == Max(0.0, v);
    if v <= 0.0 && r > 0.0 {
      SquareLess(0.0, r);
    }
  }

  /**
   * Comparing a root with a non-negative limit is comparing the radicand with
   * the squared limit: `sqrt(v) > limit` exactly when `v > limit * limit`.
   */
  lemma SqrtExceeds(sqrt: real -> real, v: real, limit: real)
    requires IsSqrt(sqrt)
    requires 0.0 <= v && 0.0 <= limit
    ensures sqrt(v) > limit <==> v > limit * limit
  {
    var r := sqrt(v);
    assert 0.0 <= r && r * r == v;
    if r > limit {
      SquareLess(limit, r);
    } else if r < limit {
      SquareLess(r, limit);
    }
  }
}
