/** Mathematical stand-ins for the numeric primitives the simulation calls
    (pi, a square root and a tangent), and the error-carrying result type.

    The primitives are not computable over `real`, so they are a value of
    their own, passed to every operation that uses them; `Lawful` states the
    facts about them the proofs rely on. Nothing about floating-point
    rounding is claimed. */
module Numerics {

  datatype Result<+T, +E> = Ok(value: T) | Err(error: E)

  /** The three primitives: the constant pi, a square root and a tangent in radians. */
  datatype Primitives = Primitives(pi: real, sqrt: real -> real, tan: real -> real)

  /** What is assumed of the primitives: pi is positive, the square root of a
      non-negative number is the non-negative number whose square it is (the
      root of 0 being 0 follows, and is stated so that no proof has to
      extract it from a product), and the tangent is 0 at 0 and strictly
      increasing on [0, pi/2). */
  ghost predicate Lawful(p: Primitives) {
    && p.pi > 0.0
    && (forall x :: 0.0 <= x ==> 0.0 <= p.sqrt(x) && p.sqrt(x) * p.sqrt(x) == x)
    && p.sqrt(0.0) == 0.0
    && p.tan(0.0) == 0.0
    && (forall x, y :: 0.0 <= x < y < p.pi / 2.0 ==> p.tan(x) < p.tan(y))
  }

  /** Degrees to radians, as `np.deg2rad` does it. */
  function Deg2Rad(degrees: real, p: Primitives): real {
    degrees * p.pi / 180.0
  }

  /** Half of an instrument angle given in degrees, in radians. */
  function HalfAngle(degrees: real, p: Primitives): real {
    Deg2Rad(degrees, p) / 2.0
  }

  /** An angle in [0, 180) degrees has its half angle in [0, pi/2), where the
      tangent is increasing; a larger angle has a larger half angle. */
  lemma HalfAngleInRange(p: Primitives, a1: real, a2: real)
    requires Lawful(p)
    requires 0.0 <= a1 <= a2 < 180.0
    ensures 0.0 <= HalfAngle(a1, p) <= HalfAngle(a2, p) < p.pi / 2.0
  {
    assert a1 * p.pi <= a2 * p.pi;
    assert a2 * p.pi < 180.0 * p.pi;
    assert HalfAngle(a2, p) == a2 * p.pi / 360.0;
  }

  /** The tangent of a half angle of [0, 180) degrees is non-negative, and it
      does not decrease as the angle grows. */
  lemma SlopeMonotone(p: Primitives, a1: real, a2: real)
    requires Lawful(p)
    requires 0.0 <= a1 <= a2 < 180.0
    ensures 0.0 <= p.tan(HalfAngle(a1, p)) <= p.tan(HalfAngle(a2, p))
    ensures a1 < a2 ==> p.tan(HalfAngle(a1, p)) < p.tan(HalfAngle(a2, p))
  {
    HalfAngleInRange(p, a1, a2);
    var h1, h2 := HalfAngle(a1, p), HalfAngle(a2, p);
    if a1 < a2 {
      assert a1 * p.pi < a2 * p.pi;
      assert h1 < h2;
    }
    if 0.0 < h1 {
      assert p.tan(0.0) < p.tan(h1);
    }
  }

  // Facts about real products and quotients, each kept apart so that the
  // solver sees one product at a time.

  lemma SquareNonNegative(x: real)
    ensures 0.0 <= x * x
  {
  }

  lemma ProductOfNegatives(a: real, b: real)
    requires a < 0.0 && b < 0.0
    ensures 0.0 < a * b
  {
  }

  lemma ProductPositive(a: real, b: real)
    requires 0.0 < a && 0.0 < b
    ensures 0.0 < a * b
  {
  }

  lemma ProductNegative(a: real, b: real)
    requires 0.0 < a && b < 0.0
    ensures a * b < 0.0
  {
  }

  lemma ProductBelow(a: real, u: real)
    requires 0.0 <= u < 1.0
    ensures 0.0 < a ==> 0.0 <= a * u < a
  {
  }

  lemma ProductMonotone(d: real, a: real, b: real)
    requires 0.0 <= d && a <= b
    ensures d * a <= d * b
  {
  }

  lemma ProductStrictlyMonotone(d: real, a: real, b: real)
    requires 0.0 < d && a < b
    ensures d * a < d * b
  {
  }

  /** Division undone by multiplication. */
  lemma QuotientTimesDivisor(x: real, d: real)
    requires 0.0 < d
    ensures x / d * d == x
  {
  }

  /** Dividing a non-negative amount by a larger divisor gives no more. */
  lemma QuotientAntitone(x: real, small: real, large: real)
    requires 0.0 <= x
    requires 0.0 < small <= large
    ensures x / large <= x / small
  {
  }
}
