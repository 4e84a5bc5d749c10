/** One tree of the simulated stand: where it stands, how thick it is, and
    whether the relascope counts it from the observation point at the origin. */
module Trees {
  import opened Numerics

  /** Side of the square plot a tree is placed in. */
  const PlotSize: real := 100.0
  /** Mean and standard deviation of the normal draw for a tree's radius. */
  const RadiusMean: real := 1.0
  const RadiusVariation: real := 0.5

  datatype Point = Point(x: real, y: real)

  /** A tree: its position in the plane and its (trunk) radius. */
  datatype Tree = Tree(position: Point, radius: real)

  /** The random samples one tree consumes: two unit-uniform samples, one per
      coordinate, and one standard-normal sample for the radius. */
  datatype TreeDraws = TreeDraws(ux: real, uy: real, z: real)

  /** A unit-uniform sample lies in [0, 1). */
  predicate UnitSample(u: real) {
    0.0 <= u < 1.0
  }

  predicate DrawsInRange(d: TreeDraws) {
    UnitSample(d.ux) && UnitSample(d.uy)
  }

  predicate InPlot(q: Point, size: real) {
    && -size / 2.0 <= q.x < size / 2.0
    && -size / 2.0 <= q.y < size / 2.0
  }

  /** A uniform draw over [-size/2, size/2) made from a unit-uniform sample:
      the lower end plus the sample's share of the width. */
  function RandomCoordinate(size: real, u: real): (c: real)
    requires UnitSample(u)
    ensures 0.0 < size ==> -size / 2.0 <= c < size / 2.0
  {
    ProductBelow(size, u);
    -size / 2.0 + size * u
  }

  /** A random position in the square of side `size` centred on the origin. */
  function RandomPosition(size: real, ux: real, uy: real): (q: Point)
    requires UnitSample(ux) && UnitSample(uy)
    ensures 0.0 < size ==> InPlot(q, size)
  {
    Point(RandomCoordinate(size, ux), RandomCoordinate(size, uy))
  }

  /** A normal draw with the given mean and deviation, floored at zero: a
      negative draw becomes 0, it is not drawn again. The normal sampler
      refuses a negative deviation. */
  function RandomRadius(mean: real, variation: real, z: real): (r: real)
    requires 0.0 <= variation
    ensures 0.0 <= r
    ensures mean + variation * z <= r
    ensures r == 0.0 || r == mean + variation * z
  {
    var draw := mean + variation * z;
    if 0.0 > draw then 0.0 else draw
  }

  /** With no variation the radius is the mean itself, when that is not negative. */
  lemma FixedRadius(mean: real, z: real)
    requires 0.0 <= mean
    ensures RandomRadius(mean, 0.0, z) == mean
  {
  }

  /** A freshly generated tree. */
  function NewTree(d: TreeDraws): (t: Tree)
    requires DrawsInRange(d)
    ensures 0.0 <= t.radius
    ensures InPlot(t.position, PlotSize)
  {
    Tree(RandomPosition(PlotSize, d.ux, d.uy), RandomRadius(RadiusMean, RadiusVariation, d.z))
  }

  /** Distance of the tree from the observation point at the origin. */
  function Distance(t: Tree, p: Primitives): real {
    p.sqrt(t.position.x * t.position.x + t.position.y * t.position.y)
  }

  /** Whether the relascope with the given instrument angle (in degrees)
      counts the tree: its radius must exceed its distance times the tangent
      of half the angle. */
  predicate InsideAngle(t: Tree, angle: real, p: Primitives) {
    t.radius > Distance(t, p) * p.tan(HalfAngle(angle, p))
  }

  /** Cross-section area of the trunk. */
  function Area(t: Tree, p: Primitives): real {
    p.pi * t.radius * t.radius
  }

  /** The distance is the Euclidean norm of the position: non-negative, and
      its square is the sum of the squared coordinates. */
  lemma DistanceIsEuclidean(t: Tree, p: Primitives)
    requires Lawful(p)
    ensures 0.0 <= Distance(t, p)
    ensures Distance(t, p) * Distance(t, p) == t.position.x * t.position.x + t.position.y * t.position.y
  {
    SquareNonNegative(t.position.x);
    SquareNonNegative(t.position.y);
  }

  /** The area is never negative, and it is zero exactly for a zero radius. */
  lemma AreaSign(t: Tree, p: Primitives)
    requires Lawful(p)
    ensures 0.0 <= Area(t, p)
    ensures Area(t, p) == 0.0 <==> t.radius == 0.0
  {
    if 0.0 < t.radius {
      ProductPositive(p.pi, t.radius);
      ProductPositive(p.pi * t.radius, t.radius);
    } else if t.radius < 0.0 {
      ProductNegative(p.pi, t.radius);
      ProductOfNegatives(p.pi * t.radius, t.radius);
    }
  }

  /** A tree of radius 0 is never counted at an angle in [0, 180): the test is
      a strict inequality and its right-hand side is not negative there. */
  lemma ZeroRadiusNeverCounted(t: Tree, angle: real, p: Primitives)
    requires Lawful(p)
    requires 0.0 <= angle < 180.0
    requires t.radius == 0.0
    ensures !InsideAngle(t, angle, p)
  {
    SlopeMonotone(p, angle, angle);
    DistanceIsEuclidean(t, p);
    ProductMonotone(Distance(t, p), 0.0, p.tan(HalfAngle(angle, p)));
  }

  /** A tree standing at the origin with a positive radius is counted at every
      angle: the right-hand side of the test is 0 there. */
  lemma OriginTreeAlwaysCounted(t: Tree, angle: real, p: Primitives)
    requires Lawful(p)
    requires t.position == Point(0.0, 0.0)
    requires 0.0 < t.radius
    ensures InsideAngle(t, angle, p)
  {
    assert t.position.x * t.position.x + t.position.y * t.position.y == 0.0;
  }

  /** Inclusion is monotone in the angle: a tree counted at some angle below
      180 degrees is counted at every smaller non-negative angle. */
  lemma InsideAngleMonotone(t: Tree, a1: real, a2: real, p: Primitives)
    requires Lawful(p)
    requires 0.0 <= a1 <= a2 < 180.0
    requires InsideAngle(t, a2, p)
    ensures InsideAngle(t, a1, p)
  {
    SlopeMonotone(p, a1, a2);
    DistanceIsEuclidean(t, p);
    ProductMonotone(Distance(t, p), p.tan(HalfAngle(a1, p)), p.tan(HalfAngle(a2, p)));
  }

  /** At the angle where the radius equals distance times the tangent of the
      half angle exactly, the tree is not counted (the inequality is strict);
      at every smaller non-negative angle it is. */
  lemma BoundaryAngle(t: Tree, a: real, smaller: real, p: Primitives)
    requires Lawful(p)
    requires 0.0 <= smaller < a < 180.0
    requires 0.0 < t.radius
    requires t.radius == Distance(t, p) * p.tan(HalfAngle(a, p))
    ensures !InsideAngle(t, a, p)
    ensures InsideAngle(t, smaller, p)
  {
    SlopeMonotone(p, smaller, a);
    DistanceIsEuclidean(t, p);
    var d := Distance(t, p);
    if d == 0.0 {
      assert false;
    }
    ProductStrictlyMonotone(d, p.tan(HalfAngle(smaller, p)), p.tan(HalfAngle(a, p)));
  }

  /** Where the tangent of the half angle is negative (an angle beyond 180
      degrees), every tree away from the origin passes the test, a tree of
      radius 0 included. */
  lemma NegativeSlopeCountsAll(t: Tree, angle: real, p: Primitives)
    requires Lawful(p)
    requires p.tan(HalfAngle(angle, p)) < 0.0
    requires 0.0 <= t.radius
    requires 0.0 < Distance(t, p)
    ensures InsideAngle(t, angle, p)
  {
    ProductNegative(Distance(t, p), p.tan(HalfAngle(angle, p)));
  }
}
