/** A stand of trees fixed at generation, and the per-forest quantities the
    simulation reads off it: the coordinate and marker-size arrays handed to
    the scatter plot, the vector of trees the relascope counts at an angle,
    the total area, and the area per counted tree. */
module Forests {
  import opened Numerics
  import opened Trees

  /** The trees of a forest, in generation order. */
  type Forest = seq<Tree>

  /** Factor from a tree's radius to its marker size in the scatter plot. */
  const DisplayScale: real := 10.0

  /** Why the area per counted tree has no value. */
  datatype RatioError = NoTreeCounted

  /** Every tree of the forest has a non-negative radius. */
  predicate WellFormed(f: Forest) {
    forall i :: 0 <= i < |f| ==> 0.0 <= f[i].radius
  }

  /** A forest of one tree per set of draws; the number of draws is the
      number of trees. */
  function NewForest(draws: seq<TreeDraws>): (f: Forest)
    requires forall i :: 0 <= i < |draws| ==> DrawsInRange(draws[i])
    ensures |f| == |draws|
    ensures forall i :: 0 <= i < |f| ==> f[i] == NewTree(draws[i])
    ensures WellFormed(f)
    ensures forall i :: 0 <= i < |f| ==> InPlot(f[i].position, PlotSize)
  {
    if draws == [] then [] else [NewTree(draws[0])] + NewForest(draws[1..])
  }

  /** First coordinates of the trees, in tree order. */
  function XPositions(f: Forest): (xs: seq<real>)
    ensures |xs| == |f|
    ensures forall i :: 0 <= i < |f| ==> xs[i] == f[i].position.x
  {
    if f == [] then [] else [f[0].position.x] + XPositions(f[1..])
  }

  /** Second coordinates of the trees, in tree order. */
  function YPositions(f: Forest): (ys: seq<real>)
    ensures |ys| == |f|
    ensures forall i :: 0 <= i < |f| ==> ys[i] == f[i].position.y
  {
    if f == [] then [] else [f[0].position.y] + YPositions(f[1..])
  }

  /** Marker sizes: each tree's radius scaled by `DisplayScale`, in tree order. */
  function DisplayRadii(f: Forest): (rs: seq<real>)
    ensures |rs| == |f|
    ensures forall i :: 0 <= i < |f| ==> rs[i] == DisplayScale * f[i].radius
    ensures WellFormed(f) ==> forall i :: 0 <= i < |f| ==> 0.0 <= rs[i]
  {
    if f == [] then [] else [DisplayScale * f[0].radius] + DisplayRadii(f[1..])
  }

  /** For each tree in order, whether the relascope counts it at `angle`. */
  function Counted(f: Forest, angle: real, p: Primitives): (c: seq<bool>)
    ensures |c| == |f|
    ensures forall i :: 0 <= i < |f| ==> c[i] == InsideAngle(f[i], angle, p)
  {
    if f == [] then [] else [InsideAngle(f[0], angle, p)] + Counted(f[1..], angle, p)
  }

  /** Number of `true` entries. */
  function CountTrue(bs: seq<bool>): (n: nat)
    ensures n <= |bs|
    ensures n == 0 <==> forall i :: 0 <= i < |bs| ==> !bs[i]
    ensures n == |bs| <==> forall i :: 0 <= i < |bs| ==> bs[i]
  {
    if bs == [] then 0
    else
      assert forall i :: 1 <= i < |bs| ==> bs[1..][i - 1] == bs[i];
      (if bs[0] then 1 else 0) + CountTrue(bs[1..])
  }

  /** The counter agrees with the multiplicity of `true` in the sequence. */
  lemma {:induction false} CountTrueIsMultiplicity(bs: seq<bool>)
    ensures CountTrue(bs) == multiset(bs)[true]
  {
    if bs != [] {
      CountTrueIsMultiplicity(bs[1..]);
      assert bs == [bs[0]] + bs[1..];
      assert multiset(bs) == multiset([bs[0]]) + multiset(bs[1..]);
    }
  }

  /** When every entry of `b` implies the same entry of `a`, `b` has no more
      `true` entries than `a`. */
  lemma {:induction false} CountTrueMonotone(a: seq<bool>, b: seq<bool>)
    requires |a| == |b|
    requires forall i :: 0 <= i < |b| ==> b[i] ==> a[i]
    ensures CountTrue(b) <= CountTrue(a)
  {
    if b != [] {
      assert forall i :: 0 <= i < |b| - 1 ==> b[1..][i] == b[i + 1] && a[1..][i] == a[i + 1];
      CountTrueMonotone(a[1..], b[1..]);
    }
  }

  /** How many trees the relascope counts at `angle`. */
  function NumberCounted(f: Forest, angle: real, p: Primitives): (n: nat)
    ensures n <= |f|
    ensures n == 0 <==> forall i :: 0 <= i < |f| ==> !InsideAngle(f[i], angle, p)
    ensures n == |f| <==> forall i :: 0 <= i < |f| ==> InsideAngle(f[i], angle, p)
  {
    CountTrue(Counted(f, angle, p))
  }

  /** Sum of the trees' areas. It takes no angle: the same at every angle. */
  function TotalArea(f: Forest, p: Primitives): real {
    if f == [] then 0.0 else Area(f[0], p) + TotalArea(f[1..], p)
  }

  /** Total area over two forests laid end to end is the sum of their totals. */
  lemma {:induction false} TotalAreaAppend(f: Forest, g: Forest, p: Primitives)
    ensures TotalArea(f + g, p) == TotalArea(f, p) + TotalArea(g, p)
  {
    if f != [] {
      assert (f + g)[0] == f[0];
      assert (f + g)[1..] == f[1..] + g;
      TotalAreaAppend(f[1..], g, p);
    } else {
      assert f + g == g;
    }
  }

  /** The total area is never negative, and it is 0 exactly when every tree
      has radius 0 (in particular for an empty forest). */
  lemma {:induction false} TotalAreaSign(f: Forest, p: Primitives)
    requires Lawful(p)
    ensures 0.0 <= TotalArea(f, p)
    ensures TotalArea(f, p) == 0.0 <==> forall i :: 0 <= i < |f| ==> f[i].radius == 0.0
  {
    if f != [] {
      AreaSign(f[0], p);
      TotalAreaSign(f[1..], p);
      assert forall i :: 1 <= i < |f| ==> f[1..][i - 1] == f[i];
      if TotalArea(f, p) == 0.0 {
        assert Area(f[0], p) == 0.0 && TotalArea(f[1..], p) == 0.0;
      }
    }
  }

  /** An amount divided by a count; there is no value for a count of 0. */
  function Ratio(amount: real, count: nat): (r: Result<real, RatioError>)
    ensures r.Ok? <==> 0 < count
    ensures r.Ok? ==> r.value * (count as real) == amount
  {
    if count == 0 then Err(NoTreeCounted)
    else
      QuotientTimesDivisor(amount, count as real);
      Ok(amount / count as real)
  }

  /** Total area divided by the number of counted trees; there is no value
      when no tree is counted. */
  function AreaPerCountedTree(f: Forest, angle: real, p: Primitives): (r: Result<real, RatioError>)
    ensures r.Ok? <==> 0 < NumberCounted(f, angle, p)
    ensures r.Ok? ==> r.value * (NumberCounted(f, angle, p) as real) == TotalArea(f, p)
  {
    Ratio(TotalArea(f, p), NumberCounted(f, angle, p))
  }

  /** An empty forest has no area, counts no tree and has no area per tree. */
  lemma EmptyForest(angle: real, p: Primitives)
    ensures TotalArea([], p) == 0.0
    ensures NumberCounted([], angle, p) == 0
    ensures AreaPerCountedTree([], angle, p) == Err(NoTreeCounted)
  {
  }

  /** Each entry of the counted vector is monotone in the angle: what is
      counted at the larger angle is counted at the smaller one. */
  lemma CountedMonotone(f: Forest, a1: real, a2: real, p: Primitives, i: int)
    requires Lawful(p)
    requires 0.0 <= a1 <= a2 < 180.0
    requires 0 <= i < |f|
    ensures Counted(f, a2, p)[i] ==> Counted(f, a1, p)[i]
  {
    if InsideAngle(f[i], a2, p) {
      InsideAngleMonotone(f[i], a1, a2, p);
    }
  }

  /** The number counted does not grow as the angle grows. */
  lemma NumberCountedMonotone(f: Forest, a1: real, a2: real, p: Primitives)
    requires Lawful(p)
    requires 0.0 <= a1 <= a2 < 180.0
    ensures NumberCounted(f, a2, p) <= NumberCounted(f, a1, p)
  {
    forall i | 0 <= i < |f|
      ensures Counted(f, a2, p)[i] ==> Counted(f, a1, p)[i]
    {
      CountedMonotone(f, a1, a2, p, i);
    }
    CountTrueMonotone(Counted(f, a1, p), Counted(f, a2, p));
  }

  /** No tree of radius 0 is counted at an angle in [0, 180). */
  lemma BareForestCountsNothing(f: Forest, angle: real, p: Primitives)
    requires Lawful(p)
    requires 0.0 <= angle < 180.0
    requires forall i :: 0 <= i < |f| ==> f[i].radius == 0.0
    ensures NumberCounted(f, angle, p) == 0
  {
    forall i | 0 <= i < |f|
      ensures !InsideAngle(f[i], angle, p)
    {
      ZeroRadiusNeverCounted(f[i], angle, p);
    }
  }

  /** The area per counted tree is never negative. */
  lemma AreaPerCountedTreeNonNegative(f: Forest, angle: real, p: Primitives)
    requires Lawful(p)
    ensures AreaPerCountedTree(f, angle, p).Ok? ==> 0.0 <= AreaPerCountedTree(f, angle, p).value
  {
    TotalAreaSign(f, p);
  }

  /** As the angle grows (below 180 degrees), fewer trees are counted, so the
      area per counted tree does not shrink. */
  lemma AreaPerCountedTreeGrows(f: Forest, a1: real, a2: real, p: Primitives)
    requires Lawful(p)
    requires 0.0 <= a1 <= a2 < 180.0
    ensures AreaPerCountedTree(f, a2, p).Ok? ==>
      && AreaPerCountedTree(f, a1, p).Ok?
      && AreaPerCountedTree(f, a1, p).value <= AreaPerCountedTree(f, a2, p).value
  {
    NumberCountedMonotone(f, a1, a2, p);
    if 0 < NumberCounted(f, a2, p) {
      TotalAreaSign(f, p);
      QuotientAntitone(TotalArea(f, p), NumberCounted(f, a2, p) as real, NumberCounted(f, a1, p) as real);
    }
  }
}
