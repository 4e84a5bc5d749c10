# Relascope (angle-count) simulation — Dafny model

`simulering.py` scatters trees over a square plot and asks, for a range of
instrument angles, which trees a relascope held at the origin counts: a tree
is counted when its radius exceeds its distance from the origin times the
tangent of half the instrument angle. It then reports, per angle, the number
of counted trees, the total cross-section area of the stand and the area per
counted tree.

This project models that core as pure functions over values:

- `numerics.dfy` (module `Numerics`): the numeric primitives the program
  calls (`np.pi`, `np.sqrt`, `np.tan`) as a record `Primitives` passed to every
  operation that needs them, and the predicate `Lawful` stating what the
  proofs assume of them: pi is positive; the square root of a non-negative
  number is non-negative and squares back to it (and the root of 0 is 0);
  the tangent is 0 at 0 and strictly increasing on [0, pi/2). Degrees are
  converted to radians as `np.deg2rad` does. Also the `Result` type.
- `trees.dfy` (module `Trees`): a tree (`Tree`: position and radius), its
  generation from given random samples, its distance from the origin, its
  area and the inclusion test `InsideAngle`.
- `forests.dfy` (module `Forests`): a forest as the sequence of its trees,
  fixed at generation, with the coordinate and marker-size arrays, the
  counted vector, the number counted, the total area and the area per
  counted tree.

Random draws are inputs. A coordinate is made from a unit-uniform sample `u`
in [0, 1) as `-size/2 + size * u` (numpy's `low + (high - low) * u` with
`low = -size/2`, `high = size/2`); a radius from a standard-normal sample `z`
as `max(mean + variation * z, 0)` for a non-negative deviation (numpy's
normal sampler rejects a negative one), with the constants the program uses
(plot side 100, mean 1, deviation 0.5).

Where the properties of the inclusion test depend on the sign of the
tangent, they are stated for instrument angles in [0, 180) degrees, the
range in which the half angle lies in [0, pi/2); the program itself uses
angles 1 to 9.

## Model

| member | source | states |
|---|---|---|
| `Trees.RandomCoordinate` | simulering.py:10-11 | a uniform coordinate from a sample in [0, 1) lies in [-size/2, size/2) for a positive plot side |
| `Trees.RandomPosition` | simulering.py:10-11 | both coordinates of a random position lie in the half-open square of the given side |
| `Trees.RandomRadius` | simulering.py:13-14 | for a non-negative deviation (the only kind the normal sampler accepts), the radius is the least non-negative value not below the normal draw: never negative, never below the draw, and either the draw itself or 0 (clamped, not redrawn) |
| `Trees.FixedRadius` | simulering.py:13-14 | with zero deviation the radius equals a non-negative mean |
| `Trees.NewTree` | simulering.py:6-8 | a generated tree has a non-negative radius and stands inside the 100 x 100 plot |
| `Trees.Distance` | simulering.py:16-18 | no contract of its own (the square root of x^2 + y^2); described by `Trees.DistanceIsEuclidean` |
| `Trees.InsideAngle` | simulering.py:20-21 | no contract of its own (radius > distance * tan(half angle)); described by `Trees.ZeroRadiusNeverCounted`, `Trees.OriginTreeAlwaysCounted`, `Trees.InsideAngleMonotone`, `Trees.BoundaryAngle` and `Trees.NegativeSlopeCountsAll` |
| `Trees.Area` | simulering.py:23-25 | no contract of its own (pi r^2); described by `Trees.AreaSign` |
| `Numerics.Deg2Rad` | simulering.py:21 | no contract of its own (degrees times pi / 180, as `np.deg2rad`); described through `Numerics.HalfAngleInRange` |
| `Numerics.HalfAngle` | simulering.py:21 | no contract of its own (half of the angle in radians); described by `Numerics.HalfAngleInRange` and `Numerics.SlopeMonotone` |
| `Trees.DistanceIsEuclidean` | simulering.py:16-18 | the distance from the origin is non-negative and its square is the sum of the squared coordinates |
| `Trees.AreaSign` | simulering.py:23-25 | the area pi r^2 is non-negative, and 0 exactly when the radius is 0 |
| `Trees.ZeroRadiusNeverCounted` | simulering.py:20-21 | a tree of radius 0 is not counted at any angle in [0, 180), because the test is strict |
| `Trees.OriginTreeAlwaysCounted` | simulering.py:20-21 | a tree at the origin with a positive radius is counted at every angle |
| `Trees.InsideAngleMonotone` | simulering.py:20-21 | for 0 <= a1 <= a2 < 180, a tree counted at a2 is counted at a1 |
| `Trees.BoundaryAngle` | simulering.py:20-21 | at the angle where radius = distance * tan(half angle) the tree is not counted, and at every smaller angle it is |
| `Trees.NegativeSlopeCountsAll` | simulering.py:20-21 | where the tangent of the half angle is negative, every tree away from the origin is counted, radius 0 included |
| `Numerics.HalfAngleInRange` | simulering.py:21 | an angle in [0, 180) degrees has its half angle, in radians, in [0, pi/2), and the half angle grows with the angle |
| `Numerics.SlopeMonotone` | simulering.py:21 | the tangent of the half angle is non-negative on [0, 180) degrees and strictly increasing in the angle |
| `Forests.NewForest` | simulering.py:29-30 | a generated forest has one tree per set of draws, in order, every radius non-negative and every tree inside the plot |
| `Forests.XPositions` | simulering.py:32-34 | one entry per tree, in tree order, entry i the first coordinate of tree i |
| `Forests.YPositions` | simulering.py:36-38 | one entry per tree, in tree order, entry i the second coordinate of tree i |
| `Forests.DisplayRadii` | simulering.py:40-42 | one entry per tree, in tree order, entry i ten times the radius of tree i, non-negative for a generated forest |
| `Forests.Counted` | simulering.py:44-45 | one entry per tree, in tree order, entry i the inclusion test of tree i at the angle |
| `Forests.CountedMonotone` | simulering.py:44-45 | each entry of the counted vector is monotone in the angle on [0, 180) |
| `Forests.CountTrue` | simulering.py:62 | the sum of a boolean vector is at most its length, 0 exactly when no entry is true, the length exactly when every entry is |
| `Forests.CountTrueIsMultiplicity` | simulering.py:62 | the sum of a boolean vector is the number of occurrences of true in it |
| `Forests.CountTrueMonotone` | simulering.py:62 | a vector whose true entries are all true in another has no larger sum |
| `Forests.NumberCounted` | simulering.py:62 | the number counted is at most the number of trees, 0 exactly when no tree passes the test, all trees exactly when every tree does |
| `Forests.NumberCountedMonotone` | simulering.py:44-45 | the number counted does not increase as the angle grows within [0, 180) |
| `Forests.BareForestCountsNothing` | simulering.py:44-45 | a forest whose trees all have radius 0 counts none at an angle in [0, 180) |
| `Forests.TotalArea` | simulering.py:47-49 | no contract of its own (the sum of the trees' areas, taking no angle); described by `Forests.TotalAreaAppend`, `Forests.TotalAreaSign` and `Forests.EmptyForest` |
| `Forests.TotalAreaAppend` | simulering.py:47-49 | the total area of two forests one after the other is the sum of their totals |
| `Forests.TotalAreaSign` | simulering.py:47-49 | the total area is non-negative, and 0 exactly when every tree has radius 0 |
| `Forests.EmptyForest` | simulering.py:47-49 | an empty forest has total area 0, counts no tree and has no area per counted tree |
| `Forests.Ratio` | simulering.py:64 | an amount over a count has a value exactly when the count is positive, and that value times the count gives the amount back |
| `Forests.AreaPerCountedTree` | simulering.py:64 | the area per counted tree exists exactly when some tree is counted, and times the number counted it gives the total area |
| `Forests.AreaPerCountedTreeNonNegative` | simulering.py:64 | the area per counted tree is never negative |
| `Forests.AreaPerCountedTreeGrows` | simulering.py:60-64 | if the ratio exists at a larger angle it exists at a smaller one and is no larger there |

## Left out

- Random generation itself (`np.random.uniform`, `np.random.normal`): the samples are parameters; only the transformation of a sample into a coordinate or radius, and the clamp, are modelled.
- Floating-point behaviour of `np.pi`, `np.sqrt`, `np.tan` and `np.deg2rad`: the model works over mathematical reals with the stated laws and claims nothing about rounding.
- Forests.AreaPerCountedTree: where no tree is counted the program divides by zero, which numpy turns into an infinite or NaN value (or Python raises an error when the forest is empty); the model returns the error `NoTreeCounted` instead of modelling those values.
- Trees.ZeroRadiusNeverCounted: stated for angles in [0, 180) only, because beyond that the tangent of the half angle can be negative and a zero-radius tree away from the origin does pass the test (`Trees.NegativeSlopeCountsAll`).
- Trees.InsideAngleMonotone: stated for angles in [0, 180) only, where the tangent of the half angle is increasing.
- Plotting (`plot_forest`, `plt.scatter`, `plt.show`): presentation through a library; only the arrays handed to it are modelled.
- The script loop that prints, for angles 1 to 9, the number counted, the total area and their ratio: console output; the quantities it prints are modelled by `NumberCounted`, `TotalArea` and `AreaPerCountedTree`.
- The default tree count of `Forest` (300) and the 500 trees of the script: the number of trees is the number of draws given to `NewForest`.
- A calibration sweep over angle and radius with a variance criterion, and an area restricted to a sub-region: the program has no such code.
