# Distance between two segments in space

This project models the core of a small C++ program that computes the
minimum Euclidean distance between two finite segments of three-dimensional
space.

- `geom.dfy`, module `Geom`, models the value types of `src/geom.h`: `Point`,
  the free `Vector` with its arithmetic, cross and inner products and
  squared length, and `Segment`.
  - A `Segment` keeps its start point, end point and cached direction. Its
    `point(t)` is defined for t in [0, 1].
  - Its `parallel` test compares the cross product of the two directions with
    `epsilon`.
- `segment_distance.dfy`, module `SegmentDistance`, models the template function
  `distance` of `main.cpp`. The solver runs in four stages:
  1. It caches five inner products, uu, uv, vv, uw and vw.
  2. It solves for the parameters `sc`, `tc` of the closest points of the two
     lines. Parallel segments take a special branch.
  3. When a parameter falls outside [0, 1], it clamps that parameter and
     reprojects the other one, in two blocks, one after the other.
  4. When no reprojection applies, it falls back to the nearest pair of end
     points.

  The module holds:
  - `SquaredDistance`, a function stating what the solver returns, case by case.
  - `SolveLines`, `ClampFirst`, `ClampSecond` and `Distance`: imperative
    methods that follow the statements of `main.cpp`. They are proved to
    compute that function.
  - `DistanceAsWritten`, the solver exactly as written, including the stray `;`
    of `main.cpp:104`.
  - `IntendedSquaredDistance`, the solver with the reprojections computed as
    feet of perpendiculars.
- `minimum.dfy`, module `SegmentMinimum`, proves that `IntendedSquaredDistance`
  returns the minimum distance between two segments that are not parallel.
  - The squared length of the connecting vector is |w0|^2 plus a quadratic
    `Quad` in `sc` and `tc`, with the cached products as its coefficients.
  - When the segments are not parallel, that quadratic is strictly convex.
    Its minimum lies at the solution of the normal equations of
    `main.cpp:48-49`.
  - Each branch of the solver then picks the least value of the quadratic
    over the unit square of parameters.
- `scenario_*.dfy` work the solver out on concrete pairs:
  - every configuration `main` can be built with (`main.cpp:129-240`);
  - pairs that exhibit the findings below.
  - `scenario_cases.dfy`, module `ScenarioCases`, holds the cases of the
    solver that those pairs go through.

Distances are kept squared. The square root is monotone, so every comparison
the solver makes is preserved, and `norm(p - q)` becomes `SqrDist(p, q)`. A
division by zero and a failed `assert` in `Segment::point` are reported as
`Fault` values.

The `;` at `main.cpp:104` ends the `if`, so the block at lines 105-108 runs
whenever `tc > 1`. `DistanceAsWritten` follows the code as written.
`Distance` and `SquaredDistance` keep the guard in force, for two reasons:
the other three reprojections (lines 69, 80 and 93) are guarded, and the
comment at line 103 says the point is recomputed only "if it falls within
the range".

## Model

| member | source | states |
|---|---|---|
| Geom.Vector.Div | src/geom.h:107-110 | dividing by a non-zero scalar is undone by multiplying by it |
| Geom.SqrLenProperties | src/geom.h:124-125 | `sqrlen` is never negative and is zero exactly for the zero vector |
| Geom.SqrDistIsSqrLen | src/geom.h:42-45 | the squared distance of two points is the squared length of their difference `p - q` |
| Geom.SqrDistProperties | src/geom.h:149-154 | the squared `norm(p - q)` is never negative and is zero exactly when the points coincide |
| Geom.Segment.PointAt | src/geom.h:183-189 | `point(t)` requires t in [0, 1], as the two asserts do; `point(0)` is the start, and on a segment built by a constructor `point(1)` is the end |
| Geom.SegmentFromPoints | src/geom.h:161-165 | the two-point constructor keeps both points and caches the direction `p1 - p0` |
| Geom.SegmentFromVector | src/geom.h:167-171 | the point-and-vector constructor caches `v` and ends at `p + v` |
| Geom.SubThenAdd | src/geom.h:42-51 | the point difference is component-wise, and adding `p - q` to `q` gives back `p` |
| Geom.TranslateRoundTrip | src/geom.h:47-57 | translating by `v` and then by `-v`, in either order, is the identity; `(p + v) - p == v` |
| Geom.VectorFromIsDifference | src/geom.h:69-73 | the two-point `Vector` constructor is the point difference `p1 - p0` |
| Geom.VectorArithmetic | src/geom.h:88-110 | vector `+` and `-` undo each other, and `+` commutes; multiplying and then dividing by a non-zero scalar is the identity |
| Geom.PointAtConvex | src/geom.h:180-189 | `point(t)` is the convex combination `(1 - t) * p0 + t * p1` of the two end points |
| Geom.DotProperties | src/geom.h:118-147 | the member and free `dot` agree; `dot` is symmetric; `sqrlen` is `dot(u, u)`, which is never negative |
| Geom.DotLinear | src/geom.h:142-147 | `dot` is linear in its second argument |
| Geom.CrossProperties | src/geom.h:112-116 | the cross product is anti-commutative, vanishes on equal vectors, and is orthogonal to both operands |
| Geom.LagrangeIdentity | src/geom.h:112-125 | `uu * vv - uv * uv` is the squared length of the cross product |
| Geom.ParallelProperties | src/geom.h:197-201 | `parallel` is symmetric and reflexive |
| Geom.SqrLenShift | src/geom.h:124-125 | moving a vector by `d * u` changes its squared length by `2 d (u . c) + d^2 uu` |
| Geom.NonZeroDot | src/geom.h:142-147 | a vector with a non-zero inner product is not the zero vector |
| SegmentDistance.GramOf | main.cpp:14-18 | the cached `uu` and `vv` are never negative, and `uw != 0` implies `uu > 0` |
| SegmentDistance.GramDeterminant | main.cpp:20 | minus the `denominator` is the squared length of the cross product of the directions |
| SegmentDistance.NonParallelDenominator | main.cpp:45-50 | for segments that are not `parallel`, the `denominator` is at most `-epsilon^2`, so the divisions of lines 48-49 are defined |
| SegmentDistance.ParallelByDenominator | main.cpp:31 | `parallel` holds exactly when the `denominator` lies above `-epsilon^2`; it is never positive |
| SegmentDistance.InitialParams | main.cpp:27-50 | fails (division by zero at line 42) exactly when the segments are parallel with `uw >= 0` and `uv == 0`; otherwise the connecting vector is orthogonal to `u`, and also to `v` when the segments are not parallel; the parallel branch anchors `tc` (when `uw < 0`) or `sc` at 0 |
| SegmentDistance.ParallelParams | main.cpp:34-43 | the parallel branch fails exactly on `uw >= 0 && uv == 0`; otherwise it anchors one parameter at 0 and leaves the connecting vector orthogonal to `u` |
| SegmentDistance.NormalParams | main.cpp:48-49 | the two quotients solve both normal equations, so the connecting vector is orthogonal to both directions |
| SegmentDistance.NormalEquations | main.cpp:48-49 | Cramer's formulas satisfy both normal equations when the `denominator` is non-zero |
| SegmentDistance.ConnectingDots | main.cpp:14-18 | the inner products of `w0 + u sc - v tc` with `u` and with `v`, in terms of the cached products |
| SegmentDistance.InitialParamsOrthogonal | main.cpp:27-50 | the initial parameters make the connecting vector orthogonal to `u`, and also to `v` for non-parallel segments |
| SegmentDistance.ConnectingIsPointDifference | main.cpp:56 | for parameters in [0, 1], the connecting vector is `s1.point(sc) - s2.point(tc)` |
| SegmentDistance.TAtStart | main.cpp:69-71 | under the guard `0 < uw < uv`, the recomputed `tc = uw / uv` lies strictly inside (0, 1) |
| SegmentDistance.TAtEnd | main.cpp:80-82 | under the guard of line 80, the recomputed `tc = (uu + uw) / uv` lies strictly inside (0, 1) |
| SegmentDistance.SAtStart | main.cpp:93-95 | under the guard `0 < -uw < uu`, the recomputed `sc = -uw / uu` lies strictly inside (0, 1) |
| SegmentDistance.SAtEnd | main.cpp:104-106 | `sc = (vv - vw) / uv` lies in (0, 1) when the guard of line 104 holds, and, for `uv > 0`, only then |
| SegmentDistance.FootOnFirst | main.cpp:93-95 | the foot of the perpendicular from `s2.point(tc)` makes the connecting vector orthogonal to `u` |
| SegmentDistance.FootOnSecond | main.cpp:69-71 | the foot of the perpendicular from `s1.point(sc)` makes the connecting vector orthogonal to `v` |
| SegmentDistance.ShiftAlongFirst | main.cpp:95 | changing `sc` by `d` moves the connecting vector by `d u` |
| SegmentDistance.ShiftAlongSecond | main.cpp:71 | changing `tc` by `-d` moves the connecting vector by `d v` |
| SegmentDistance.FootOnFirstClosest | main.cpp:93-95 | among the points of the line of `s1`, the foot is nearest to the point of the line of `s2` at `tc` |
| SegmentDistance.FootOnSecondClosest | main.cpp:69-71 | among the points of the line of `s2`, the foot is nearest to the point of the line of `s1` at `sc` |
| SegmentDistance.SAtStartIsFoot | main.cpp:93-95 | the reprojection of line 95 is the foot of the perpendicular from the start of `s2` |
| SegmentDistance.FootOnFirstNearest | main.cpp:104-106 | a foot inside `s1` is the point of `s1` nearest to `s2.point(tc)` |
| SegmentDistance.FootOnSecondNearest | main.cpp:69-82 | a foot inside `s2` is the point of `s2` nearest to `s1.point(sc)` |
| SegmentDistance.EndpointMin | main.cpp:115-118 | the fallback is at most each of the four end-point distances and equals one of them |
| SegmentDistance.SquaredDistance | main.cpp:52-125 | the solver fails exactly on the zero divisor of line 42 |
| SegmentDistance.AttainedAt | main.cpp:56 | the distance between two points picked by parameters in [0, 1] is non-negative and attained |
| SegmentDistance.SquaredDistanceAttained | main.cpp:52-125 | whichever case applies, the result is the squared distance between a point of `s1` and a point of `s2`: every parameter handed to `point` lies in [0, 1] |
| SegmentDistance.Clamp | main.cpp:64-77 | clamping lands in [0, 1], keeps values already there, and sends values below 0 to 0 and above 1 to 1 |
| SegmentDistance.SolveLines | main.cpp:13-50 | the method computes the cached products `GramOf` and the initial parameters `InitialParams`, including the zero-divisor fault |
| SegmentDistance.ClampFirst | main.cpp:63-85 | `sc` is clamped; `tc` is recomputed exactly when a guard of lines 69 or 80 holds, and then lies in (0, 1); otherwise it is unchanged |
| SegmentDistance.ClampSecond | main.cpp:87-109 | with the guard of line 104 in force, `tc` is clamped; `sc` stays in [0, 1] and is recomputed exactly when a guard of lines 93 or 104 holds |
| SegmentDistance.ClampSecondAsWritten | main.cpp:87-109 | with the stray `;`, the block of lines 105-108 runs whenever `tc > 1`: it divides by zero exactly when `uv == 0`, and it always marks a perpendicular; for `tc <= 1` it behaves as guarded; `sc` is unchanged unless a perpendicular is marked |
| SegmentDistance.Distance | main.cpp:10-126 | the solver, with the guard of line 104 in force, returns `SquaredDistance` |
| SegmentDistance.DistanceAsWritten | main.cpp:10-126 | the solver as written agrees with `SquaredDistance` unless the unguarded block runs; then it divides by zero exactly when `uv == 0`, fails the range assertion of `point` exactly when `(vv - vw) / uv` lies outside [0, 1], and otherwise returns the distance at that `sc` |
| SegmentDistance.IntendedSquaredDistance | main.cpp:52-125 | the solver with the feet of perpendiculars as reprojections fails exactly on the zero divisor of line 42 |
| SegmentDistance.IntendedNearest | main.cpp:63-109 | where the intended solver drops a perpendicular from a clamped end, its result is the distance from that end to the nearest point of the other segment |
| SegmentDistance.IntendedAttained | main.cpp:52-125 | the intended result is the squared distance between a point of `s1` and a point of `s2` |
| SegmentDistance.IntendedAgreesAtStartOfSecond | main.cpp:88-98 | when only the reprojection of line 95 applies, the intended and written solvers agree |
| ScenarioCases.SolvedLines | main.cpp:45-50 | a Gram determinant of at least `epsilon^2` selects the normal equations |
| ScenarioCases.ParallelLines | main.cpp:31-44 | a Gram determinant below `epsilon^2` selects the parallel branch |
| ScenarioCases.NotStray | main.cpp:99-109 | a `tc` of at most 1 never reaches the unguarded block |
| ScenarioCases.InteriorCase | main.cpp:52-57 | parameters inside [0, 1] return the distance between the two points they name |
| ScenarioCases.EndpointMinOf | main.cpp:115-118 | the fallback is the first smallest of the four end-point distances |
| ScenarioCases.EndpointCase | main.cpp:111-119 | when no reprojection applies, the end-point fallback is returned |
| ScenarioCases.SecondStartCase | main.cpp:88-98 | after the clamp of `tc` to 0, the perpendicular at `sc = -uw / uu` is returned |
| ScenarioCases.FirstStartCase | main.cpp:64-74 | after the clamp of `sc` to 0, the point at `tc = uw / uv` is returned |
| ScenarioCases.FirstEndCase | main.cpp:75-85 | after the clamp of `sc` to 1, the point at `tc = (uu + uw) / uv` is returned |
| ScenarioCases.IntendedOntoSecondCase | main.cpp:63-85 | the intended first block returns the distance from the clamped end of `s1` to its foot on `s2` |
| ScenarioCases.IntendedOntoFirstCase | main.cpp:87-109 | the intended second block returns the distance from the clamped end of `s2` to its foot on `s1` |
| NotOverlappedCase.PerpendicularNotOverlapped | main.cpp:231-238 | the configured pair: squared distance 2 through the end-point fallback; the unguarded block is not reached |
| OverlappedCase.PerpendicularOverlapped | main.cpp:222-229 | squared distance 9, through the perpendicular from the start of `s2` |
| IntersectedCase.IntersectedDistance | main.cpp:141-148 | crossing segments: distance 0 at `sc = tc = 1/2` |
| ParallelOverlappedCase.ParallelOverlappedDistance | main.cpp:150-157 | parallel overlapping segments: squared distance 25 |
| ParallelNotOverlappedCase.ParallelNotOverlappedDistance | main.cpp:159-166 | parallel disjoint segments: squared distance 26, through the end-point fallback |
| ComplanarOverlappedCase.ComplanarOverlappedDistance | main.cpp:168-175 | coplanar segments: squared distance 5, through the end-point fallback |
| ComplanarNotOverlappedCase.ComplanarNotOverlappedDistance | main.cpp:177-184 | coplanar segments: squared distance 5, through the end-point fallback |
| SkewOverlappedCase.SkewOverlappedDistance | main.cpp:186-193 | skew segments: squared distance 100/27, between interior points |
| SkewNotOverlappedCase.SkewNotOverlappedDistance | main.cpp:195-202 | skew segments: squared distance 3/2 through the reprojection of line 95, on which the intended solver agrees |
| CollinearOverlappedCase.CollinearOverlappedDistance | main.cpp:204-211 | overlapping collinear segments: distance 0 |
| CollinearNotOverlappedCase.CollinearNotOverlappedDistance | main.cpp:213-220 | collinear segments with a gap: squared distance 1 |
| OutOfRangeCase.StrayPointOutOfRange | main.cpp:104-108 | the unguarded block runs with `(vv - vw) / uv = -1/2`, outside [0, 1]; the guarded solver returns 1 |
| ZeroDivisorCase.StrayZeroDivisor | main.cpp:104-108 | the unguarded block runs with `uv == 0`; the guarded solver returns 13 |
| StartFootCase.StartOfFirstMissesFoot | main.cpp:69-71 | the written solver returns 2.25 through `tc = uw / uv = 0.5`; the foot lies at `tc = 0.2`, and the intended solver returns 1.8 |
| EndFootCase.EndOfFirstMissesFoot | main.cpp:80-82 | the written solver returns 3.25 through `tc = (uu + uw) / uv = 0.5`; the foot lies at `tc = 0.8`, and the intended solver returns 2.8 |
| ZeroDivisorCase.EndOfSecondMissesFoot | main.cpp:104-106 | the guarded solver returns 13; the foot from the end of `s2` lies at `sc = 0.6`, and the intended solver returns 9 |
| SegmentMinimum.ConnectingSqrLen | main.cpp:14-18 | the squared length of the connecting vector `w0 + u sc - v tc` is `|w0|^2` plus `Quad`, the quadratic whose coefficients are the five cached products |
| SegmentMinimum.SqrDistAtQuad | main.cpp:56 | for parameters in [0, 1], the squared distance between `s1.point(sc)` and `s2.point(tc)` is `|w0|^2 + Quad(sc, tc)` |
| SegmentMinimum.NotParallelDefinite | main.cpp:20-50 | for segments that are not `parallel`, both directions are non-zero, the determinant `-denominator` is positive, and the parameters of lines 48-49 are a stationary point of `Quad` |
| SegmentMinimum.QuadAroundStationary | main.cpp:48-49 | around the stationary point, `Quad` is its value there plus `|u a - v b|^2` of the offset (a, b) |
| SegmentMinimum.ShapeNonNegative | main.cpp:20 | with a positive determinant, `|u a - v b|^2` written with the cached products is never negative |
| SegmentMinimum.ShrinkToward | main.cpp:48-49 | moving a point of the parameter plane towards the stationary point never increases `Quad` |
| SegmentMinimum.FootCurveSecond | main.cpp:69-82 | at the foot on the line of `s2` from the point of the line of `s1` at `s`, `vv` times the excess of `Quad` over its minimum is `Det (s - sc*)^2` |
| SegmentMinimum.FootCurveFirst | main.cpp:93-106 | at the foot on the line of `s1` from the point of the line of `s2` at `t`, `uu` times the excess of `Quad` over its minimum is `Det (t - tc*)^2` |
| SegmentMinimum.FootBelowSecond | main.cpp:69-71 | along a line of constant `sc`, `Quad` is least at the foot on `s2` |
| SegmentMinimum.FootBelowFirst | main.cpp:93-95 | along a line of constant `tc`, `Quad` is least at the foot on `s1` |
| SegmentMinimum.OntoSecondMinimal | main.cpp:63-85 | when `sc*` lies outside [0, 1], the clamped end of `s1` and its foot on the line of `s2` give a `Quad` no larger than at any (s, t) with s in [0, 1] |
| SegmentMinimum.OntoFirstMinimal | main.cpp:87-109 | when `tc*` lies outside [0, 1], the clamped end of `s2` and its foot on the line of `s1` give a `Quad` no larger than at any (s, t) with t in [0, 1] |
| SegmentMinimum.EdgeMinSecond | main.cpp:69-71 | on an edge of constant `sc`, when the foot does not lie strictly inside (0, 1), the clamped foot, an end of `s2`, is least |
| SegmentMinimum.EdgeMinFirst | main.cpp:93-95 | on an edge of constant `tc`, when the foot does not lie strictly inside (0, 1), the clamped foot, an end of `s1`, is least |
| SegmentMinimum.ExitPoint | main.cpp:63-109 | when the stationary point lies outside the unit square, every point of the square is matched by a point no worse on an edge facing it: `sc` clamped, or `tc` clamped |
| SegmentMinimum.CornerMinimal | main.cpp:111-118 | when no perpendicular from a clamped end lands strictly inside the other segment, some pair of end points is no worse than any pair of points of the segments |
| SegmentMinimum.EndpointAtMost | main.cpp:115-118 | the end-point fallback is at most the distance between any two end points |
| SegmentMinimum.IntendedMinimal | main.cpp:10-126 | for segments that are not `parallel`, the corrected solver succeeds and returns a squared distance no larger than that of any point of `s1` and any point of `s2` |

## Left out

- Square roots. `norm`, `Vector::norm` and `Vector::unit` are not modelled, and all distances are squared. `unit` would divide by a square root.
- IEEE doubles. Arithmetic is over the reals: nothing is rounded and there are no infinities or NaNs. A division by zero is reported as a `Fault` instead of producing an infinity or a NaN. At `main.cpp:42` this changes the outcome:
  - with `uw == 0 && uv == 0`, `0/0` gives `tc` a NaN. Every comparison with it is false, so the program falls through to the end-point minimum of lines 115-118. The model returns `ZeroDivisor(42)` instead.
  - with `uw > 0` and `uv` a positive zero, `tc` is `+inf`. The branch at line 99 clamps it and runs the unguarded block, whose `sc` is an infinity or a NaN, so the `assert(t >= 0)` or `assert(t <= 1)` of `point` fails.
  - with `uw > 0` and `uv` a negative zero (after an underflow, say), `tc` is `-inf`. The branch at line 88 clamps it to 0, the guard of line 93 fails for `uw > 0`, and the program returns the end-point minimum.
  - in all three cases the model returns `ZeroDivisor(42)`.
- The parallelism test is stated on squares: `sqrlen < epsilon^2` instead of `norm < epsilon`. The two are equivalent over the reals.
- `Segment::point` is modelled as in a debug build, where a failed assert is reported as the `PointOutOfRange` fault. In a release build the assert is compiled away and a point off the segment is used; that is not modelled.
- The copy constructors (`src/geom.h:34-39`, `81-86`, `173-178`) and the accessors `vector`, `begPoint` and `endPoint` are not separate members. Values are immutable datatypes and the accessors are their fields.
- The template parameter `T` is fixed to the reals.
- `main`, the `#define` selection of a configuration and the printing through `print.h` are not modelled. Each configuration is a lemma about any pair of segments with those end points. `print.h` is not part of this model.
- SegmentDistance.Distance: keeps the reprojection formulas of `main.cpp:71`, `82` and `106` as written; only the `;` of line 104 is corrected. The formulas of lines 71, 82 and 106 are corrected in `IntendedSquaredDistance` and not substituted into the imperative solver.
- SegmentDistance.SquaredDistance: this solver, with the reprojection formulas of lines 71, 82 and 106 as written, is not the minimum; the Findings below give pairs on which it is larger. What is proved about it: each result is attained by a pair of points of the segments.
- SegmentDistance.IntendedSquaredDistance: minimality over all pairs of points (`SegmentMinimum.IntendedMinimal`) is proved only for segments that are not `parallel`. In the parallel branch one parameter is anchored at 0 and the other comes from line 37 or 42. There the quadratic is degenerate or close to it, and the argument through its strictly convex minimum does not apply.

## Findings

| source | as written | input that shows it | evidently intended | confidence | as-written member | corrected member |
|---|---|---|---|---|---|---|
| main.cpp:104 | `if (...);` with a stray `;`, so the block of lines 105-108 runs whenever `tc > 1` | `s1` (0,0,0)-(5,0,0), `s2` (3,8,0)-(3,3,0): `sc = 0.6` and `tc = 1.6`, `uv = 0`, so line 106 divides by zero | the block runs only under the guard of line 104 | high, by proof; not executed | ZeroDivisorCase.StrayZeroDivisor | SegmentDistance.Distance |
| main.cpp:104 | the same stray `;` | `s1` (0,0,0)-(2,0,0), `s2` (-1,2,0)-(0,1,0): `tc = 2`, and line 106 sets `sc = -1/2`, so the assert of `point` fails | the guard rejects an `sc` outside (0, 1) | high, by proof; not executed | OutOfRangeCase.StrayPointOutOfRange | SegmentDistance.SquaredDistanceAttained |
| main.cpp:71 | `tc = uw / uv` after `sc` is clamped to 0 | `s1` (0,0,0)-(1,0,0), `s2` (-1,1,0)-(1,2,0): returns squared distance 2.25, but the foot at `tc = 0.2` gives 1.8 | the foot `tc = vw / vv` of the perpendicular from the start of `s1` | medium, by proof; not executed | StartFootCase.StartOfFirstMissesFoot | SegmentDistance.IntendedNearest |
| main.cpp:82 | `tc = (uu + uw) / uv` after `sc` is clamped to 1 | `s1` (0,0,0)-(1,0,0), `s2` (0,2,1)-(2,1,1): returns 3.25, but the foot at `tc = 0.8` gives 2.8 | the foot `tc = (uv + vw) / vv` from the end of `s1` | medium, by proof; not executed | EndFootCase.EndOfFirstMissesFoot | SegmentDistance.IntendedNearest |
| main.cpp:106 | `sc = (vv - vw) / uv` after `tc` is clamped to 1 | `s1` (0,0,0)-(5,0,0), `s2` (3,8,0)-(3,3,0): the guard cannot hold with `uv = 0`, so the solver returns 13, but the foot at `sc = 0.6` gives 9 | the foot `sc = (uv - uw) / uu` from the end of `s2` | medium, by proof; not executed | ZeroDivisorCase.EndOfSecondMissesFoot | SegmentDistance.IntendedNearest |

On the configurations of `main.cpp`, the reprojections of lines 71, 82 and 106 do
not change the printed result. The pairs above lie outside those
configurations.
