/** The minimum distance between two segments of space (the template
    function `distance` of main.cpp).

    The solver computes the five inner products of the two directions and of
    the offset between the start points, solves for the parameters `sc`, `tc`
    of the closest points of the two infinite lines, and, when either
    parameter falls outside [0, 1], clamps and reprojects them one after the
    other; when no reprojection applies it falls back to the smallest of the
    four endpoint-to-endpoint distances.

    Distances are squared throughout (see module Geom).  A division by zero
    and a failed assertion in `Segment::point` are reported as faults instead
    of producing infinities, NaNs or an abort.

    `Distance` is the solver with the `if` of main.cpp:104 in force;
    `DistanceAsWritten` is the solver with the stray `;` that ends that `if`,
    so that its block runs whenever `tc > 1`.
 */
module SegmentDistance {
  import opened Geom

  /** Where the solver cannot produce a number. */
  datatype Fault =
    | ZeroDivisor(line: nat)  // a division by zero at that line of main.cpp
    | PointOutOfRange         // `Segment::point` called with t outside [0, 1]

  datatype Result<T> = Ok(value: T) | Err(fault: Fault)

  /** The cached inner products uu = u.u, uv = u.v, vv = v.v, uw = u.w0 and
      vw = v.w0, for the directions u, v and the offset w0 between the two
      start points. */
  datatype Gram = Gram(uu: real, uv: real, vv: real, uw: real, vw: real)

  /** Parameters of the points `s1.point(sc)` and `s2.point(tc)`. */
  datatype Params = Params(sc: real, tc: real)

  predicate InUnit(t: real) {
    0.0 <= t <= 1.0
  }

  /** w0, the vector from the start of `s2` to the start of `s1`. */
  function Offset(s1: Segment, s2: Segment): Vector {
    s1.begPoint.Sub(s2.begPoint)
  }

  /** The five products the solver caches (main.cpp:14-18).  A first segment
      of length zero has uu == 0 and then uw == 0 as well. */
  function GramOf(s1: Segment, s2: Segment): (g: Gram)
    ensures g.uu >= 0.0 && g.vv >= 0.0
    ensures g.uw != 0.0 ==> g.uu > 0.0
  {
    var u, v, w0 := s1.vector, s2.vector, Offset(s1, s2);
    DotProperties(u, u);
    DotProperties(v, v);
    NonZeroDot(u, w0);
    Gram(Dot(u, u), Dot(u, v), Dot(v, v), Dot(u, w0), Dot(v, w0))
  }

  /** The negated denominator uu*vv - uv*uv is the squared length of the cross
      product of the two directions (Lagrange's identity). */
  lemma GramDeterminant(s1: Segment, s2: Segment)
    ensures -Denominator(GramOf(s1, s2)) == s1.vector.Cross(s2.vector).SqrLen()
  {
    LagrangeIdentity(s1.vector, s2.vector);
  }

  function Denominator(g: Gram): real {
    g.uv * g.uv - g.uu * g.vv
  }

  /** Segments that are not parallel have a denominator bounded away from
      zero, by Lagrange's identity. */
  lemma NonParallelDenominator(s1: Segment, s2: Segment)
    requires !s1.Parallel(s2)
    ensures Denominator(GramOf(s1, s2)) <= -(Epsilon * Epsilon) < 0.0
  {
    GramDeterminant(s1, s2);
  }

  /** The parallelism test of `Segment::parallel` read off the cached
      products: the segments are parallel exactly when the denominator lies
      within Epsilon squared of zero. */
  lemma ParallelByDenominator(s1: Segment, s2: Segment)
    ensures s1.Parallel(s2) <==> -(Epsilon * Epsilon) < Denominator(GramOf(s1, s2))
    ensures Denominator(GramOf(s1, s2)) <= 0.0
  {
    GramDeterminant(s1, s2);
  }

  /** The vector w0 + u*sc - v*tc from the point of the line of `s2` at `tc`
      to the point of the line of `s1` at `sc`. */
  function Connecting(s1: Segment, s2: Segment, p: Params): Vector {
    Offset(s1, s2).Add(s1.vector.Scale(p.sc)).Sub(s2.vector.Scale(p.tc))
  }

  /** The parallel branch divides by uv when uw >= 0 (main.cpp:42); uv is zero
      there for short enough perpendicular directions and for a zero-length
      first segment. */
  predicate ParallelZeroDivisor(s1: Segment, s2: Segment) {
    var g := GramOf(s1, s2);
    s1.Parallel(s2) && g.uw >= 0.0 && g.uv == 0.0
  }

  /** The parameters chosen before any clamping.  For parallel segments one
      parameter is anchored at 0 and the other makes the connecting vector
      orthogonal to u; otherwise they solve the normal equations, so that the
      connecting vector is orthogonal to both directions. */
  function InitialParams(s1: Segment, s2: Segment): (r: Result<Params>)
    ensures r.Err? <==> ParallelZeroDivisor(s1, s2)
    ensures r.Err? ==> r.fault == ZeroDivisor(42)
    ensures r.Ok? ==> OrthogonalToFirst(GramOf(s1, s2), r.value)
    ensures r.Ok? && !s1.Parallel(s2) ==> OrthogonalToSecond(GramOf(s1, s2), r.value)
    ensures r.Ok? && s1.Parallel(s2) && GramOf(s1, s2).uw < 0.0 ==> r.value.tc == 0.0
    ensures r.Ok? && s1.Parallel(s2) && GramOf(s1, s2).uw >= 0.0 ==> r.value.sc == 0.0
  {
    var g := GramOf(s1, s2);
    if s1.Parallel(s2) then
      ParallelParams(g)
    else
      NonParallelDenominator(s1, s2);
      Ok(NormalParams(g))
  }

  /** The parallel branch (main.cpp:34-43): anchor tc at 0 and project onto
      the first line when uw < 0, else anchor sc at 0. */
  function ParallelParams(g: Gram): (r: Result<Params>)
    requires g.uw != 0.0 ==> g.uu > 0.0
    ensures r.Err? <==> g.uw >= 0.0 && g.uv == 0.0
    ensures r.Err? ==> r.fault == ZeroDivisor(42)
    ensures r.Ok? ==> OrthogonalToFirst(g, r.value)
    ensures r.Ok? && g.uw < 0.0 ==> r.value.tc == 0.0
    ensures r.Ok? && g.uw >= 0.0 ==> r.value.sc == 0.0
  {
    if g.uw < 0.0 then
      DivMul(-g.uw, g.uu);
      Ok(Params(-g.uw / g.uu, 0.0))
    else if g.uv == 0.0 then
      Err(ZeroDivisor(42))
    else
      DivMul(g.uw, g.uv);
      Ok(Params(0.0, g.uw / g.uv))
  }

  /** The solution of the normal equations of the two lines (main.cpp:48-49). */
  function NormalParams(g: Gram): (p: Params)
    requires Denominator(g) != 0.0
    ensures OrthogonalToFirst(g, p) && OrthogonalToSecond(g, p)
  {
    var p := Params((g.vv * g.uw - g.uv * g.vw) / Denominator(g),
                    (g.uv * g.uw - g.uu * g.vw) / Denominator(g));
    NormalEquations(g, p);
    p
  }

  /** u . (w0 + u*sc - v*tc) == 0, written with the cached products. */
  predicate OrthogonalToFirst(g: Gram, p: Params) {
    g.uw + p.sc * g.uu - p.tc * g.uv == 0.0
  }

  /** v . (w0 + u*sc - v*tc) == 0, written with the cached products. */
  predicate OrthogonalToSecond(g: Gram, p: Params) {
    g.vw + p.sc * g.uv - p.tc * g.vv == 0.0
  }

  lemma NormalEquations(g: Gram, p: Params)
    requires Denominator(g) != 0.0
    requires p.sc == (g.vv * g.uw - g.uv * g.vw) / Denominator(g)
    requires p.tc == (g.uv * g.uw - g.uu * g.vw) / Denominator(g)
    ensures OrthogonalToFirst(g, p) && OrthogonalToSecond(g, p)
  {
    var d := Denominator(g);
    DivMul(g.vv * g.uw - g.uv * g.vw, d);
    DivMul(g.uv * g.uw - g.uu * g.vw, d);
    var e1 := g.uw + p.sc * g.uu - p.tc * g.uv;
    var e2 := g.vw + p.sc * g.uv - p.tc * g.vv;
    assert e1 * d == g.uw * d + (p.sc * d) * g.uu - (p.tc * d) * g.uv;
    assert e2 * d == g.vw * d + (p.sc * d) * g.uv - (p.tc * d) * g.vv;
    ProductZero(e1, d);
    ProductZero(e2, d);
  }

  /** The inner products of the connecting vector with the two directions. */
  lemma ConnectingDots(s1: Segment, s2: Segment, p: Params)
    ensures Dot(s1.vector, Connecting(s1, s2, p))
         == GramOf(s1, s2).uw + p.sc * GramOf(s1, s2).uu - p.tc * GramOf(s1, s2).uv
    ensures Dot(s2.vector, Connecting(s1, s2, p))
         == GramOf(s1, s2).vw + p.sc * GramOf(s1, s2).uv - p.tc * GramOf(s1, s2).vv
  {
    var u, v, w0 := s1.vector, s2.vector, Offset(s1, s2);
    DotLinear(u, w0, u, v, p.sc, p.tc);
    DotLinear(v, w0, u, v, p.sc, p.tc);
    DotProperties(u, v);
  }

  /** The initial parameters make the connecting vector orthogonal to the
      first direction, and, for segments that are not parallel, to the second
      one as well. */
  lemma InitialParamsOrthogonal(s1: Segment, s2: Segment)
    requires InitialParams(s1, s2).Ok?
    ensures Dot(s1.vector, Connecting(s1, s2, InitialParams(s1, s2).value)) == 0.0
    ensures !s1.Parallel(s2) ==> Dot(s2.vector, Connecting(s1, s2, InitialParams(s1, s2).value)) == 0.0
  {
    ConnectingDots(s1, s2, InitialParams(s1, s2).value);
  }

  /** Between line points within both segments, the connecting vector is the
      difference of the two points. */
  lemma ConnectingIsPointDifference(s1: Segment, s2: Segment, p: Params)
    requires InUnit(p.sc) && InUnit(p.tc)
    ensures Connecting(s1, s2, p) == s1.PointAt(p.sc).Sub(s2.PointAt(p.tc))
  {
  }

  /** The four guarded reprojections; each lands strictly inside (0, 1). */

  /** tc = uw / uv after clamping sc to 0 (main.cpp:69-71). */
  function TAtStart(g: Gram): (t: real)
    requires 0.0 < g.uw < g.uv
    ensures 0.0 < t < 1.0
  {
    DivBounds(g.uw, g.uv);
    g.uw / g.uv
  }

  /** tc = (uu + uw) / uv after clamping sc to 1 (main.cpp:80-82). */
  function TAtEnd(g: Gram): (t: real)
    requires g.uu > -g.uw && g.uu + g.uw < g.uv
    ensures 0.0 < t < 1.0
  {
    DivBounds(g.uu + g.uw, g.uv);
    (g.uu + g.uw) / g.uv
  }

  /** sc = -uw / uu after clamping tc to 0 (main.cpp:93-95). */
  function SAtStart(g: Gram): (s: real)
    requires 0.0 < -g.uw < g.uu
    ensures 0.0 < s < 1.0
  {
    DivBounds(-g.uw, g.uu);
    -g.uw / g.uu
  }

  /** sc = (vv - vw) / uv after clamping tc to 1 (main.cpp:104-106).  It lies
      in (0, 1) when the guard of line 104 holds, and for uv > 0 only then. */
  function SAtEnd(g: Gram): (s: real)
    requires g.uv != 0.0
    ensures g.vv > g.vw && g.vv - g.vw < g.uv ==> 0.0 < s < 1.0
    ensures g.uv > 0.0 && 0.0 < s < 1.0 ==> g.vv > g.vw && g.vv - g.vw < g.uv
  {
    if g.uv > 0.0 then
      DivInsideIff(g.vv - g.vw, g.uv);
      (g.vv - g.vw) / g.uv
    else
      (g.vv - g.vw) / g.uv
  }

  /** The first clamp block (main.cpp:64-85) recomputes tc. */
  predicate FirstReprojects(g: Gram, sc: real) {
    || (sc < 0.0 && 0.0 < g.uw < g.uv)
    || (sc > 1.0 && g.uu > -g.uw && g.uu + g.uw < g.uv)
  }

  /** The second clamp block (main.cpp:88-109, guard of line 104 in force)
      recomputes sc. */
  predicate SecondReprojects(g: Gram, tc: real) {
    || (tc < 0.0 && 0.0 < -g.uw < g.uu)
    || (tc > 1.0 && g.vv > g.vw && g.vv - g.vw < g.uv)
  }

  /** The feet of the perpendiculars, which the reprojections of main.cpp
      mean to compute: the line-95 formula is one of them, those of lines
      71, 82 and 106 are not. */

  /** The foot of the perpendicular from the point of the line of `s2` at
      `tc` onto the line of `s1`: the sc at which the connecting vector is
      orthogonal to u. */
  function FootOnFirst(g: Gram, tc: real): (sc: real)
    requires g.uu > 0.0
    ensures OrthogonalToFirst(g, Params(sc, tc))
  {
    DivMul(tc * g.uv - g.uw, g.uu);
    (tc * g.uv - g.uw) / g.uu
  }

  /** The foot of the perpendicular from the point of the line of `s1` at
      `sc` onto the line of `s2`: the tc at which the connecting vector is
      orthogonal to v. */
  function FootOnSecond(g: Gram, sc: real): (tc: real)
    requires g.vv > 0.0
    ensures OrthogonalToSecond(g, Params(sc, tc))
  {
    DivMul(g.vw + sc * g.uv, g.vv);
    (g.vw + sc * g.uv) / g.vv
  }

  /** Moving sc by `d` moves the connecting vector by `d` times u. */
  lemma ShiftAlongFirst(s1: Segment, s2: Segment, p: Params, d: real)
    ensures Connecting(s1, s2, Params(p.sc + d, p.tc)) == Connecting(s1, s2, p).Add(s1.vector.Scale(d))
  {
    var u := s1.vector;
    assert u.l * (p.sc + d) == u.l * p.sc + u.l * d;
    assert u.m * (p.sc + d) == u.m * p.sc + u.m * d;
    assert u.n * (p.sc + d) == u.n * p.sc + u.n * d;
  }

  /** Moving tc by `-d` moves the connecting vector by `d` times v. */
  lemma ShiftAlongSecond(s1: Segment, s2: Segment, p: Params, d: real)
    ensures Connecting(s1, s2, Params(p.sc, p.tc - d)) == Connecting(s1, s2, p).Add(s2.vector.Scale(d))
  {
    var v := s2.vector;
    assert v.l * (p.tc - d) == v.l * p.tc - v.l * d;
    assert v.m * (p.tc - d) == v.m * p.tc - v.m * d;
    assert v.n * (p.tc - d) == v.n * p.tc - v.n * d;
  }

  /** Of the points of the line of `s1`, the foot is the nearest to the
      point of the line of `s2` at `tc`. */
  lemma FootOnFirstClosest(s1: Segment, s2: Segment, tc: real, sc: real)
    requires GramOf(s1, s2).uu > 0.0
    ensures Connecting(s1, s2, Params(FootOnFirst(GramOf(s1, s2), tc), tc)).SqrLen()
         <= Connecting(s1, s2, Params(sc, tc)).SqrLen()
  {
    var g := GramOf(s1, s2);
    var f := FootOnFirst(g, tc);
    var c := Connecting(s1, s2, Params(f, tc));
    var d := sc - f;
    var u := s1.vector;
    ShiftAlongFirst(s1, s2, Params(f, tc), d);
    assert Params(f + d, tc) == Params(sc, tc);
    ConnectingDots(s1, s2, Params(f, tc));
    assert Dot(u, c) == 0.0;
    SqrLenShift(c, u, d);
    SqrLenProperties(u);
    NonNegativeScale(d, u.SqrLen());
    assert Connecting(s1, s2, Params(sc, tc)).SqrLen() == c.SqrLen() + d * d * u.SqrLen();
  }

  /** Of the points of the line of `s2`, the foot is the nearest to the
      point of the line of `s1` at `sc`. */
  lemma FootOnSecondClosest(s1: Segment, s2: Segment, sc: real, tc: real)
    requires GramOf(s1, s2).vv > 0.0
    ensures Connecting(s1, s2, Params(sc, FootOnSecond(GramOf(s1, s2), sc))).SqrLen()
         <= Connecting(s1, s2, Params(sc, tc)).SqrLen()
  {
    var g := GramOf(s1, s2);
    var f := FootOnSecond(g, sc);
    var c := Connecting(s1, s2, Params(sc, f));
    var d := f - tc;
    var v := s2.vector;
    ShiftAlongSecond(s1, s2, Params(sc, f), d);
    assert Params(sc, f - d) == Params(sc, tc);
    ConnectingDots(s1, s2, Params(sc, f));
    assert Dot(v, c) == 0.0;
    SqrLenShift(c, v, d);
    SqrLenProperties(v);
    NonNegativeScale(d, v.SqrLen());
    assert Connecting(s1, s2, Params(sc, tc)).SqrLen() == c.SqrLen() + d * d * v.SqrLen();
  }

  /** The reprojection of main.cpp:93-95 is the foot of the perpendicular
      from the start of `s2`. */
  lemma SAtStartIsFoot(g: Gram)
    requires 0.0 < -g.uw < g.uu
    ensures SAtStart(g) == FootOnFirst(g, 0.0)
  {
  }

  /** A foot that lies within `s1` is its point nearest to `s2.point(tc)`. */
  lemma FootOnFirstNearest(s1: Segment, s2: Segment, tc: real, sc: real)
    requires GramOf(s1, s2).uu > 0.0 && InUnit(FootOnFirst(GramOf(s1, s2), tc))
    requires InUnit(sc) && InUnit(tc)
    ensures SqrDistAt(s1, s2, FootOnFirst(GramOf(s1, s2), tc), tc) <= SqrDistAt(s1, s2, sc, tc)
  {
    var f := FootOnFirst(GramOf(s1, s2), tc);
    FootOnFirstClosest(s1, s2, tc, sc);
    ConnectingIsPointDifference(s1, s2, Params(f, tc));
    ConnectingIsPointDifference(s1, s2, Params(sc, tc));
    SqrDistIsSqrLen(s1.PointAt(f), s2.PointAt(tc));
    SqrDistIsSqrLen(s1.PointAt(sc), s2.PointAt(tc));
  }

  /** A foot that lies within `s2` is its point nearest to `s1.point(sc)`. */
  lemma FootOnSecondNearest(s1: Segment, s2: Segment, sc: real, tc: real)
    requires GramOf(s1, s2).vv > 0.0 && InUnit(FootOnSecond(GramOf(s1, s2), sc))
    requires InUnit(sc) && InUnit(tc)
    ensures SqrDistAt(s1, s2, sc, FootOnSecond(GramOf(s1, s2), sc)) <= SqrDistAt(s1, s2, sc, tc)
  {
    var f := FootOnSecond(GramOf(s1, s2), sc);
    FootOnSecondClosest(s1, s2, sc, tc);
    ConnectingIsPointDifference(s1, s2, Params(sc, f));
    ConnectingIsPointDifference(s1, s2, Params(sc, tc));
    SqrDistIsSqrLen(s1.PointAt(sc), s2.PointAt(f));
    SqrDistIsSqrLen(s1.PointAt(sc), s2.PointAt(tc));
  }

  /** The foot on the line of `s2` from `s1.point(sc)` lies strictly inside
      `s2`. */
  predicate SecondFootInside(g: Gram, sc: real) {
    g.vv > 0.0 && 0.0 < FootOnSecond(g, sc) < 1.0
  }

  /** The foot on the line of `s1` from `s2.point(tc)` lies strictly inside
      `s1`. */
  predicate FirstFootInside(g: Gram, tc: real) {
    g.uu > 0.0 && 0.0 < FootOnFirst(g, tc) < 1.0
  }

  /** The first clamp block, as meant: sc is out of range, and the foot from
      the clamped end of `s1` lands inside `s2`. */
  predicate DropsOntoSecond(g: Gram, p: Params) {
    !InUnit(p.sc) && SecondFootInside(g, Clamp(p.sc))
  }

  /** The second clamp block, as meant: the first did not reproject, tc is
      out of range, and the foot from the clamped end of `s2` lands inside
      `s1`. */
  predicate DropsOntoFirst(g: Gram, p: Params) {
    !DropsOntoSecond(g, p) && !InUnit(p.tc) && FirstFootInside(g, Clamp(p.tc))
  }

  /** The solver as its clamping step is meant to work, and as main.cpp:93-95
      already does: an out-of-range parameter is clamped, and the other one is
      replaced by the foot of the perpendicular from the clamped end point
      when that foot lies strictly inside the other segment; the guard of
      line 104 is in force. */
  function IntendedSquaredDistance(s1: Segment, s2: Segment): (r: Result<real>)
    requires s1.Valid() && s2.Valid()
    ensures r.Err? <==> ParallelZeroDivisor(s1, s2)
    ensures r.Err? ==> r.fault == ZeroDivisor(42)
  {
    var g := GramOf(s1, s2);
    match InitialParams(s1, s2)
    case Err(f) => Err(f)
    case Ok(p) =>
      if InUnit(p.sc) && InUnit(p.tc) then
        Ok(SqrDistAt(s1, s2, p.sc, p.tc))
      else if DropsOntoSecond(g, p) then
        Ok(SqrDistAt(s1, s2, Clamp(p.sc), FootOnSecond(g, Clamp(p.sc))))
      else if DropsOntoFirst(g, p) then
        Ok(SqrDistAt(s1, s2, FootOnFirst(g, Clamp(p.tc)), Clamp(p.tc)))
      else
        Ok(EndpointMin(s1, s2))
  }

  /** Where the intended solver drops a perpendicular from a clamped end
      point, its result is the squared distance from that end point to the
      nearest point of the other segment. */
  lemma IntendedNearest(s1: Segment, s2: Segment, t: real)
    requires s1.Valid() && s2.Valid() && InitialParams(s1, s2).Ok? && InUnit(t)
    ensures DropsOntoSecond(GramOf(s1, s2), InitialParams(s1, s2).value)
        ==> IntendedSquaredDistance(s1, s2).value
            <= SqrDistAt(s1, s2, Clamp(InitialParams(s1, s2).value.sc), t)
    ensures DropsOntoFirst(GramOf(s1, s2), InitialParams(s1, s2).value)
        ==> IntendedSquaredDistance(s1, s2).value
            <= SqrDistAt(s1, s2, t, Clamp(InitialParams(s1, s2).value.tc))
  {
    var g, p := GramOf(s1, s2), InitialParams(s1, s2).value;
    if DropsOntoSecond(g, p) {
      FootOnSecondNearest(s1, s2, Clamp(p.sc), t);
    } else if DropsOntoFirst(g, p) {
      FootOnFirstNearest(s1, s2, Clamp(p.tc), t);
    }
  }

  /** The intended result is, like the solver's, the squared distance
      between a point of `s1` and a point of `s2`. */
  lemma IntendedAttained(s1: Segment, s2: Segment)
    requires s1.Valid() && s2.Valid() && IntendedSquaredDistance(s1, s2).Ok?
    ensures IntendedSquaredDistance(s1, s2).value >= 0.0
    ensures Attained(s1, s2, IntendedSquaredDistance(s1, s2).value)
  {
    var g, p := GramOf(s1, s2), InitialParams(s1, s2).value;
    if InUnit(p.sc) && InUnit(p.tc) {
      AttainedAt(s1, s2, p.sc, p.tc);
    } else if DropsOntoSecond(g, p) {
      AttainedAt(s1, s2, Clamp(p.sc), FootOnSecond(g, Clamp(p.sc)));
    } else if DropsOntoFirst(g, p) {
      AttainedAt(s1, s2, FootOnFirst(g, Clamp(p.tc)), Clamp(p.tc));
    } else {
      AttainedAt(s1, s2, 0.0, 0.0);
      AttainedAt(s1, s2, 0.0, 1.0);
      AttainedAt(s1, s2, 1.0, 0.0);
      AttainedAt(s1, s2, 1.0, 1.0);
    }
  }

  /** The one reprojection of main.cpp that is a foot: when only the second
      block fires, with tc below 0, the two solvers agree. */
  lemma IntendedAgreesAtStartOfSecond(s1: Segment, s2: Segment)
    requires s1.Valid() && s2.Valid() && InitialParams(s1, s2).Ok?
    requires InUnit(InitialParams(s1, s2).value.sc) && InitialParams(s1, s2).value.tc < 0.0
    requires SecondReprojects(GramOf(s1, s2), InitialParams(s1, s2).value.tc)
    ensures IntendedSquaredDistance(s1, s2) == SquaredDistance(s1, s2)
  {
    var g := GramOf(s1, s2);
    SAtStartIsFoot(g);
  }


  /** `d` is the squared distance between some point of `s1` and some point
      of `s2`. */
  ghost predicate Attained(s1: Segment, s2: Segment, d: real) {
    exists sc: real, tc: real :: InUnit(sc) && InUnit(tc) && d == SqrDist(s1.PointAt(sc), s2.PointAt(tc))
  }

  /** The squared distance between `s1.point(sc)` and `s2.point(tc)`. */
  function SqrDistAt(s1: Segment, s2: Segment, sc: real, tc: real): real
    requires InUnit(sc) && InUnit(tc)
  {
    SqrDist(s1.PointAt(sc), s2.PointAt(tc))
  }

  /** `std::min` of the four endpoint distances: the first smallest. */
  function Min4(a: real, b: real, c: real, d: real): real {
    var ab := if b < a then b else a;
    var abc := if c < ab then c else ab;
    if d < abc then d else abc
  }

  /** The fallback of main.cpp:115-118: the smallest of the four squared
      endpoint-to-endpoint distances, which is one of them. */
  function EndpointMin(s1: Segment, s2: Segment): (d: real)
    requires s1.Valid() && s2.Valid()
    ensures d <= SqrDist(s1.begPoint, s2.begPoint) && d <= SqrDist(s1.begPoint, s2.endPoint)
    ensures d <= SqrDist(s1.endPoint, s2.begPoint) && d <= SqrDist(s1.endPoint, s2.endPoint)
    ensures || d == SqrDist(s1.begPoint, s2.begPoint) || d == SqrDist(s1.begPoint, s2.endPoint)
            || d == SqrDist(s1.endPoint, s2.begPoint) || d == SqrDist(s1.endPoint, s2.endPoint)
  {
    Min4(SqrDistAt(s1, s2, 0.0, 0.0), SqrDistAt(s1, s2, 0.0, 1.0),
         SqrDistAt(s1, s2, 1.0, 0.0), SqrDistAt(s1, s2, 1.0, 1.0))
  }

  /** What the solver returns, case by case: the interior solution when both
      initial parameters lie in [0, 1]; the clamped sc with the recomputed tc
      when the first block reprojects; the recomputed sc with the clamped tc
      when only the second block does; the endpoint minimum otherwise.  The
      only fault is the division at main.cpp:42. */
  function SquaredDistance(s1: Segment, s2: Segment): (r: Result<real>)
    requires s1.Valid() && s2.Valid()
    ensures r.Err? <==> ParallelZeroDivisor(s1, s2)
    ensures r.Err? ==> r.fault == ZeroDivisor(42)
  {
    var g := GramOf(s1, s2);
    match InitialParams(s1, s2)
    case Err(f) => Err(f)
    case Ok(p) =>
      if InUnit(p.sc) && InUnit(p.tc) then
        Ok(SqrDistAt(s1, s2, p.sc, p.tc))
      else if FirstReprojects(g, p.sc) then
        if p.sc < 0.0 then Ok(SqrDistAt(s1, s2, 0.0, TAtStart(g)))
        else Ok(SqrDistAt(s1, s2, 1.0, TAtEnd(g)))
      else if SecondReprojects(g, p.tc) then
        if p.tc < 0.0 then Ok(SqrDistAt(s1, s2, SAtStart(g), 0.0))
        else Ok(SqrDistAt(s1, s2, SAtEnd(g), 1.0))
      else
        Ok(EndpointMin(s1, s2))
  }

  lemma AttainedAt(s1: Segment, s2: Segment, sc: real, tc: real)
    requires InUnit(sc) && InUnit(tc)
    ensures SqrDistAt(s1, s2, sc, tc) >= 0.0
    ensures Attained(s1, s2, SqrDistAt(s1, s2, sc, tc))
  {
    SqrDistProperties(s1.PointAt(sc), s2.PointAt(tc));
    assert InUnit(sc) && InUnit(tc) && SqrDistAt(s1, s2, sc, tc) == SqrDist(s1.PointAt(sc), s2.PointAt(tc));
  }

  /** Whatever case applies, the result is the squared distance between a
      point of `s1` and a point of `s2`: every parameter handed to
      `Segment::point` lies in [0, 1]. */
  lemma SquaredDistanceAttained(s1: Segment, s2: Segment)
    requires s1.Valid() && s2.Valid() && SquaredDistance(s1, s2).Ok?
    ensures SquaredDistance(s1, s2).value >= 0.0
    ensures Attained(s1, s2, SquaredDistance(s1, s2).value)
  {
    var g := GramOf(s1, s2);
    var p := InitialParams(s1, s2).value;
    if InUnit(p.sc) && InUnit(p.tc) {
      AttainedAt(s1, s2, p.sc, p.tc);
    } else if FirstReprojects(g, p.sc) {
      if p.sc < 0.0 {
        AttainedAt(s1, s2, 0.0, TAtStart(g));
      } else {
        AttainedAt(s1, s2, 1.0, TAtEnd(g));
      }
    } else if SecondReprojects(g, p.tc) {
      if p.tc < 0.0 {
        AttainedAt(s1, s2, SAtStart(g), 0.0);
      } else {
        AttainedAt(s1, s2, SAtEnd(g), 1.0);
      }
    } else {
      AttainedAt(s1, s2, 0.0, 0.0);
      AttainedAt(s1, s2, 0.0, 1.0);
      AttainedAt(s1, s2, 1.0, 0.0);
      AttainedAt(s1, s2, 1.0, 1.0);
    }
  }

  /** Where a parameter lands when clamped to its nearest bound. */
  function Clamp(t: real): (c: real)
    ensures InUnit(c)
    ensures InUnit(t) ==> c == t
    ensures t < 0.0 ==> c == 0.0
    ensures t > 1.0 ==> c == 1.0
  {
    if t < 0.0 then 0.0 else if t > 1.0 then 1.0 else t
  }

  /** The cached products and the initial parameters (main.cpp:14-50). */
  method SolveLines(s1: Segment, s2: Segment) returns (g: Gram, r: Result<Params>)
    ensures g == GramOf(s1, s2)
    ensures r == InitialParams(s1, s2)
  {
    var u, v := s1.vector, s2.vector;
    var w0 := s1.begPoint.Sub(s2.begPoint);
    var uu, uv, vv := Dot(u, u), Dot(u, v), Dot(v, v);
    var uw, vw := Dot(u, w0), Dot(v, w0);
    var denominator := uv * uv - uu * vv;
    g := Gram(uu, uv, vv, uw, vw);
    assert g == GramOf(s1, s2);

    var sc, tc := 0.0, 0.0;
    if s1.Parallel(s2) {
      assert InitialParams(s1, s2) == ParallelParams(g);
      if uw < 0.0 {
        tc := 0.0;
        sc := -uw / uu;
        assert Ok(Params(sc, tc)) == ParallelParams(g);
      } else {
        if uv == 0.0 {
          return g, Err(ZeroDivisor(42));
        }
        sc := 0.0;
        tc := uw / uv;
        assert Ok(Params(sc, tc)) == ParallelParams(g);
      }
    } else {
      NonParallelDenominator(s1, s2);
      assert InitialParams(s1, s2) == Ok(NormalParams(g));
      assert denominator == Denominator(g);
      sc := (vv * uw - uv * vw) / denominator;
      tc := (uv * uw - uu * vw) / denominator;
      assert sc == NormalParams(g).sc && tc == NormalParams(g).tc;
    }
    r := Ok(Params(sc, tc));
  }

  /** The first clamp block (main.cpp:64-85): sc is clamped, and tc is
      recomputed when the perpendicular from the clamped end of `s1` lands
      inside `s2`.  Afterwards sc lies in [0, 1]. */
  method ClampFirst(g: Gram, sc: real, tc: real) returns (sc': real, tc': real, perpendicular: bool)
    ensures sc' == Clamp(sc)
    ensures perpendicular == FirstReprojects(g, sc)
    ensures perpendicular ==> 0.0 < tc' < 1.0
    ensures perpendicular ==> tc' == if sc < 0.0 then TAtStart(g) else TAtEnd(g)
    ensures !perpendicular ==> tc' == tc
  {
    sc', tc' := sc, tc;
    perpendicular := false;
    if sc' < 0.0 {
      sc' := 0.0;
      if g.uw > 0.0 && g.uw < g.uv {
        tc' := g.uw / g.uv;
        assert tc' == TAtStart(g);
        perpendicular := true;
      }
    } else if sc' > 1.0 {
      sc' := 1.0;
      if g.uu > -g.uw && g.uu + g.uw < g.uv {
        tc' := (g.uu + g.uw) / g.uv;
        assert tc' == TAtEnd(g);
        perpendicular := true;
      }
    }
  }

  /** The second clamp block (main.cpp:88-109) with the guard of line 104 in
      force: tc is clamped, and sc is recomputed when the perpendicular from
      the clamped end of `s2` lands inside `s1`.  Afterwards both parameters
      lie in [0, 1]. */
  method ClampSecond(g: Gram, sc: real, tc: real) returns (sc': real, tc': real, perpendicular: bool)
    requires InUnit(sc)
    ensures InUnit(sc') && tc' == Clamp(tc)
    ensures perpendicular == SecondReprojects(g, tc)
    ensures perpendicular ==> 0.0 < sc' < 1.0
    ensures perpendicular ==> sc' == if tc < 0.0 then SAtStart(g) else SAtEnd(g)
    ensures !perpendicular ==> sc' == sc
  {
    sc', tc' := sc, tc;
    perpendicular := false;
    if tc' < 0.0 {
      tc' := 0.0;
      if -g.uw > 0.0 && -g.uw < g.uu {
        sc' := -g.uw / g.uu;
        assert sc' == SAtStart(g);
        perpendicular := true;
      }
    } else if tc' > 1.0 {
      tc' := 1.0;
      if g.vv > g.vw && g.vv - g.vw < g.uv {
        sc' := (g.vv - g.vw) / g.uv;
        assert sc' == SAtEnd(g);
        perpendicular := true;
      }
    }
  }

  /** The second clamp block as written: the stray `;` after the guard of
      main.cpp:104 ends that `if`, so whenever tc > 1 the block of lines
      105-108 divides by uv and marks a perpendicular, whatever the guard
      says.  Its sc then need not lie in [0, 1]. */
  method ClampSecondAsWritten(g: Gram, sc: real, tc: real) returns (r: Result<Params>, perpendicular: bool)
    requires InUnit(sc)
    ensures r.Err? <==> tc > 1.0 && g.uv == 0.0
    ensures r.Err? ==> r.fault == ZeroDivisor(106)
    ensures r.Ok? ==> r.value.tc == Clamp(tc)
    ensures r.Ok? && tc <= 1.0 ==> perpendicular == SecondReprojects(g, tc)
    ensures r.Ok? && tc <= 1.0 ==> InUnit(r.value.sc)
    ensures r.Ok? && tc < 0.0 && perpendicular ==> r.value.sc == SAtStart(g)
    ensures r.Ok? && !perpendicular ==> r.value.sc == sc
    ensures r.Ok? && tc > 1.0 ==> perpendicular && r.value.sc == SAtEnd(g)
  {
    var sc', tc' := sc, tc;
    perpendicular := false;
    if tc' < 0.0 {
      tc' := 0.0;
      if -g.uw > 0.0 && -g.uw < g.uu {
        sc' := -g.uw / g.uu;
        assert sc' == SAtStart(g);
        perpendicular := true;
      }
    } else if tc' > 1.0 {
      tc' := 1.0;
      // Line 104: the `;` right after the guard ends the `if`.
      if g.uv == 0.0 {
        return Err(ZeroDivisor(106)), perpendicular;
      }
      sc' := (g.vv - g.vw) / g.uv;
      perpendicular := true;
    }
    r := Ok(Params(sc', tc'));
  }

  /** The solver with the guard of main.cpp:104 in force: it computes the
      result that `SquaredDistance` specifies, so every `Segment::point` call
      it makes receives a parameter in [0, 1]. */
  method Distance(s1: Segment, s2: Segment) returns (r: Result<real>)
    requires s1.Valid() && s2.Valid()
    ensures r == SquaredDistance(s1, s2)
  {
    var g, initial := SolveLines(s1, s2);
    if initial.Err? {
      return Err(initial.fault);
    }
    var sc, tc := initial.value.sc, initial.value.tc;
    if 0.0 <= sc <= 1.0 && 0.0 <= tc <= 1.0 {
      return Ok(SqrDist(s1.PointAt(sc), s2.PointAt(tc)));
    }

    var first, second;
    sc, tc, first := ClampFirst(g, sc, tc);
    sc, tc, second := ClampSecond(g, sc, tc);
    var perpendicular := first || second;

    if !perpendicular {
      return Ok(Min4(SqrDist(s1.PointAt(0.0), s2.PointAt(0.0)), SqrDist(s1.PointAt(0.0), s2.PointAt(1.0)),
                     SqrDist(s1.PointAt(1.0), s2.PointAt(0.0)), SqrDist(s1.PointAt(1.0), s2.PointAt(1.0))));
    } else {
      return Ok(SqrDist(s1.PointAt(sc), s2.PointAt(tc)));
    }
  }

  /** The first clamp block leaves tc alone and tc > 1, so the solver reaches
      the block of main.cpp:105-108, which the stray `;` of line 104 runs
      without its guard. */
  predicate StrayBlockReached(s1: Segment, s2: Segment) {
    match InitialParams(s1, s2)
    case Err(_) => false
    case Ok(p) => !FirstReprojects(GramOf(s1, s2), p.sc) && p.tc > 1.0
  }

  /** The solver as main.cpp writes it.  It agrees with `Distance` unless the
      unguarded block runs; then it divides by uv, which may be zero, and may
      hand `Segment::point` an sc outside [0, 1], whose assertion fails. */
  method DistanceAsWritten(s1: Segment, s2: Segment) returns (r: Result<real>)
    requires s1.Valid() && s2.Valid()
    ensures !StrayBlockReached(s1, s2) ==> r == SquaredDistance(s1, s2)
    ensures r == Err(ZeroDivisor(106)) <==> StrayBlockReached(s1, s2) && GramOf(s1, s2).uv == 0.0
    ensures r == Err(PointOutOfRange)
        <==> StrayBlockReached(s1, s2) && GramOf(s1, s2).uv != 0.0 && !InUnit(SAtEnd(GramOf(s1, s2)))
    ensures StrayBlockReached(s1, s2) && GramOf(s1, s2).uv != 0.0 && InUnit(SAtEnd(GramOf(s1, s2)))
        ==> r == Ok(SqrDistAt(s1, s2, SAtEnd(GramOf(s1, s2)), 1.0))
  {
    var g, initial := SolveLines(s1, s2);
    if initial.Err? {
      return Err(initial.fault);
    }
    var sc, tc := initial.value.sc, initial.value.tc;
    if 0.0 <= sc <= 1.0 && 0.0 <= tc <= 1.0 {
      return Ok(SqrDist(s1.PointAt(sc), s2.PointAt(tc)));
    }

    var first, second;
    sc, tc, first := ClampFirst(g, sc, tc);
    var clamped;
    clamped, second := ClampSecondAsWritten(g, sc, tc);
    if clamped.Err? {
      return Err(clamped.fault);
    }
    sc, tc := clamped.value.sc, clamped.value.tc;
    var perpendicular := first || second;

    if !perpendicular {
      return Ok(Min4(SqrDist(s1.PointAt(0.0), s2.PointAt(0.0)), SqrDist(s1.PointAt(0.0), s2.PointAt(1.0)),
                     SqrDist(s1.PointAt(1.0), s2.PointAt(0.0)), SqrDist(s1.PointAt(1.0), s2.PointAt(1.0))));
    } else {
      // The assertions of `Segment::point` (src/geom.h:185-186).
      if !(0.0 <= sc <= 1.0 && 0.0 <= tc <= 1.0) {
        return Err(PointOutOfRange);
      }
      return Ok(SqrDist(s1.PointAt(sc), s2.PointAt(tc)));
    }
  }

  // Arithmetic over the reals used by the proofs above.

  lemma DivMul(a: real, d: real)
    requires d != 0.0
    ensures (a / d) * d == a
  {
  }

  lemma MulAtLeast(t: real, b: real)
    requires t >= 1.0 && b > 0.0
    ensures t * b >= b
  {
  }

  lemma DivBounds(a: real, b: real)
    requires 0.0 < a < b
    ensures 0.0 < a / b < 1.0
  {
    var t := a / b;
    DivMul(a, b);
    if t >= 1.0 {
      MulAtLeast(t, b);
    }
  }

  lemma DivInsideIff(a: real, b: real)
    requires b > 0.0
    ensures 0.0 < a / b < 1.0 <==> 0.0 < a < b
  {
    var t := a / b;
    DivMul(a, b);
    if 0.0 < t < 1.0 {
      MulBelow(t, b);
    }
    if 0.0 < a < b {
      DivBounds(a, b);
    }
  }

  lemma MulBelow(t: real, b: real)
    requires 0.0 < t < 1.0 && b > 0.0
    ensures 0.0 < t * b < b
  {
  }

  lemma NonNegativeScale(d: real, x: real)
    requires x >= 0.0
    ensures d * d * x >= 0.0
  {
  }
}
