/** The corrected solver returns the minimum distance between two segments
    that are not parallel.

    The squared length of the connecting vector w0 + u*sc - v*tc is |w0|^2
    plus `Quad(g, sc, tc)`, a quadratic in the two parameters whose
    coefficients are the cached products.  For segments that are not
    parallel it is strictly convex, with its minimum at the solution of the
    normal equations (main.cpp:48-49); each branch of
    `IntendedSquaredDistance` picks the minimum of that quadratic over the
    unit square of parameters. */
module SegmentMinimum {
  import opened Geom
  import opened SegmentDistance

  /** |w0 + u*sc - v*tc|^2 - |w0|^2, written with the cached products. */
  function Quad(g: Gram, sc: real, tc: real): real {
    g.uu * sc * sc - 2.0 * g.uv * sc * tc + g.vv * tc * tc + 2.0 * g.uw * sc - 2.0 * g.vw * tc
  }

  /** The quadratic part of `Quad`: |u*a - v*b|^2. */
  function Shape(g: Gram, a: real, b: real): real {
    g.uu * a * a - 2.0 * g.uv * a * b + g.vv * b * b
  }

  /** uu*vv - uv*uv, minus the `denominator` of main.cpp:20. */
  function Det(g: Gram): real {
    g.uu * g.vv - g.uv * g.uv
  }

  /** Both directions are non-zero and not parallel: `Quad` is strictly
      convex. */
  predicate Definite(g: Gram) {
    g.uu > 0.0 && g.vv > 0.0 && Det(g) > 0.0
  }

  /** The parameters solve both normal equations. */
  predicate Stationary(g: Gram, m: Params) {
    OrthogonalToFirst(g, m) && OrthogonalToSecond(g, m)
  }

  /** The cached products of one coordinate: `a` of u, `b` of v and `w` of
      w0. */
  function ComponentGram(a: real, b: real, w: real): Gram {
    Gram(a * a, a * b, b * b, a * w, b * w)
  }

  function GramSum(g: Gram, h: Gram): Gram {
    Gram(g.uu + h.uu, g.uv + h.uv, g.vv + h.vv, g.uw + h.uw, g.vw + h.vw)
  }

  /** `Quad` is linear in the cached products. */
  lemma QuadAdditive(g: Gram, h: Gram, s: real, t: real)
    ensures Quad(GramSum(g, h), s, t) == Quad(g, s, t) + Quad(h, s, t)
  {
  }

  /** One coordinate of the connecting vector, squared. */
  lemma CoordinateSqr(c: real, w: real, a: real, b: real, s: real, t: real)
    requires c == w + a * s - b * t
    ensures Sqr(c) == Sqr(w) + Quad(ComponentGram(a, b, w), s, t)
  {
  }

  /** The connecting vector, coordinate by coordinate. */
  lemma ConnectingCoordinates(s1: Segment, s2: Segment, p: Params)
    ensures Connecting(s1, s2, p).l == Offset(s1, s2).l + s1.vector.l * p.sc - s2.vector.l * p.tc
    ensures Connecting(s1, s2, p).m == Offset(s1, s2).m + s1.vector.m * p.sc - s2.vector.m * p.tc
    ensures Connecting(s1, s2, p).n == Offset(s1, s2).n + s1.vector.n * p.sc - s2.vector.n * p.tc
  {
  }

  /** The squared length of the connecting vector, in terms of the cached
      products. */
  lemma ConnectingSqrLen(s1: Segment, s2: Segment, p: Params)
    ensures Connecting(s1, s2, p).SqrLen() == Offset(s1, s2).SqrLen() + Quad(GramOf(s1, s2), p.sc, p.tc)
  {
    var u, v, w := s1.vector, s2.vector, Offset(s1, s2);
    var c := Connecting(s1, s2, p);
    ConnectingCoordinates(s1, s2, p);
    var gl, gm, gn := ComponentGram(u.l, v.l, w.l), ComponentGram(u.m, v.m, w.m), ComponentGram(u.n, v.n, w.n);
    CoordinateSqr(c.l, w.l, u.l, v.l, p.sc, p.tc);
    CoordinateSqr(c.m, w.m, u.m, v.m, p.sc, p.tc);
    CoordinateSqr(c.n, w.n, u.n, v.n, p.sc, p.tc);
    QuadAdditive(gl, gm, p.sc, p.tc);
    QuadAdditive(GramSum(gl, gm), gn, p.sc, p.tc);
    GramOfComponents(s1, s2);
    SumOfSquares(c, w, Quad(gl, p.sc, p.tc), Quad(gm, p.sc, p.tc), Quad(gn, p.sc, p.tc));
  }

  lemma SumOfSquares(c: Vector, w: Vector, ql: real, qm: real, qn: real)
    requires Sqr(c.l) == Sqr(w.l) + ql && Sqr(c.m) == Sqr(w.m) + qm && Sqr(c.n) == Sqr(w.n) + qn
    ensures c.SqrLen() == w.SqrLen() + (ql + qm + qn)
  {
  }

  /** The cached products are sums over the three coordinates. */
  lemma GramOfComponents(s1: Segment, s2: Segment)
    ensures GramOf(s1, s2)
         == GramSum(GramSum(ComponentGram(s1.vector.l, s2.vector.l, Offset(s1, s2).l),
                            ComponentGram(s1.vector.m, s2.vector.m, Offset(s1, s2).m)),
                    ComponentGram(s1.vector.n, s2.vector.n, Offset(s1, s2).n))
  {
    var u, v, w := s1.vector, s2.vector, Offset(s1, s2);
    assert GramOf(s1, s2) == Gram(Dot(u, u), Dot(u, v), Dot(v, v), Dot(u, w), Dot(v, w));
  }

  /** The squared distance between two points of the segments is |w0|^2
      plus `Quad` at their parameters. */
  lemma SqrDistAtQuad(s1: Segment, s2: Segment, sc: real, tc: real)
    requires InUnit(sc) && InUnit(tc)
    ensures SqrDistAt(s1, s2, sc, tc) == Offset(s1, s2).SqrLen() + Quad(GramOf(s1, s2), sc, tc)
  {
    ConnectingIsPointDifference(s1, s2, Params(sc, tc));
    SqrDistIsSqrLen(s1.PointAt(sc), s2.PointAt(tc));
    ConnectingSqrLen(s1, s2, Params(sc, tc));
  }

  /** Segments that are not parallel give a strictly convex `Quad`, whose
      minimum over the plane is at the initial parameters. */
  lemma NotParallelDefinite(s1: Segment, s2: Segment)
    requires !s1.Parallel(s2)
    ensures Definite(GramOf(s1, s2))
    ensures InitialParams(s1, s2).Ok? && Stationary(GramOf(s1, s2), InitialParams(s1, s2).value)
  {
    var g := GramOf(s1, s2);
    NonParallelDenominator(s1, s2);
    assert Det(g) == -Denominator(g);
    assert g.uu * g.vv > 0.0;
  }

  /** Around a stationary point `Quad` grows by `Shape` of the offset. */
  lemma QuadAroundStationary(g: Gram, m: Params, s: real, t: real)
    requires Stationary(g, m)
    ensures Quad(g, s, t) == Quad(g, m.sc, m.tc) + Shape(g, s - m.sc, t - m.tc)
  {
    var a, b := s - m.sc, t - m.tc;
    assert Quad(g, s, t) - Quad(g, m.sc, m.tc) - Shape(g, a, b)
        == 2.0 * a * (g.uw + m.sc * g.uu - m.tc * g.uv) - 2.0 * b * (g.vw + m.sc * g.uv - m.tc * g.vv);
  }

  /** `QuadAroundStationary`, with the offset given. */
  lemma QuadAtOffset(g: Gram, m: Params, a: real, b: real)
    requires Stationary(g, m)
    ensures Quad(g, m.sc + a, m.tc + b) == Quad(g, m.sc, m.tc) + Shape(g, a, b)
  {
    QuadAroundStationary(g, m, m.sc + a, m.tc + b);
    assert m.sc + a - m.sc == a && m.tc + b - m.tc == b;
  }

  lemma PositiveFactor(x: real, y: real)
    requires x > 0.0 && x * y >= 0.0
    ensures y >= 0.0
  {
  }

  /** For a strictly convex `Quad`, `Shape` is never negative. */
  lemma ShapeNonNegative(g: Gram, a: real, b: real)
    requires Definite(g)
    ensures Shape(g, a, b) >= 0.0
  {
    var e := g.uu * a - g.uv * b;
    assert g.uu * Shape(g, a, b) == e * e + Det(g) * (b * b);
    assert Det(g) * (b * b) >= 0.0;
    PositiveFactor(g.uu, Shape(g, a, b));
  }

  lemma ShapeScale(g: Gram, a: real, b: real, k: real)
    ensures Shape(g, k * a, k * b) == k * k * Shape(g, a, b)
  {
  }

  lemma Shrink(k: real, x: real)
    requires 0.0 <= k <= 1.0 && x >= 0.0
    ensures k * k * x <= x
  {
    NonNegativeProduct(k, 1.0 - k);
    NonNegativeProduct(1.0 - k * k, x);
  }

  lemma ScaledSquareNonNegative(d: real, x: real)
    requires d >= 0.0
    ensures d * x * x >= 0.0
  {
    NonNegativeProduct(d, x * x);
    assert d * x * x == d * (x * x);
  }

  lemma NonNegativeProduct(x: real, y: real)
    requires x >= 0.0 && y >= 0.0
    ensures x * y >= 0.0
  {
  }

  /** Scaling an offset by a factor in [0, 1] never increases `Shape`. */
  lemma ShapeShrink(g: Gram, a: real, b: real, k: real)
    requires Definite(g) && 0.0 <= k <= 1.0
    ensures Shape(g, k * a, k * b) <= Shape(g, a, b)
  {
    ShapeScale(g, a, b, k);
    ShapeNonNegative(g, a, b);
    Shrink(k, Shape(g, a, b));
    assert k * k * Shape(g, a, b) <= Shape(g, a, b);
  }

  /** Moving from any point towards the minimum never increases `Quad`:
      the point at offset (k*a, k*b) from the minimum is no higher than the
      point at offset (a, b). */
  lemma ShrinkToward(g: Gram, m: Params, a: real, b: real, k: real)
    requires Definite(g) && Stationary(g, m) && 0.0 <= k <= 1.0
    ensures Quad(g, m.sc + k * a, m.tc + k * b) <= Quad(g, m.sc + a, m.tc + b)
  {
    QuadAtOffset(g, m, a, b);
    QuadAtOffset(g, m, k * a, k * b);
    ShapeShrink(g, a, b, k);
  }

  /** Along the line of `s2`, `Quad` is smallest at the foot from the point
      of the line of `s1` at `s`, and grows with the squared distance from
      it. */
  lemma QuadAlongSecond(g: Gram, s: real, t: real)
    requires g.vv > 0.0
    ensures Quad(g, s, t)
         == Quad(g, s, FootOnSecond(g, s)) + g.vv * (t - FootOnSecond(g, s)) * (t - FootOnSecond(g, s))
  {
    var f := FootOnSecond(g, s);
    assert g.vw + s * g.uv == f * g.vv;
    assert Quad(g, s, t) - Quad(g, s, f) == (t - f) * (g.vv * (t + f) - 2.0 * (g.uv * s + g.vw));
  }

  /** Along the line of `s1`, `Quad` is smallest at the foot from the point
      of the line of `s2` at `t`, and grows with the squared distance from
      it. */
  lemma QuadAlongFirst(g: Gram, s: real, t: real)
    requires g.uu > 0.0
    ensures Quad(g, s, t)
         == Quad(g, FootOnFirst(g, t), t) + g.uu * (s - FootOnFirst(g, t)) * (s - FootOnFirst(g, t))
  {
    var f := FootOnFirst(g, t);
    assert g.uw - t * g.uv == -(f * g.uu);
    assert Quad(g, s, t) - Quad(g, f, t) == (s - f) * (g.uu * (s + f) - 2.0 * (g.uv * t - g.uw));
  }

  /** Where `f` is the foot on the line of `s2` of the perpendicular from
      the point of the line of `s1` at `s`, `Quad` exceeds its minimum by
      Det/vv times the squared distance of `s` from the minimum. */
  lemma FootCurveSecond(g: Gram, m: Params, s: real, f: real)
    requires Definite(g) && Stationary(g, m) && OrthogonalToSecond(g, Params(s, f))
    ensures g.vv * (Quad(g, s, f) - Quad(g, m.sc, m.tc)) == Det(g) * ((s - m.sc) * (s - m.sc))
  {
    assert g.vv * (f - m.tc) == g.uv * (s - m.sc);
    assert g.vv * (Quad(g, s, f) - Quad(g, m.sc, m.tc)) == g.vv * Shape(g, s - m.sc, f - m.tc) by {
      QuadAroundStationary(g, m, s, f);
      ScaleEqual(g.vv, Quad(g, s, f) - Quad(g, m.sc, m.tc), Shape(g, s - m.sc, f - m.tc));
    }
    ShapeAlongSecondFoot(g, s - m.sc, f - m.tc);
  }

  /** `Shape` at an offset (a, b) with vv*b == uv*a. */
  lemma ShapeAlongSecondFoot(g: Gram, a: real, b: real)
    requires g.vv * b == g.uv * a
    ensures g.vv * Shape(g, a, b) == Det(g) * (a * a)
  {
    assert g.vv * Shape(g, a, b) == g.vv * g.uu * a * a - 2.0 * g.uv * a * (g.vv * b) + (g.vv * b) * (g.vv * b);
  }

  /** Where `f` is the foot on the line of `s1` of the perpendicular from
      the point of the line of `s2` at `t`, `Quad` exceeds its minimum by
      Det/uu times the squared distance of `t` from the minimum. */
  lemma FootCurveFirst(g: Gram, m: Params, f: real, t: real)
    requires Definite(g) && Stationary(g, m) && OrthogonalToFirst(g, Params(f, t))
    ensures g.uu * (Quad(g, f, t) - Quad(g, m.sc, m.tc)) == Det(g) * ((t - m.tc) * (t - m.tc))
  {
    assert g.uu * (f - m.sc) == g.uv * (t - m.tc);
    assert g.uu * (Quad(g, f, t) - Quad(g, m.sc, m.tc)) == g.uu * Shape(g, f - m.sc, t - m.tc) by {
      QuadAroundStationary(g, m, f, t);
      ScaleEqual(g.uu, Quad(g, f, t) - Quad(g, m.sc, m.tc), Shape(g, f - m.sc, t - m.tc));
    }
    ShapeAlongFirstFoot(g, f - m.sc, t - m.tc);
  }

  /** `Shape` at an offset (a, b) with uu*a == uv*b. */
  lemma ShapeAlongFirstFoot(g: Gram, a: real, b: real)
    requires g.uu * a == g.uv * b
    ensures g.uu * Shape(g, a, b) == Det(g) * (b * b)
  {
    assert g.uu * Shape(g, a, b) == (g.uu * a) * (g.uu * a) - 2.0 * g.uv * (g.uu * a) * b + g.uu * g.vv * b * b;
  }

  lemma ScaleEqual(d: real, x: real, y: real)
    requires x == y
    ensures d * x == d * y
  {
  }

  lemma SquareMonotone(p: real, q: real)
    requires 0.0 <= p <= q
    ensures p * p <= q * q
  {
    assert p * p <= p * q <= q * q;
  }

  /** A value outside [0, 1] is nearer to its clamp than to any point of
      [0, 1]. */
  lemma ClampNearer(x: real, y: real)
    requires !InUnit(x) && InUnit(y)
    ensures (Clamp(x) - x) * (Clamp(x) - x) <= (y - x) * (y - x)
  {
    if x < 0.0 {
      SquareMonotone(-x, y - x);
    } else {
      SquareMonotone(x - 1.0, x - y);
    }
  }

  lemma ScaleMonotone(d: real, p: real, q: real)
    requires d > 0.0 && p <= q
    ensures d * p <= d * q
  {
    assert d * q - d * p == d * (q - p);
  }

  lemma ScaleCancel(d: real, p: real, q: real)
    requires d > 0.0 && d * p <= d * q
    ensures p <= q
  {
    assert d * q - d * p == d * (q - p);
  }

  /** Along the line of `s2`, the foot from the point at `s` is nearest. */
  lemma FootBelowSecond(g: Gram, s: real, t: real)
    requires g.vv > 0.0
    ensures Quad(g, s, FootOnSecond(g, s)) <= Quad(g, s, t)
  {
    var f := FootOnSecond(g, s);
    QuadAlongSecond(g, s, t);
    ScaledSquareNonNegative(g.vv, t - f);
  }

  /** Along the line of `s1`, the foot from the point at `t` is nearest. */
  lemma FootBelowFirst(g: Gram, s: real, t: real)
    requires g.uu > 0.0
    ensures Quad(g, FootOnFirst(g, t), t) <= Quad(g, s, t)
  {
    var f := FootOnFirst(g, t);
    QuadAlongFirst(g, s, t);
    ScaledSquareNonNegative(g.uu, s - f);
  }

  /** Among the feet dropped from points of `s1`, the one from the clamped
      end nearest the minimum gives the smallest `Quad`. */
  lemma ClampedFootSecond(g: Gram, m: Params, s: real)
    requires Definite(g) && Stationary(g, m) && !InUnit(m.sc) && InUnit(s)
    ensures Quad(g, Clamp(m.sc), FootOnSecond(g, Clamp(m.sc))) <= Quad(g, s, FootOnSecond(g, s))
  {
    var c := Clamp(m.sc);
    var q := Quad(g, m.sc, m.tc);
    FootCurveSecond(g, m, s, FootOnSecond(g, s));
    FootCurveSecond(g, m, c, FootOnSecond(g, c));
    ClampNearer(m.sc, s);
    ScaleMonotone(Det(g), (c - m.sc) * (c - m.sc), (s - m.sc) * (s - m.sc));
    assert g.vv * (Quad(g, c, FootOnSecond(g, c)) - q) <= g.vv * (Quad(g, s, FootOnSecond(g, s)) - q);
    ScaleCancel(g.vv, Quad(g, c, FootOnSecond(g, c)) - q, Quad(g, s, FootOnSecond(g, s)) - q);
  }

  /** Among the feet dropped from points of `s2`, the one from the clamped
      end nearest the minimum gives the smallest `Quad`. */
  lemma ClampedFootFirst(g: Gram, m: Params, t: real)
    requires Definite(g) && Stationary(g, m) && !InUnit(m.tc) && InUnit(t)
    ensures Quad(g, FootOnFirst(g, Clamp(m.tc)), Clamp(m.tc)) <= Quad(g, FootOnFirst(g, t), t)
  {
    var c := Clamp(m.tc);
    var q := Quad(g, m.sc, m.tc);
    FootCurveFirst(g, m, FootOnFirst(g, t), t);
    FootCurveFirst(g, m, FootOnFirst(g, c), c);
    ClampNearer(m.tc, t);
    ScaleMonotone(Det(g), (c - m.tc) * (c - m.tc), (t - m.tc) * (t - m.tc));
    assert g.uu * (Quad(g, FootOnFirst(g, c), c) - q) <= g.uu * (Quad(g, FootOnFirst(g, t), t) - q);
    ScaleCancel(g.uu, Quad(g, FootOnFirst(g, c), c) - q, Quad(g, FootOnFirst(g, t), t) - q);
  }

  /** With the minimum's sc outside [0, 1], the perpendicular from the
      clamped end of `s1` onto the line of `s2` gives the smallest `Quad`
      over all points whose sc lies in [0, 1]. */
  lemma OntoSecondMinimal(g: Gram, m: Params, s: real, t: real)
    requires Definite(g) && Stationary(g, m) && !InUnit(m.sc) && InUnit(s)
    ensures Quad(g, Clamp(m.sc), FootOnSecond(g, Clamp(m.sc))) <= Quad(g, s, t)
  {
    FootBelowSecond(g, s, t);
    ClampedFootSecond(g, m, s);
  }

  /** With the minimum's tc outside [0, 1], the perpendicular from the
      clamped end of `s2` onto the line of `s1` gives the smallest `Quad`
      over all points whose tc lies in [0, 1]. */
  lemma OntoFirstMinimal(g: Gram, m: Params, s: real, t: real)
    requires Definite(g) && Stationary(g, m) && !InUnit(m.tc) && InUnit(t)
    ensures Quad(g, FootOnFirst(g, Clamp(m.tc)), Clamp(m.tc)) <= Quad(g, s, t)
  {
    FootBelowFirst(g, s, t);
    ClampedFootFirst(g, m, t);
  }

  /** On the edge of the unit square at `s`, a foot outside (0, 1) leaves
      the smallest `Quad` at a corner. */
  lemma EdgeMinSecond(g: Gram, s: real, t: real)
    requires g.vv > 0.0 && InUnit(t) && !(0.0 < FootOnSecond(g, s) < 1.0)
    ensures Quad(g, s, Clamp(FootOnSecond(g, s))) <= Quad(g, s, t)
  {
    var f := FootOnSecond(g, s);
    var c := Clamp(f);
    QuadAlongSecond(g, s, t);
    QuadAlongSecond(g, s, c);
    if !InUnit(f) {
      ClampNearer(f, t);
      ScaleMonotone(g.vv, (c - f) * (c - f), (t - f) * (t - f));
    }
    assert g.vv * (c - f) * (c - f) == g.vv * ((c - f) * (c - f));
    assert g.vv * (t - f) * (t - f) == g.vv * ((t - f) * (t - f));
  }

  /** On the edge of the unit square at `t`, a foot outside (0, 1) leaves
      the smallest `Quad` at a corner. */
  lemma EdgeMinFirst(g: Gram, s: real, t: real)
    requires g.uu > 0.0 && InUnit(s) && !(0.0 < FootOnFirst(g, t) < 1.0)
    ensures Quad(g, Clamp(FootOnFirst(g, t)), t) <= Quad(g, s, t)
  {
    var f := FootOnFirst(g, t);
    var c := Clamp(f);
    QuadAlongFirst(g, s, t);
    QuadAlongFirst(g, c, t);
    if !InUnit(f) {
      ClampNearer(f, s);
      ScaleMonotone(g.uu, (c - f) * (c - f), (s - f) * (s - f));
    }
    assert g.uu * (c - f) * (c - f) == g.uu * ((c - f) * (c - f));
    assert g.uu * (s - f) * (s - f) == g.uu * ((s - f) * (s - f));
  }

  /** The entry fraction: the fraction, in [0, 1], of the way from `x`
      outside [0, 1] to `x + d` inside it at which the bound of [0, 1]
      nearest to `x` is crossed. */
  lemma EntryFraction(x: real, d: real) returns (e: real)
    requires !InUnit(x) && InUnit(x + d)
    ensures 0.0 <= e <= 1.0
    ensures x + e * d == Clamp(x) && InUnit(x + e * d)
  {
    if x < 0.0 {
      e := EntryFromBelow(x, d);
    } else {
      e := EntryFromBelow(1.0 - x, -d);
      assert e * -d == -(e * d);
    }
  }

  /** The entry fraction for `x` below 0, where the way enters [0, 1] at 0. */
  lemma EntryFromBelow(x: real, d: real) returns (e: real)
    requires x < 0.0 && 0.0 <= x + d
    ensures 0.0 <= e <= 1.0
    ensures x + e * d == 0.0
  {
    e := -x / d;
    DivMul(-x, d);
    PositiveFactor(d, e);
    assert d * (1.0 - e) == d + x;
    PositiveFactor(d, 1.0 - e);
  }

  lemma MulRightMonotone(p: real, q: real, d: real)
    requires p <= q && d >= 0.0
    ensures p * d <= q * d
  {
    NonNegativeProduct(q - p, d);
    assert q * d - p * d == (q - p) * d;
  }

  lemma MulRightAntitone(p: real, q: real, d: real)
    requires p <= q && d <= 0.0
    ensures q * d <= p * d
  {
    NonNegativeProduct(q - p, -d);
    assert p * d - q * d == (q - p) * -d;
  }

  /** A fraction of a non-negative `d` lies between 0 and `d`. */
  lemma FractionOfNonNegative(k: real, d: real)
    requires 0.0 <= k <= 1.0 && d >= 0.0
    ensures 0.0 <= k * d <= d
  {
    NonNegativeProduct(k, d);
    NonNegativeProduct(1.0 - k, d);
  }

  /** A fraction of a non-positive `d` lies between `d` and 0. */
  lemma FractionOfNonPositive(k: real, d: real)
    requires 0.0 <= k <= 1.0 && d <= 0.0
    ensures d <= k * d <= 0.0
  {
    NonNegativeProduct(k, -d);
    NonNegativeProduct(1.0 - k, -d);
  }

  /** Past the entry fraction `e`, the way from `x` to `x + d` stays inside
      [0, 1]. */
  lemma PastEntry(x: real, d: real, e: real, k: real)
    requires !InUnit(x) && InUnit(x + d) && 0.0 <= e <= k <= 1.0 && x + e * d == Clamp(x)
    ensures InUnit(x + k * d)
  {
    if x < 0.0 {
      PastEntryBelow(x, d, e, k);
    } else {
      PastEntryAbove(x, d, e, k);
    }
  }

  /** `PastEntry` for `x` at or below 0, where the way enters [0, 1] at 0. */
  lemma PastEntryBelow(x: real, d: real, e: real, k: real)
    requires x <= 0.0 && 0.0 <= x + d <= 1.0 && 0.0 <= e <= k <= 1.0 && x + e * d == 0.0
    ensures 0.0 <= x + k * d <= 1.0
  {
    FractionOfNonNegative(k, d);
    MulRightMonotone(e, k, d);
  }

  /** `PastEntry` for `x` at or above 1, where the way enters [0, 1] at 1. */
  lemma PastEntryAbove(x: real, d: real, e: real, k: real)
    requires x >= 1.0 && 0.0 <= x + d <= 1.0 && 0.0 <= e <= k <= 1.0 && x + e * d == 1.0
    ensures 0.0 <= x + k * d <= 1.0
  {
    assert e * -d == -(e * d) && k * -d == -(k * d);
    PastEntryBelow(1.0 - x, -d, e, k);
  }

  /** The way between two values of [0, 1] stays inside it. */
  lemma BetweenInside(x: real, d: real, k: real)
    requires InUnit(x) && InUnit(x + d) && 0.0 <= k <= 1.0
    ensures InUnit(x + k * d)
  {
    if d >= 0.0 {
      FractionOfNonNegative(k, d);
      StepsBetween(x, 0.0, k * d, d);
    } else {
      FractionOfNonPositive(k, d);
      StepsBetween(x, d, k * d, 0.0);
    }
  }

  /** A step from `x` that lies between two steps landing in [0, 1] lands
      in [0, 1] too. */
  lemma StepsBetween(x: real, lo: real, p: real, hi: real)
    requires InUnit(x + lo) && InUnit(x + hi) && lo <= p <= hi
    ensures InUnit(x + p)
  {
  }

  /** The exit fraction: the fraction of the way from the minimum `m`
      outside the unit square to the point at offset (a, b) from it inside
      the square at which the way enters the square, through an edge that
      faces the minimum. */
  lemma ExitFraction(m: Params, a: real, b: real) returns (k: real)
    requires !(InUnit(m.sc) && InUnit(m.tc)) && InUnit(m.sc + a) && InUnit(m.tc + b)
    ensures 0.0 <= k <= 1.0
    ensures InUnit(m.sc + k * a) && InUnit(m.tc + k * b)
    ensures (!InUnit(m.sc) && m.sc + k * a == Clamp(m.sc))
         || (!InUnit(m.tc) && m.tc + k * b == Clamp(m.tc))
  {
    if InUnit(m.sc) {
      k := ExitThroughSecondBound(m, a, b);
    } else if InUnit(m.tc) {
      k := ExitThroughFirstBound(m, a, b);
    } else {
      k := ExitThroughNearerBound(m, a, b);
    }
  }

  /** `ExitFraction` when only the minimum's tc lies outside [0, 1]. */
  lemma ExitThroughSecondBound(m: Params, a: real, b: real) returns (k: real)
    requires InUnit(m.sc) && !InUnit(m.tc) && InUnit(m.sc + a) && InUnit(m.tc + b)
    ensures 0.0 <= k <= 1.0
    ensures InUnit(m.sc + k * a) && InUnit(m.tc + k * b)
    ensures (!InUnit(m.sc) && m.sc + k * a == Clamp(m.sc))
         || (!InUnit(m.tc) && m.tc + k * b == Clamp(m.tc))
  {
    k := EntryFraction(m.tc, b);
    BetweenInside(m.sc, a, k);
  }

  /** `ExitFraction` when only the minimum's sc lies outside [0, 1]. */
  lemma ExitThroughFirstBound(m: Params, a: real, b: real) returns (k: real)
    requires !InUnit(m.sc) && InUnit(m.tc) && InUnit(m.sc + a) && InUnit(m.tc + b)
    ensures 0.0 <= k <= 1.0
    ensures InUnit(m.sc + k * a) && InUnit(m.tc + k * b)
    ensures (!InUnit(m.sc) && m.sc + k * a == Clamp(m.sc))
         || (!InUnit(m.tc) && m.tc + k * b == Clamp(m.tc))
  {
    k := EntryFraction(m.sc, a);
    BetweenInside(m.tc, b, k);
  }

  /** `ExitFraction` when both of the minimum's parameters lie outside
      [0, 1]: the way enters through the bound it meets last. */
  lemma ExitThroughNearerBound(m: Params, a: real, b: real) returns (k: real)
    requires !InUnit(m.sc) && !InUnit(m.tc) && InUnit(m.sc + a) && InUnit(m.tc + b)
    ensures 0.0 <= k <= 1.0
    ensures InUnit(m.sc + k * a) && InUnit(m.tc + k * b)
    ensures (!InUnit(m.sc) && m.sc + k * a == Clamp(m.sc))
         || (!InUnit(m.tc) && m.tc + k * b == Clamp(m.tc))
  {
    var ea := EntryFraction(m.sc, a);
    var eb := EntryFraction(m.tc, b);
    if ea >= eb {
      k := ea;
      PastEntry(m.tc, b, eb, k);
    } else {
      k := eb;
      PastEntry(m.sc, a, ea, k);
    }
  }

  /** The exit-point argument: when the minimum lies outside the unit
      square, the way from any point of the square towards it leaves the
      square through an edge facing the minimum, at a point whose `Quad` is
      no larger. */
  lemma ExitPoint(g: Gram, m: Params, s: real, t: real) returns (p: Params)
    requires Definite(g) && Stationary(g, m) && !(InUnit(m.sc) && InUnit(m.tc))
    requires InUnit(s) && InUnit(t)
    ensures InUnit(p.sc) && InUnit(p.tc)
    ensures Quad(g, p.sc, p.tc) <= Quad(g, s, t)
    ensures (!InUnit(m.sc) && p.sc == Clamp(m.sc)) || (!InUnit(m.tc) && p.tc == Clamp(m.tc))
  {
    var a, b := s - m.sc, t - m.tc;
    assert m.sc + a == s && m.tc + b == t;
    var k := ExitFraction(m, a, b);
    ShrinkToward(g, m, a, b, k);
    p := Params(m.sc + k * a, m.tc + k * b);
  }

  /** When neither perpendicular from a clamped end lands strictly inside
      the other segment, some corner of the unit square has a `Quad` no
      larger than any point of the square. */
  lemma CornerMinimal(g: Gram, m: Params, s: real, t: real) returns (corner: Params)
    requires Definite(g) && Stationary(g, m) && !(InUnit(m.sc) && InUnit(m.tc))
    requires !InUnit(m.sc) ==> !(0.0 < FootOnSecond(g, Clamp(m.sc)) < 1.0)
    requires !InUnit(m.tc) ==> !(0.0 < FootOnFirst(g, Clamp(m.tc)) < 1.0)
    requires InUnit(s) && InUnit(t)
    ensures corner.sc in {0.0, 1.0} && corner.tc in {0.0, 1.0}
    ensures Quad(g, corner.sc, corner.tc) <= Quad(g, s, t)
  {
    var b := ExitPoint(g, m, s, t);
    if !InUnit(m.sc) && b.sc == Clamp(m.sc) {
      EdgeMinSecond(g, b.sc, b.tc);
      corner := Params(b.sc, Clamp(FootOnSecond(g, b.sc)));
    } else {
      EdgeMinFirst(g, b.sc, b.tc);
      corner := Params(Clamp(FootOnFirst(g, b.tc)), b.tc);
    }
  }

  /** The endpoint fallback is at most the distance between any two end
      points. */
  lemma EndpointAtMost(s1: Segment, s2: Segment, x: real, y: real)
    requires s1.Valid() && s2.Valid() && x in {0.0, 1.0} && y in {0.0, 1.0}
    ensures EndpointMin(s1, s2) <= SqrDistAt(s1, s2, x, y)
  {
  }

  /** For segments that are not parallel, the corrected solver returns the
      minimum of the squared distance over all pairs of points of the two
      segments: no point of `s1` and point of `s2` are nearer. */
  lemma IntendedMinimal(s1: Segment, s2: Segment, sc: real, tc: real)
    requires s1.Valid() && s2.Valid() && !s1.Parallel(s2) && InUnit(sc) && InUnit(tc)
    ensures IntendedSquaredDistance(s1, s2).Ok?
    ensures IntendedSquaredDistance(s1, s2).value <= SqrDistAt(s1, s2, sc, tc)
  {
    var g := GramOf(s1, s2);
    NotParallelDefinite(s1, s2);
    var m := InitialParams(s1, s2).value;
    SqrDistAtQuad(s1, s2, sc, tc);
    if InUnit(m.sc) && InUnit(m.tc) {
      SqrDistAtQuad(s1, s2, m.sc, m.tc);
      QuadAroundStationary(g, m, sc, tc);
      ShapeNonNegative(g, sc - m.sc, tc - m.tc);
    } else if DropsOntoSecond(g, m) {
      var c := Clamp(m.sc);
      SqrDistAtQuad(s1, s2, c, FootOnSecond(g, c));
      OntoSecondMinimal(g, m, sc, tc);
    } else if DropsOntoFirst(g, m) {
      var c := Clamp(m.tc);
      SqrDistAtQuad(s1, s2, FootOnFirst(g, c), c);
      OntoFirstMinimal(g, m, sc, tc);
    } else {
      var corner := CornerMinimal(g, m, sc, tc);
      SqrDistAtQuad(s1, s2, corner.sc, corner.tc);
      EndpointAtMost(s1, s2, corner.sc, corner.tc);
    }
  }
}
