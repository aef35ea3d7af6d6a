/** Points, free vectors and segments of three-dimensional space, over the reals.

    Every operation builds a new value from its operands; nothing is updated
    in place.  The square root behind `norm` has no counterpart here: lengths
    and distances are kept squared, which preserves every comparison the
    solver makes because the square root is monotone on non-negative reals.
 */
module Geom {

  /** The tolerance of the parallelism test, compared against the length of a
      cross product (a linear, not an angular, tolerance). */
  const Epsilon: real := 0.00001

  function Sqr(x: real): real {
    x * x
  }

  /** A point of space with coordinates x, y, z. */
  datatype Point = Point(x: real, y: real, z: real) {

    /** `this - p`: the vector that leads from `p` to `this`. */
    function Sub(p: Point): Vector {
      Vector(x - p.x, y - p.y, z - p.z)
    }

    /** `this + v`: this point translated by `v`. */
    function Add(v: Vector): Point {
      Point(x + v.l, y + v.m, z + v.n)
    }

    /** `this - v`: this point translated by the opposite of `v`. */
    function SubVector(v: Vector): Point {
      Point(x - v.l, y - v.m, z - v.n)
    }
  }

  /** A free vector with components l, m, n. */
  datatype Vector = Vector(l: real, m: real, n: real) {

    function Add(v: Vector): Vector {
      Vector(l + v.l, m + v.m, n + v.n)
    }

    function Sub(v: Vector): Vector {
      Vector(l - v.l, m - v.m, n - v.n)
    }

    /** `this * s`: multiplication by a scalar. */
    function Scale(s: real): Vector {
      Vector(l * s, m * s, n * s)
    }

    /** `this / s`: division by a scalar, which must not be zero. */
    function Div(s: real): (r: Vector)
      requires s != 0.0
      ensures r.Scale(s) == this
    {
      Vector(l / s, m / s, n / s)
    }

    /** `this * v`: the right-handed cross product, orthogonal to both operands. */
    function Cross(v: Vector): Vector {
      Vector(m * v.n - n * v.m, n * v.l - l * v.n, l * v.m - m * v.l)
    }

    /** The member inner product `this.dot(v)`. */
    function Dot(v: Vector): real {
      l * v.l + m * v.m + n * v.n
    }

    /** The squared length, the square of `norm`. */
    function SqrLen(): real {
      Sqr(l) + Sqr(m) + Sqr(n)
    }
  }

  function Zero(): Vector {
    Vector(0.0, 0.0, 0.0)
  }

  lemma ProductZero(a: real, b: real)
    requires a * b == 0.0
    ensures a == 0.0 || b == 0.0
  {
  }

  /** A square is zero only for zero. */
  lemma SqrZero(x: real)
    ensures Sqr(x) == 0.0 ==> x == 0.0
  {
    if Sqr(x) == 0.0 {
      ProductZero(x, x);
    }
  }

  /** The squared length is never negative, and zero exactly for the zero
      vector. */
  lemma SqrLenProperties(v: Vector)
    ensures v.SqrLen() >= 0.0
    ensures v.SqrLen() == 0.0 <==> v == Zero()
  {
    SqrZero(v.l);
    SqrZero(v.m);
    SqrZero(v.n);
  }

  /** The two-point vector constructor `Vector(p0, p1)`. */
  function VectorFrom(p0: Point, p1: Point): Vector {
    Vector(p1.x - p0.x, p1.y - p0.y, p1.z - p0.z)
  }

  /** The free inner product `dot(u, v)`. */
  function Dot(u: Vector, v: Vector): real {
    u.l * v.l + u.m * v.m + u.n * v.n
  }

  /** The squared distance between two points, written by coordinates. */
  function SqrDist(p: Point, q: Point): real {
    Sqr(p.x - q.x) + Sqr(p.y - q.y) + Sqr(p.z - q.z)
  }

  /** The squared distance is the square of `norm(p - q)`. */
  lemma SqrDistIsSqrLen(p: Point, q: Point)
    ensures SqrDist(p, q) == p.Sub(q).SqrLen()
  {
  }

  /** A squared distance is never negative, and zero exactly when the two
      points coincide. */
  lemma SqrDistProperties(p: Point, q: Point)
    ensures SqrDist(p, q) >= 0.0
    ensures SqrDist(p, q) == 0.0 <==> p == q
  {
    SqrDistIsSqrLen(p, q);
    SqrLenProperties(p.Sub(q));
    if SqrDist(p, q) == 0.0 {
      SubZero(p, q);
    }
  }

  lemma SubZero(p: Point, q: Point)
    requires p.Sub(q) == Zero()
    ensures p == q
  {
  }

  /** A segment from `begPoint` to `endPoint` that caches its direction
      `vector`; the constructors establish `Valid`, and nothing changes a
      segment afterwards. */
  datatype Segment = Segment(begPoint: Point, endPoint: Point, vector: Vector) {

    /** The cached direction is the vector from the start to the end. */
    predicate Valid() {
      vector == endPoint.Sub(begPoint)
    }

    /** `point(t)`, the point `begPoint + vector * t`; the source asserts that
        `t` lies in [0, 1].  It moves from the start to the end of the segment
        as `t` goes from 0 to 1. */
    function PointAt(t: real): (p: Point)
      requires 0.0 <= t <= 1.0
      ensures t == 0.0 ==> p == begPoint
      ensures Valid() && t == 1.0 ==> p == endPoint
    {
      begPoint.Add(vector.Scale(t))
    }

    /** `parallel(s)`: the length of the cross product of the two directions
        is below `Epsilon`, stated on squares. */
    predicate Parallel(s: Segment) {
      vector.Cross(s.vector).SqrLen() < Epsilon * Epsilon
    }
  }

  /** The constructor `Segment(p0, p1)`. */
  function SegmentFromPoints(p0: Point, p1: Point): (s: Segment)
    ensures s.Valid()
    ensures s.begPoint == p0 && s.endPoint == p1
  {
    Segment(p0, p1, VectorFrom(p0, p1))
  }

  /** The constructor `Segment(p, v)`, whose end point is `p + v`. */
  function SegmentFromVector(p: Point, v: Vector): (s: Segment)
    ensures s.Valid()
    ensures s.begPoint == p && s.vector == v && s.endPoint == p.Add(v)
  {
    Segment(p, p.Add(v), v)
  }

  lemma SubThenAdd(p: Point, q: Point)
    ensures p.Sub(q) == Vector(p.x - q.x, p.y - q.y, p.z - q.z)
    ensures q.Add(p.Sub(q)) == p
  {
  }

  lemma TranslateRoundTrip(p: Point, v: Vector)
    ensures p.Add(v).SubVector(v) == p
    ensures p.SubVector(v).Add(v) == p
    ensures p.Add(v).Sub(p) == v
  {
  }

  lemma VectorFromIsDifference(p0: Point, p1: Point)
    ensures VectorFrom(p0, p1) == p1.Sub(p0)
    ensures SegmentFromPoints(p0, p1).vector == p1.Sub(p0)
  {
  }

  lemma VectorArithmetic(u: Vector, v: Vector, s: real)
    ensures u.Add(v).Sub(v) == u && u.Sub(v).Add(v) == u
    ensures u.Add(v) == v.Add(u)
    ensures s != 0.0 ==> u.Scale(s).Div(s) == u
  {
  }

  /** `point(t)` is the convex combination of the two end points with
      weights 1 - t and t. */
  lemma PointAtConvex(s: Segment, t: real)
    requires s.Valid() && 0.0 <= t <= 1.0
    ensures s.PointAt(t).x == (1.0 - t) * s.begPoint.x + t * s.endPoint.x
    ensures s.PointAt(t).y == (1.0 - t) * s.begPoint.y + t * s.endPoint.y
    ensures s.PointAt(t).z == (1.0 - t) * s.begPoint.z + t * s.endPoint.z
  {
  }

  lemma DotProperties(u: Vector, v: Vector)
    ensures Dot(u, v) == Dot(v, u)
    ensures Dot(u, v) == u.Dot(v)
    ensures u.SqrLen() == Dot(u, u) >= 0.0
  {
    SqrLenProperties(u);
  }

  /** The inner product is linear in its second argument. */
  lemma DotLinear(a: Vector, w: Vector, b: Vector, c: Vector, s: real, t: real)
    ensures Dot(a, w.Add(b.Scale(s)).Sub(c.Scale(t))) == Dot(a, w) + s * Dot(a, b) - t * Dot(a, c)
  {
  }

  lemma CrossProperties(u: Vector, v: Vector)
    ensures u.Cross(v) == v.Cross(u).Scale(-1.0)
    ensures u.Cross(u) == Zero()
    ensures Dot(u, u.Cross(v)) == 0.0 && Dot(v, u.Cross(v)) == 0.0
  {
  }

  /** Lagrange's identity: the Gram determinant of two vectors is the squared
      length of their cross product. */
  lemma LagrangeIdentity(u: Vector, v: Vector)
    ensures Dot(u, u) * Dot(v, v) - Dot(u, v) * Dot(u, v) == u.Cross(v).SqrLen()
  {
  }

  lemma ParallelProperties(s: Segment, t: Segment)
    ensures s.Parallel(t) == t.Parallel(s)
    ensures s.Parallel(s)
  {
    var c, d := s.vector.Cross(t.vector), t.vector.Cross(s.vector);
    assert c == d.Scale(-1.0);
    assert Sqr(c.l) == Sqr(d.l) && Sqr(c.m) == Sqr(d.m) && Sqr(c.n) == Sqr(d.n);
    assert s.vector.Cross(s.vector) == Zero();
  }

  /** Moving along a direction changes the squared length by a quadratic in
      the distance moved. */
  lemma SqrLenShift(c: Vector, u: Vector, d: real)
    ensures c.Add(u.Scale(d)).SqrLen() == c.SqrLen() + 2.0 * d * Dot(u, c) + d * d * u.SqrLen()
  {
    SqrShift(c.l, u.l, d);
    SqrShift(c.m, u.m, d);
    SqrShift(c.n, u.n, d);
  }

  lemma SqrShift(a: real, b: real, d: real)
    ensures Sqr(a + b * d) == Sqr(a) + 2.0 * d * (b * a) + d * d * Sqr(b)
  {
  }

  /** A vector with a non-zero inner product with anything is not zero. */
  lemma NonZeroDot(u: Vector, w: Vector)
    ensures Dot(u, w) != 0.0 ==> Dot(u, u) > 0.0
  {
    if u != Zero() {
      SqrLenProperties(u);
      DotProperties(u, u);
    }
  }
}
