/** CASE_PERPENDICULAR with CASE_OVERLAPPED (main.cpp:222-229).

    The pair is worked out in stages, one small lemma per step (products,
    parameters, point distances, case), which keeps each proof small for the
    solver. */
module OverlappedCase {
  import opened Geom
  import opened SegmentDistance
  import opened ScenarioCases

  /** The first segment joins (0.0, 0.0, 0.0) to (5.0, 0.0, 0.0), the second (3.0, 3.0, 0.0) to (3.0, 8.0, 0.0). */
  predicate OverlappedPair(s1: Segment, s2: Segment) {
    && s1.Valid() && s1.begPoint == Point(0.0, 0.0, 0.0) && s1.endPoint == Point(5.0, 0.0, 0.0)
    && s2.Valid() && s2.begPoint == Point(3.0, 3.0, 0.0) && s2.endPoint == Point(3.0, 8.0, 0.0)
  }

  lemma GramOverlapped()
    ensures Dot(Vector(5.0, 0.0, 0.0), Vector(5.0, 0.0, 0.0)) == 25.0 && Dot(Vector(5.0, 0.0, 0.0), Vector(0.0, 5.0, 0.0)) == 0.0
    ensures Dot(Vector(0.0, 5.0, 0.0), Vector(0.0, 5.0, 0.0)) == 25.0
    ensures Dot(Vector(5.0, 0.0, 0.0), Vector(-3.0, -3.0, 0.0)) == -15.0 && Dot(Vector(0.0, 5.0, 0.0), Vector(-3.0, -3.0, 0.0)) == -15.0
  {
    assert Dot(Vector(5.0, 0.0, 0.0), Vector(5.0, 0.0, 0.0)) == 25.0;
    assert Dot(Vector(5.0, 0.0, 0.0), Vector(0.0, 5.0, 0.0)) == 0.0;
    assert Dot(Vector(0.0, 5.0, 0.0), Vector(0.0, 5.0, 0.0)) == 25.0;
    assert Dot(Vector(5.0, 0.0, 0.0), Vector(-3.0, -3.0, 0.0)) == -15.0;
  }

  lemma ParamsOverlapped()
    ensures Denominator(Gram(25.0, 0.0, 25.0, -15.0, -15.0)) == -625.0
    ensures NormalParams(Gram(25.0, 0.0, 25.0, -15.0, -15.0)) == Params(0.6, -0.6)
  {
  }

  lemma PairGramOverlapped(s1: Segment, s2: Segment)
    requires OverlappedPair(s1, s2)
    ensures GramOf(s1, s2) == Gram(25.0, 0.0, 25.0, -15.0, -15.0)
  {
    assert s1.vector == Vector(5.0, 0.0, 0.0) && s2.vector == Vector(0.0, 5.0, 0.0);
    assert Offset(s1, s2) == Vector(-3.0, -3.0, 0.0);
    GramOverlapped();
    GramFrom(s1, s2, Gram(25.0, 0.0, 25.0, -15.0, -15.0));
  }

  lemma GramParamsOverlapped(s1: Segment, s2: Segment)
    requires GramOf(s1, s2) == Gram(25.0, 0.0, 25.0, -15.0, -15.0)
    ensures InitialParams(s1, s2) == Ok(Params(0.6, -0.6))
  {
    ParamsOverlapped();
    SolvedLines(s1, s2, Gram(25.0, 0.0, 25.0, -15.0, -15.0));
  }

  lemma InitialOverlapped(s1: Segment, s2: Segment)
    requires OverlappedPair(s1, s2)
    ensures GramOf(s1, s2) == Gram(25.0, 0.0, 25.0, -15.0, -15.0)
    ensures InitialParams(s1, s2) == Ok(Params(0.6, -0.6))
  {
    PairGramOverlapped(s1, s2);
    GramParamsOverlapped(s1, s2);
  }

  lemma CornerOverlapped1(s1: Segment, s2: Segment)
    requires OverlappedPair(s1, s2)
    ensures SqrDist(s1.begPoint, s2.begPoint) == 18.0
  {
  }

  lemma CornerOverlapped2(s1: Segment, s2: Segment)
    requires OverlappedPair(s1, s2)
    ensures SqrDist(s1.begPoint, s2.endPoint) == 73.0
  {
  }

  lemma CornerOverlapped3(s1: Segment, s2: Segment)
    requires OverlappedPair(s1, s2)
    ensures SqrDist(s1.endPoint, s2.begPoint) == 13.0
  {
  }

  lemma CornerOverlapped4(s1: Segment, s2: Segment)
    requires OverlappedPair(s1, s2)
    ensures SqrDist(s1.endPoint, s2.endPoint) == 68.0
  {
  }

  lemma CornersOverlapped(s1: Segment, s2: Segment)
    requires OverlappedPair(s1, s2)
    ensures EndpointMin(s1, s2) == Min4(18.0, 73.0, 13.0, 68.0)
  {
    CornerOverlapped1(s1, s2);
    CornerOverlapped2(s1, s2);
    CornerOverlapped3(s1, s2);
    CornerOverlapped4(s1, s2);
    EndpointMinOf(s1, s2, 18.0, 73.0, 13.0, 68.0);
  }

  lemma FootOverlapped(s1: Segment)
    requires s1.begPoint == Point(0.0, 0.0, 0.0) && s1.vector == Vector(5.0, 0.0, 0.0)
    ensures s1.PointAt(0.6) == Point(3.0, 0.0, 0.0)
  {
  }

  lemma FootOverlappedDistance()
    ensures SqrDist(Point(3.0, 0.0, 0.0), Point(3.0, 3.0, 0.0)) == 9.0
  {
    assert Sqr(0.0 - 3.0) == 9.0;
  }

  lemma ProjectionOverlapped(s1: Segment, s2: Segment)
    requires SqrDist(s1.PointAt(0.6), s2.begPoint) == 9.0
    ensures SqrDistAt(s1, s2, 0.6, 0.0) == 9.0
  {
  }

  lemma ClosestOverlapped(s1: Segment, s2: Segment)
    requires OverlappedPair(s1, s2)
    ensures SqrDistAt(s1, s2, 0.6, 0.0) == 9.0
  {
    assert s1.vector == Vector(5.0, 0.0, 0.0);
    FootOverlapped(s1);
    FootOverlappedDistance();
    ProjectionOverlapped(s1, s2);
  }

  lemma OverlappedFromFacts(s1: Segment, s2: Segment)
    requires s1.Valid() && s2.Valid()
    requires GramOf(s1, s2) == Gram(25.0, 0.0, 25.0, -15.0, -15.0)
    requires InitialParams(s1, s2) == Ok(Params(0.6, -0.6))
    requires SqrDistAt(s1, s2, 0.6, 0.0) == 9.0
    ensures !StrayBlockReached(s1, s2)
    ensures SquaredDistance(s1, s2) == Ok(9.0)
  {
    assert SAtStart(GramOf(s1, s2)) == 0.6;
    SecondStartCase(s1, s2, Params(0.6, -0.6));
  }

  /** The other perpendicular pair: tc = -0.6 falls below 0, and the
      perpendicular from the start (3, 3, 0) of the second segment meets the
      first one at sc = 0.6, at squared distance 9. */
  lemma PerpendicularOverlapped(s1: Segment, s2: Segment)
    requires OverlappedPair(s1, s2)
    ensures !StrayBlockReached(s1, s2)
    ensures SquaredDistance(s1, s2) == Ok(9.0)
  {
    InitialOverlapped(s1, s2);
    ClosestOverlapped(s1, s2);
    OverlappedFromFacts(s1, s2);
  }
}
