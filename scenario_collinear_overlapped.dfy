/** CASE_COLLINEAR with CASE_OVERLAPPED (main.cpp:204-211).

    The pair is worked out in stages, one small lemma per step (products,
    parameters, point distances, case), which keeps each proof small for the
    solver. */
module CollinearOverlappedCase {
  import opened Geom
  import opened SegmentDistance
  import opened ScenarioCases

  /** The first segment joins (0.0, 0.0, 0.0) to (5.0, 0.0, 0.0), the second (2.0, 0.0, 0.0) to (8.0, 0.0, 0.0). */
  predicate CollinearOverlappedPair(s1: Segment, s2: Segment) {
    && s1.Valid() && s1.begPoint == Point(0.0, 0.0, 0.0) && s1.endPoint == Point(5.0, 0.0, 0.0)
    && s2.Valid() && s2.begPoint == Point(2.0, 0.0, 0.0) && s2.endPoint == Point(8.0, 0.0, 0.0)
  }

  lemma GramCollinearOverlapped()
    ensures Dot(Vector(5.0, 0.0, 0.0), Vector(5.0, 0.0, 0.0)) == 25.0 && Dot(Vector(5.0, 0.0, 0.0), Vector(6.0, 0.0, 0.0)) == 30.0
    ensures Dot(Vector(6.0, 0.0, 0.0), Vector(6.0, 0.0, 0.0)) == 36.0
    ensures Dot(Vector(5.0, 0.0, 0.0), Vector(-2.0, 0.0, 0.0)) == -10.0 && Dot(Vector(6.0, 0.0, 0.0), Vector(-2.0, 0.0, 0.0)) == -12.0
  {
    assert Dot(Vector(5.0, 0.0, 0.0), Vector(5.0, 0.0, 0.0)) == 25.0;
    assert Dot(Vector(5.0, 0.0, 0.0), Vector(6.0, 0.0, 0.0)) == 30.0;
    assert Dot(Vector(6.0, 0.0, 0.0), Vector(6.0, 0.0, 0.0)) == 36.0;
    assert Dot(Vector(5.0, 0.0, 0.0), Vector(-2.0, 0.0, 0.0)) == -10.0;
  }

  lemma ParamsCollinearOverlapped()
    ensures Denominator(Gram(25.0, 30.0, 36.0, -10.0, -12.0)) == 0.0
    ensures ParallelParams(Gram(25.0, 30.0, 36.0, -10.0, -12.0)) == Ok(Params(0.4, 0.0))
  {
  }

  lemma PairGramCollinearOverlapped(s1: Segment, s2: Segment)
    requires CollinearOverlappedPair(s1, s2)
    ensures GramOf(s1, s2) == Gram(25.0, 30.0, 36.0, -10.0, -12.0)
  {
    assert s1.vector == Vector(5.0, 0.0, 0.0) && s2.vector == Vector(6.0, 0.0, 0.0);
    assert Offset(s1, s2) == Vector(-2.0, 0.0, 0.0);
    GramCollinearOverlapped();
    GramFrom(s1, s2, Gram(25.0, 30.0, 36.0, -10.0, -12.0));
  }

  lemma GramParamsCollinearOverlapped(s1: Segment, s2: Segment)
    requires GramOf(s1, s2) == Gram(25.0, 30.0, 36.0, -10.0, -12.0)
    ensures InitialParams(s1, s2) == Ok(Params(0.4, 0.0))
  {
    ParamsCollinearOverlapped();
    ParallelLines(s1, s2, Gram(25.0, 30.0, 36.0, -10.0, -12.0), Params(0.4, 0.0));
  }

  lemma InitialCollinearOverlapped(s1: Segment, s2: Segment)
    requires CollinearOverlappedPair(s1, s2)
    ensures GramOf(s1, s2) == Gram(25.0, 30.0, 36.0, -10.0, -12.0)
    ensures InitialParams(s1, s2) == Ok(Params(0.4, 0.0))
  {
    PairGramCollinearOverlapped(s1, s2);
    GramParamsCollinearOverlapped(s1, s2);
  }

  lemma CollinearOverlappedFromFacts(s1: Segment, s2: Segment)
    requires s1.Valid() && s2.Valid()
    requires InitialParams(s1, s2) == Ok(Params(0.4, 0.0))
    requires SqrDistAt(s1, s2, 0.4, 0.0) == 0.0
    ensures !StrayBlockReached(s1, s2)
    ensures SquaredDistance(s1, s2) == Ok(0.0)
  {
    NotStray(s1, s2, Params(0.4, 0.0));
    InteriorCase(s1, s2, Params(0.4, 0.0));
  }

  lemma FirstPointLiteralCollinearOverlapped()
    ensures Point(0.0, 0.0, 0.0).Add(Vector(5.0, 0.0, 0.0).Scale(0.4)) == Point(2.0, 0.0, 0.0)
  {
    assert Vector(5.0, 0.0, 0.0).Scale(0.4) == Vector(2.0, 0.0, 0.0);
  }

  lemma FirstPointCollinearOverlapped(s1: Segment)
    requires s1.begPoint == Point(0.0, 0.0, 0.0) && s1.vector == Vector(5.0, 0.0, 0.0)
    ensures s1.PointAt(0.4) == Point(2.0, 0.0, 0.0)
  {
    FirstPointLiteralCollinearOverlapped();
  }

  lemma SecondPointLiteralCollinearOverlapped()
    ensures Point(2.0, 0.0, 0.0).Add(Vector(6.0, 0.0, 0.0).Scale(0.0)) == Point(2.0, 0.0, 0.0)
  {
    assert Vector(6.0, 0.0, 0.0).Scale(0.0) == Vector(0.0, 0.0, 0.0);
  }

  lemma SecondPointCollinearOverlapped(s2: Segment)
    requires s2.begPoint == Point(2.0, 0.0, 0.0) && s2.vector == Vector(6.0, 0.0, 0.0)
    ensures s2.PointAt(0.0) == Point(2.0, 0.0, 0.0)
  {
    SecondPointLiteralCollinearOverlapped();
  }

  lemma PointDistanceCollinearOverlapped()
    ensures SqrDist(Point(2.0, 0.0, 0.0), Point(2.0, 0.0, 0.0)) == 0.0
  {

  }

  lemma ProjectionCollinearOverlapped(s1: Segment, s2: Segment)
    requires SqrDist(s1.PointAt(0.4), s2.PointAt(0.0)) == 0.0
    ensures SqrDistAt(s1, s2, 0.4, 0.0) == 0.0
  {
  }

  lemma ClosestCollinearOverlapped(s1: Segment, s2: Segment)
    requires CollinearOverlappedPair(s1, s2)
    ensures SqrDistAt(s1, s2, 0.4, 0.0) == 0.0
  {
    assert s1.vector == Vector(5.0, 0.0, 0.0) && s2.vector == Vector(6.0, 0.0, 0.0);
    FirstPointCollinearOverlapped(s1);
    SecondPointCollinearOverlapped(s2);
    PointDistanceCollinearOverlapped();
    ProjectionCollinearOverlapped(s1, s2);
  }

  /** Collinear segments that overlap: the start (2, 0, 0) of `s2` lies on
      `s1` at sc = 2/5, and the distance is 0. */
  lemma CollinearOverlappedDistance(s1: Segment, s2: Segment)
    requires CollinearOverlappedPair(s1, s2)
    ensures !StrayBlockReached(s1, s2)
    ensures SquaredDistance(s1, s2) == Ok(0.0)
  {
    InitialCollinearOverlapped(s1, s2);
    ClosestCollinearOverlapped(s1, s2);
    CollinearOverlappedFromFacts(s1, s2);
  }
}
