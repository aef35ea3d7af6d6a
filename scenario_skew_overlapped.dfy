/** CASE_SKEW with CASE_OVERLAPPED (main.cpp:186-193).

    The pair is worked out in stages, one small lemma per step (products,
    parameters, point distances, case), which keeps each proof small for the
    solver. */
module SkewOverlappedCase {
  import opened Geom
  import opened SegmentDistance
  import opened ScenarioCases

  /** The first segment joins (0.0, 0.0, 0.0) to (5.0, 5.0, 0.0), the second (5.0, 0.0, 1.0) to (0.0, 5.0, 3.0). */
  predicate SkewOverlappedPair(s1: Segment, s2: Segment) {
    && s1.Valid() && s1.begPoint == Point(0.0, 0.0, 0.0) && s1.endPoint == Point(5.0, 5.0, 0.0)
    && s2.Valid() && s2.begPoint == Point(5.0, 0.0, 1.0) && s2.endPoint == Point(0.0, 5.0, 3.0)
  }

  lemma GramSkewOverlapped()
    ensures Dot(Vector(5.0, 5.0, 0.0), Vector(5.0, 5.0, 0.0)) == 50.0 && Dot(Vector(5.0, 5.0, 0.0), Vector(-5.0, 5.0, 2.0)) == 0.0
    ensures Dot(Vector(-5.0, 5.0, 2.0), Vector(-5.0, 5.0, 2.0)) == 54.0
    ensures Dot(Vector(5.0, 5.0, 0.0), Vector(-5.0, 0.0, -1.0)) == -25.0 && Dot(Vector(-5.0, 5.0, 2.0), Vector(-5.0, 0.0, -1.0)) == 23.0
  {
    assert Dot(Vector(5.0, 5.0, 0.0), Vector(5.0, 5.0, 0.0)) == 50.0;
    assert Dot(Vector(5.0, 5.0, 0.0), Vector(-5.0, 5.0, 2.0)) == 0.0;
    assert Dot(Vector(-5.0, 5.0, 2.0), Vector(-5.0, 5.0, 2.0)) == 54.0;
    assert Dot(Vector(5.0, 5.0, 0.0), Vector(-5.0, 0.0, -1.0)) == -25.0;
  }

  lemma ParamsSkewOverlapped()
    ensures Denominator(Gram(50.0, 0.0, 54.0, -25.0, 23.0)) == -2700.0
    ensures NormalParams(Gram(50.0, 0.0, 54.0, -25.0, 23.0)) == Params(0.5, 23.0 / 54.0)
  {
  }

  lemma PairGramSkewOverlapped(s1: Segment, s2: Segment)
    requires SkewOverlappedPair(s1, s2)
    ensures GramOf(s1, s2) == Gram(50.0, 0.0, 54.0, -25.0, 23.0)
  {
    assert s1.vector == Vector(5.0, 5.0, 0.0) && s2.vector == Vector(-5.0, 5.0, 2.0);
    assert Offset(s1, s2) == Vector(-5.0, 0.0, -1.0);
    GramSkewOverlapped();
    GramFrom(s1, s2, Gram(50.0, 0.0, 54.0, -25.0, 23.0));
  }

  lemma GramParamsSkewOverlapped(s1: Segment, s2: Segment)
    requires GramOf(s1, s2) == Gram(50.0, 0.0, 54.0, -25.0, 23.0)
    ensures InitialParams(s1, s2) == Ok(Params(0.5, 23.0 / 54.0))
  {
    ParamsSkewOverlapped();
    SolvedLines(s1, s2, Gram(50.0, 0.0, 54.0, -25.0, 23.0));
  }

  lemma InitialSkewOverlapped(s1: Segment, s2: Segment)
    requires SkewOverlappedPair(s1, s2)
    ensures GramOf(s1, s2) == Gram(50.0, 0.0, 54.0, -25.0, 23.0)
    ensures InitialParams(s1, s2) == Ok(Params(0.5, 23.0 / 54.0))
  {
    PairGramSkewOverlapped(s1, s2);
    GramParamsSkewOverlapped(s1, s2);
  }

  lemma SkewOverlappedFromFacts(s1: Segment, s2: Segment)
    requires s1.Valid() && s2.Valid()
    requires InitialParams(s1, s2) == Ok(Params(0.5, 23.0 / 54.0))
    requires SqrDistAt(s1, s2, 0.5, 23.0 / 54.0) == 100.0 / 27.0
    ensures !StrayBlockReached(s1, s2)
    ensures SquaredDistance(s1, s2) == Ok(100.0 / 27.0)
  {
    NotStray(s1, s2, Params(0.5, 23.0 / 54.0));
    InteriorCase(s1, s2, Params(0.5, 23.0 / 54.0));
  }

  lemma FirstPointLiteralSkewOverlapped()
    ensures Point(0.0, 0.0, 0.0).Add(Vector(5.0, 5.0, 0.0).Scale(0.5)) == Point(2.5, 2.5, 0.0)
  {
    assert Vector(5.0, 5.0, 0.0).Scale(0.5) == Vector(2.5, 2.5, 0.0);
  }

  lemma FirstPointSkewOverlapped(s1: Segment)
    requires s1.begPoint == Point(0.0, 0.0, 0.0) && s1.vector == Vector(5.0, 5.0, 0.0)
    ensures s1.PointAt(0.5) == Point(2.5, 2.5, 0.0)
  {
    FirstPointLiteralSkewOverlapped();
  }

  lemma SecondPointLiteralSkewOverlapped()
    ensures Point(5.0, 0.0, 1.0).Add(Vector(-5.0, 5.0, 2.0).Scale(23.0 / 54.0)) == Point(155.0 / 54.0, 115.0 / 54.0, 50.0 / 27.0)
  {
    assert Vector(-5.0, 5.0, 2.0).Scale(23.0 / 54.0) == Vector(-115.0 / 54.0, 115.0 / 54.0, 23.0 / 27.0);
  }

  lemma SecondPointSkewOverlapped(s2: Segment)
    requires s2.begPoint == Point(5.0, 0.0, 1.0) && s2.vector == Vector(-5.0, 5.0, 2.0)
    ensures s2.PointAt(23.0 / 54.0) == Point(155.0 / 54.0, 115.0 / 54.0, 50.0 / 27.0)
  {
    SecondPointLiteralSkewOverlapped();
  }

  lemma PointDistanceSkewOverlapped()
    ensures SqrDist(Point(2.5, 2.5, 0.0), Point(155.0 / 54.0, 115.0 / 54.0, 50.0 / 27.0)) == 100.0 / 27.0
  {
    assert Sqr(2.5 - 155.0 / 54.0) == 100.0 / 729.0;
    assert Sqr(2.5 - 115.0 / 54.0) == 100.0 / 729.0;
    assert Sqr(0.0 - 50.0 / 27.0) == 2500.0 / 729.0;
  }

  lemma ProjectionSkewOverlapped(s1: Segment, s2: Segment)
    requires SqrDist(s1.PointAt(0.5), s2.PointAt(23.0 / 54.0)) == 100.0 / 27.0
    ensures SqrDistAt(s1, s2, 0.5, 23.0 / 54.0) == 100.0 / 27.0
  {
  }

  lemma ClosestSkewOverlapped(s1: Segment, s2: Segment)
    requires SkewOverlappedPair(s1, s2)
    ensures SqrDistAt(s1, s2, 0.5, 23.0 / 54.0) == 100.0 / 27.0
  {
    assert s1.vector == Vector(5.0, 5.0, 0.0) && s2.vector == Vector(-5.0, 5.0, 2.0);
    FirstPointSkewOverlapped(s1);
    SecondPointSkewOverlapped(s2);
    PointDistanceSkewOverlapped();
    ProjectionSkewOverlapped(s1, s2);
  }

  /** Skew segments whose common perpendicular joins interior points: the
      normal equations give sc = 1/2, tc = 23/54, and the squared distance is
      100/27. */
  lemma SkewOverlappedDistance(s1: Segment, s2: Segment)
    requires SkewOverlappedPair(s1, s2)
    ensures !StrayBlockReached(s1, s2)
    ensures SquaredDistance(s1, s2) == Ok(100.0 / 27.0)
  {
    InitialSkewOverlapped(s1, s2);
    ClosestSkewOverlapped(s1, s2);
    SkewOverlappedFromFacts(s1, s2);
  }
}
