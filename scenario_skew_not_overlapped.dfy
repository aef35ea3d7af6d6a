/** CASE_SKEW with CASE_NOT_OVERLAPPED (main.cpp:195-202).

    The pair is worked out in stages, one small lemma per step (products,
    parameters, point distances, case), which keeps each proof small for the
    solver. */
module SkewNotOverlappedCase {
  import opened Geom
  import opened SegmentDistance
  import opened ScenarioCases

  /** The first segment joins (0.0, 0.0, 0.0) to (5.0, 5.0, 0.0), the second (2.0, 3.0, 1.0) to (0.0, 5.0, 3.0). */
  predicate SkewNotOverlappedPair(s1: Segment, s2: Segment) {
    && s1.Valid() && s1.begPoint == Point(0.0, 0.0, 0.0) && s1.endPoint == Point(5.0, 5.0, 0.0)
    && s2.Valid() && s2.begPoint == Point(2.0, 3.0, 1.0) && s2.endPoint == Point(0.0, 5.0, 3.0)
  }

  lemma GramSkewNotOverlapped()
    ensures Dot(Vector(5.0, 5.0, 0.0), Vector(5.0, 5.0, 0.0)) == 50.0 && Dot(Vector(5.0, 5.0, 0.0), Vector(-2.0, 2.0, 2.0)) == 0.0
    ensures Dot(Vector(-2.0, 2.0, 2.0), Vector(-2.0, 2.0, 2.0)) == 12.0
    ensures Dot(Vector(5.0, 5.0, 0.0), Vector(-2.0, -3.0, -1.0)) == -25.0 && Dot(Vector(-2.0, 2.0, 2.0), Vector(-2.0, -3.0, -1.0)) == -4.0
  {
    assert Dot(Vector(5.0, 5.0, 0.0), Vector(5.0, 5.0, 0.0)) == 50.0;
    assert Dot(Vector(5.0, 5.0, 0.0), Vector(-2.0, 2.0, 2.0)) == 0.0;
    assert Dot(Vector(-2.0, 2.0, 2.0), Vector(-2.0, 2.0, 2.0)) == 12.0;
    assert Dot(Vector(5.0, 5.0, 0.0), Vector(-2.0, -3.0, -1.0)) == -25.0;
  }

  lemma ParamsSkewNotOverlapped()
    ensures Denominator(Gram(50.0, 0.0, 12.0, -25.0, -4.0)) == -600.0
    ensures NormalParams(Gram(50.0, 0.0, 12.0, -25.0, -4.0)) == Params(0.5, -1.0 / 3.0)
  {
  }

  lemma PairGramSkewNotOverlapped(s1: Segment, s2: Segment)
    requires SkewNotOverlappedPair(s1, s2)
    ensures GramOf(s1, s2) == Gram(50.0, 0.0, 12.0, -25.0, -4.0)
  {
    assert s1.vector == Vector(5.0, 5.0, 0.0) && s2.vector == Vector(-2.0, 2.0, 2.0);
    assert Offset(s1, s2) == Vector(-2.0, -3.0, -1.0);
    GramSkewNotOverlapped();
    GramFrom(s1, s2, Gram(50.0, 0.0, 12.0, -25.0, -4.0));
  }

  lemma GramParamsSkewNotOverlapped(s1: Segment, s2: Segment)
    requires GramOf(s1, s2) == Gram(50.0, 0.0, 12.0, -25.0, -4.0)
    ensures InitialParams(s1, s2) == Ok(Params(0.5, -1.0 / 3.0))
  {
    ParamsSkewNotOverlapped();
    SolvedLines(s1, s2, Gram(50.0, 0.0, 12.0, -25.0, -4.0));
  }

  lemma InitialSkewNotOverlapped(s1: Segment, s2: Segment)
    requires SkewNotOverlappedPair(s1, s2)
    ensures GramOf(s1, s2) == Gram(50.0, 0.0, 12.0, -25.0, -4.0)
    ensures InitialParams(s1, s2) == Ok(Params(0.5, -1.0 / 3.0))
  {
    PairGramSkewNotOverlapped(s1, s2);
    GramParamsSkewNotOverlapped(s1, s2);
  }

  lemma SAtStartValueSkewNotOverlapped()
    ensures SAtStart(Gram(50.0, 0.0, 12.0, -25.0, -4.0)) == 0.5
  {
  }

  lemma StartReprojectionSkewNotOverlapped(s1: Segment, s2: Segment)
    requires GramOf(s1, s2) == Gram(50.0, 0.0, 12.0, -25.0, -4.0)
    ensures 0.0 < -GramOf(s1, s2).uw < GramOf(s1, s2).uu && SAtStart(GramOf(s1, s2)) == 0.5
  {
    SAtStartValueSkewNotOverlapped();
  }

  lemma SkewNotOverlappedFromFacts(s1: Segment, s2: Segment)
    requires s1.Valid() && s2.Valid()
    requires InitialParams(s1, s2) == Ok(Params(0.5, -1.0 / 3.0))
    requires 0.0 < -GramOf(s1, s2).uw < GramOf(s1, s2).uu && SAtStart(GramOf(s1, s2)) == 0.5
    requires SqrDistAt(s1, s2, 0.5, 0.0) == 1.5
    ensures !StrayBlockReached(s1, s2)
    ensures SquaredDistance(s1, s2) == Ok(1.5)
    ensures IntendedSquaredDistance(s1, s2) == Ok(1.5)
  {
    NotStray(s1, s2, Params(0.5, -1.0 / 3.0));
    SecondStartCase(s1, s2, Params(0.5, -1.0 / 3.0));
    IntendedAgreesAtStartOfSecond(s1, s2);
  }

  lemma FirstPointLiteralSkewNotOverlapped()
    ensures Point(0.0, 0.0, 0.0).Add(Vector(5.0, 5.0, 0.0).Scale(0.5)) == Point(2.5, 2.5, 0.0)
  {
    assert Vector(5.0, 5.0, 0.0).Scale(0.5) == Vector(2.5, 2.5, 0.0);
  }

  lemma FirstPointSkewNotOverlapped(s1: Segment)
    requires s1.begPoint == Point(0.0, 0.0, 0.0) && s1.vector == Vector(5.0, 5.0, 0.0)
    ensures s1.PointAt(0.5) == Point(2.5, 2.5, 0.0)
  {
    FirstPointLiteralSkewNotOverlapped();
  }

  lemma SecondPointLiteralSkewNotOverlapped()
    ensures Point(2.0, 3.0, 1.0).Add(Vector(-2.0, 2.0, 2.0).Scale(0.0)) == Point(2.0, 3.0, 1.0)
  {
    assert Vector(-2.0, 2.0, 2.0).Scale(0.0) == Vector(0.0, 0.0, 0.0);
  }

  lemma SecondPointSkewNotOverlapped(s2: Segment)
    requires s2.begPoint == Point(2.0, 3.0, 1.0) && s2.vector == Vector(-2.0, 2.0, 2.0)
    ensures s2.PointAt(0.0) == Point(2.0, 3.0, 1.0)
  {
    SecondPointLiteralSkewNotOverlapped();
  }

  lemma PointDistanceSkewNotOverlapped()
    ensures SqrDist(Point(2.5, 2.5, 0.0), Point(2.0, 3.0, 1.0)) == 1.5
  {
    assert Sqr(2.5 - 2.0) == 0.25;
    assert Sqr(2.5 - 3.0) == 0.25;
    assert Sqr(0.0 - 1.0) == 1.0;
  }

  lemma ProjectionSkewNotOverlapped(s1: Segment, s2: Segment)
    requires SqrDist(s1.PointAt(0.5), s2.PointAt(0.0)) == 1.5
    ensures SqrDistAt(s1, s2, 0.5, 0.0) == 1.5
  {
  }

  lemma ClosestSkewNotOverlapped(s1: Segment, s2: Segment)
    requires SkewNotOverlappedPair(s1, s2)
    ensures SqrDistAt(s1, s2, 0.5, 0.0) == 1.5
  {
    assert s1.vector == Vector(5.0, 5.0, 0.0) && s2.vector == Vector(-2.0, 2.0, 2.0);
    FirstPointSkewNotOverlapped(s1);
    SecondPointSkewNotOverlapped(s2);
    PointDistanceSkewNotOverlapped();
    ProjectionSkewNotOverlapped(s1, s2);
  }

  /** Skew segments whose common perpendicular misses `s2`: sc = 1/2 and
      tc = -1/3, so tc is clamped to 0 and the guard of main.cpp:93 admits the
      reprojection sc = -uw / uu = 1/2, the foot from the start (2, 3, 1) of
      `s2`; the squared distance is 3/2, and the intended solver agrees. */
  lemma SkewNotOverlappedDistance(s1: Segment, s2: Segment)
    requires SkewNotOverlappedPair(s1, s2)
    ensures !StrayBlockReached(s1, s2)
    ensures SquaredDistance(s1, s2) == Ok(1.5)
    ensures IntendedSquaredDistance(s1, s2) == Ok(1.5)
  {
    InitialSkewNotOverlapped(s1, s2);
    ClosestSkewNotOverlapped(s1, s2);
    StartReprojectionSkewNotOverlapped(s1, s2);
    SkewNotOverlappedFromFacts(s1, s2);
  }
}
