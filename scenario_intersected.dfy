/** CASE_INTERSECTED (main.cpp:141-148).

    The pair is worked out in stages, one small lemma per step (products,
    parameters, point distances, case), which keeps each proof small for the
    solver. */
module IntersectedCase {
  import opened Geom
  import opened SegmentDistance
  import opened ScenarioCases

  /** The first segment joins (0.0, 0.0, 0.0) to (2.0, 0.0, 0.0), the second (1.0, -1.0, 1.0) to (1.0, 1.0, -1.0). */
  predicate IntersectedPair(s1: Segment, s2: Segment) {
    && s1.Valid() && s1.begPoint == Point(0.0, 0.0, 0.0) && s1.endPoint == Point(2.0, 0.0, 0.0)
    && s2.Valid() && s2.begPoint == Point(1.0, -1.0, 1.0) && s2.endPoint == Point(1.0, 1.0, -1.0)
  }

  lemma GramIntersected()
    ensures Dot(Vector(2.0, 0.0, 0.0), Vector(2.0, 0.0, 0.0)) == 4.0 && Dot(Vector(2.0, 0.0, 0.0), Vector(0.0, 2.0, -2.0)) == 0.0
    ensures Dot(Vector(0.0, 2.0, -2.0), Vector(0.0, 2.0, -2.0)) == 8.0
    ensures Dot(Vector(2.0, 0.0, 0.0), Vector(-1.0, 1.0, -1.0)) == -2.0 && Dot(Vector(0.0, 2.0, -2.0), Vector(-1.0, 1.0, -1.0)) == 4.0
  {
    assert Dot(Vector(2.0, 0.0, 0.0), Vector(2.0, 0.0, 0.0)) == 4.0;
    assert Dot(Vector(2.0, 0.0, 0.0), Vector(0.0, 2.0, -2.0)) == 0.0;
    assert Dot(Vector(0.0, 2.0, -2.0), Vector(0.0, 2.0, -2.0)) == 8.0;
    assert Dot(Vector(2.0, 0.0, 0.0), Vector(-1.0, 1.0, -1.0)) == -2.0;
  }

  lemma ParamsIntersected()
    ensures Denominator(Gram(4.0, 0.0, 8.0, -2.0, 4.0)) == -32.0
    ensures NormalParams(Gram(4.0, 0.0, 8.0, -2.0, 4.0)) == Params(0.5, 0.5)
  {
  }

  lemma PairGramIntersected(s1: Segment, s2: Segment)
    requires IntersectedPair(s1, s2)
    ensures GramOf(s1, s2) == Gram(4.0, 0.0, 8.0, -2.0, 4.0)
  {
    assert s1.vector == Vector(2.0, 0.0, 0.0) && s2.vector == Vector(0.0, 2.0, -2.0);
    assert Offset(s1, s2) == Vector(-1.0, 1.0, -1.0);
    GramIntersected();
    GramFrom(s1, s2, Gram(4.0, 0.0, 8.0, -2.0, 4.0));
  }

  lemma GramParamsIntersected(s1: Segment, s2: Segment)
    requires GramOf(s1, s2) == Gram(4.0, 0.0, 8.0, -2.0, 4.0)
    ensures InitialParams(s1, s2) == Ok(Params(0.5, 0.5))
  {
    ParamsIntersected();
    SolvedLines(s1, s2, Gram(4.0, 0.0, 8.0, -2.0, 4.0));
  }

  lemma InitialIntersected(s1: Segment, s2: Segment)
    requires IntersectedPair(s1, s2)
    ensures GramOf(s1, s2) == Gram(4.0, 0.0, 8.0, -2.0, 4.0)
    ensures InitialParams(s1, s2) == Ok(Params(0.5, 0.5))
  {
    PairGramIntersected(s1, s2);
    GramParamsIntersected(s1, s2);
  }

  lemma IntersectedFromFacts(s1: Segment, s2: Segment)
    requires s1.Valid() && s2.Valid()
    requires InitialParams(s1, s2) == Ok(Params(0.5, 0.5))
    requires SqrDistAt(s1, s2, 0.5, 0.5) == 0.0
    ensures !StrayBlockReached(s1, s2)
    ensures SquaredDistance(s1, s2) == Ok(0.0)
  {
    NotStray(s1, s2, Params(0.5, 0.5));
    InteriorCase(s1, s2, Params(0.5, 0.5));
  }

  lemma FirstPointLiteralIntersected()
    ensures Point(0.0, 0.0, 0.0).Add(Vector(2.0, 0.0, 0.0).Scale(0.5)) == Point(1.0, 0.0, 0.0)
  {
    assert Vector(2.0, 0.0, 0.0).Scale(0.5) == Vector(1.0, 0.0, 0.0);
  }

  lemma FirstPointIntersected(s1: Segment)
    requires s1.begPoint == Point(0.0, 0.0, 0.0) && s1.vector == Vector(2.0, 0.0, 0.0)
    ensures s1.PointAt(0.5) == Point(1.0, 0.0, 0.0)
  {
    FirstPointLiteralIntersected();
  }

  lemma SecondPointLiteralIntersected()
    ensures Point(1.0, -1.0, 1.0).Add(Vector(0.0, 2.0, -2.0).Scale(0.5)) == Point(1.0, 0.0, 0.0)
  {
    assert Vector(0.0, 2.0, -2.0).Scale(0.5) == Vector(0.0, 1.0, -1.0);
  }

  lemma SecondPointIntersected(s2: Segment)
    requires s2.begPoint == Point(1.0, -1.0, 1.0) && s2.vector == Vector(0.0, 2.0, -2.0)
    ensures s2.PointAt(0.5) == Point(1.0, 0.0, 0.0)
  {
    SecondPointLiteralIntersected();
  }

  lemma PointDistanceIntersected()
    ensures SqrDist(Point(1.0, 0.0, 0.0), Point(1.0, 0.0, 0.0)) == 0.0
  {

  }

  lemma ProjectionIntersected(s1: Segment, s2: Segment)
    requires SqrDist(s1.PointAt(0.5), s2.PointAt(0.5)) == 0.0
    ensures SqrDistAt(s1, s2, 0.5, 0.5) == 0.0
  {
  }

  lemma ClosestIntersected(s1: Segment, s2: Segment)
    requires IntersectedPair(s1, s2)
    ensures SqrDistAt(s1, s2, 0.5, 0.5) == 0.0
  {
    assert s1.vector == Vector(2.0, 0.0, 0.0) && s2.vector == Vector(0.0, 2.0, -2.0);
    FirstPointIntersected(s1);
    SecondPointIntersected(s2);
    PointDistanceIntersected();
    ProjectionIntersected(s1, s2);
  }

  /** Two segments that cross at (1, 0, 0): the normal equations give
      sc = tc = 1/2, inside both segments, and the distance is 0. */
  lemma IntersectedDistance(s1: Segment, s2: Segment)
    requires IntersectedPair(s1, s2)
    ensures !StrayBlockReached(s1, s2)
    ensures SquaredDistance(s1, s2) == Ok(0.0)
  {
    InitialIntersected(s1, s2);
    ClosestIntersected(s1, s2);
    IntersectedFromFacts(s1, s2);
  }
}
