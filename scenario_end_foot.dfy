/** A pair on which the reprojection of main.cpp:80-82 misses the foot.

    The pair is worked out in stages, one small lemma per step (products,
    parameters, point distances, case), which keeps each proof small for the
    solver. */
module EndFootCase {
  import opened Geom
  import opened SegmentDistance
  import opened ScenarioCases

  /** The first segment joins (0.0, 0.0, 0.0) to (1.0, 0.0, 0.0), the second (0.0, 2.0, 1.0) to (2.0, 1.0, 1.0). */
  predicate EndFootPair(s1: Segment, s2: Segment) {
    && s1.Valid() && s1.begPoint == Point(0.0, 0.0, 0.0) && s1.endPoint == Point(1.0, 0.0, 0.0)
    && s2.Valid() && s2.begPoint == Point(0.0, 2.0, 1.0) && s2.endPoint == Point(2.0, 1.0, 1.0)
  }

  lemma GramEndFoot()
    ensures Dot(Vector(1.0, 0.0, 0.0), Vector(1.0, 0.0, 0.0)) == 1.0 && Dot(Vector(1.0, 0.0, 0.0), Vector(2.0, -1.0, 0.0)) == 2.0
    ensures Dot(Vector(2.0, -1.0, 0.0), Vector(2.0, -1.0, 0.0)) == 5.0
    ensures Dot(Vector(1.0, 0.0, 0.0), Vector(0.0, -2.0, -1.0)) == 0.0 && Dot(Vector(2.0, -1.0, 0.0), Vector(0.0, -2.0, -1.0)) == 2.0
  {
    assert Dot(Vector(1.0, 0.0, 0.0), Vector(1.0, 0.0, 0.0)) == 1.0;
    assert Dot(Vector(1.0, 0.0, 0.0), Vector(2.0, -1.0, 0.0)) == 2.0;
    assert Dot(Vector(2.0, -1.0, 0.0), Vector(2.0, -1.0, 0.0)) == 5.0;
    assert Dot(Vector(1.0, 0.0, 0.0), Vector(0.0, -2.0, -1.0)) == 0.0;
  }

  lemma ParamsEndFoot()
    ensures Denominator(Gram(1.0, 2.0, 5.0, 0.0, 2.0)) == -1.0
    ensures NormalParams(Gram(1.0, 2.0, 5.0, 0.0, 2.0)) == Params(4.0, 2.0)
  {
  }

  lemma PairGramEndFoot(s1: Segment, s2: Segment)
    requires EndFootPair(s1, s2)
    ensures GramOf(s1, s2) == Gram(1.0, 2.0, 5.0, 0.0, 2.0)
  {
    assert s1.vector == Vector(1.0, 0.0, 0.0) && s2.vector == Vector(2.0, -1.0, 0.0);
    assert Offset(s1, s2) == Vector(0.0, -2.0, -1.0);
    GramEndFoot();
    GramFrom(s1, s2, Gram(1.0, 2.0, 5.0, 0.0, 2.0));
  }

  lemma GramParamsEndFoot(s1: Segment, s2: Segment)
    requires GramOf(s1, s2) == Gram(1.0, 2.0, 5.0, 0.0, 2.0)
    ensures InitialParams(s1, s2) == Ok(Params(4.0, 2.0))
  {
    ParamsEndFoot();
    SolvedLines(s1, s2, Gram(1.0, 2.0, 5.0, 0.0, 2.0));
  }

  lemma InitialEndFoot(s1: Segment, s2: Segment)
    requires EndFootPair(s1, s2)
    ensures GramOf(s1, s2) == Gram(1.0, 2.0, 5.0, 0.0, 2.0)
    ensures InitialParams(s1, s2) == Ok(Params(4.0, 2.0))
  {
    PairGramEndFoot(s1, s2);
    GramParamsEndFoot(s1, s2);
  }

  lemma EndFootFromFacts(s1: Segment, s2: Segment)
    requires s1.Valid() && s2.Valid()
    requires GramOf(s1, s2) == Gram(1.0, 2.0, 5.0, 0.0, 2.0)
    requires InitialParams(s1, s2) == Ok(Params(4.0, 2.0))
    ensures !StrayBlockReached(s1, s2)
    ensures SquaredDistance(s1, s2) == Ok(SqrDistAt(s1, s2, 1.0, 0.5))
  {
    FirstEndCase(s1, s2, Params(4.0, 2.0));
  }

  lemma ReprojectedPointEndFoot()
    ensures Point(0.0, 2.0, 1.0).Add(Vector(2.0, -1.0, 0.0).Scale(0.5)) == Point(1.0, 1.5, 1.0)
  {
    assert Vector(2.0, -1.0, 0.0).Scale(0.5) == Vector(1.0, -0.5, 0.0);
  }

  lemma ReprojectedEndFoot(s2: Segment)
    requires s2.begPoint == Point(0.0, 2.0, 1.0) && s2.vector == Vector(2.0, -1.0, 0.0)
    ensures s2.PointAt(0.5) == Point(1.0, 1.5, 1.0)
  {
    ReprojectedPointEndFoot();
  }

  lemma FootPointEndFoot()
    ensures Point(0.0, 2.0, 1.0).Add(Vector(2.0, -1.0, 0.0).Scale(0.8)) == Point(1.6, 1.2, 1.0)
  {
    assert Vector(2.0, -1.0, 0.0).Scale(0.8) == Vector(1.6, -0.8, 0.0);
  }

  lemma FootEndFoot(s2: Segment)
    requires s2.begPoint == Point(0.0, 2.0, 1.0) && s2.vector == Vector(2.0, -1.0, 0.0)
    ensures s2.PointAt(0.8) == Point(1.6, 1.2, 1.0)
  {
    FootPointEndFoot();
  }

  lemma ReprojectedDistanceEndFoot()
    ensures SqrDist(Point(1.0, 0.0, 0.0), Point(1.0, 1.5, 1.0)) == 3.25
  {
    assert Sqr(1.0 - 1.0) == 0.0;
    assert Sqr(0.0 - 1.5) == 2.25;
    assert Sqr(0.0 - 1.0) == 1.0;
  }

  lemma FootDistanceEndFoot()
    ensures SqrDist(Point(1.0, 0.0, 0.0), Point(1.6, 1.2, 1.0)) == 2.8
  {
    assert Sqr(1.0 - 1.6) == 0.36;
    assert Sqr(0.0 - 1.2) == 1.44;
    assert Sqr(0.0 - 1.0) == 1.0;
  }

  lemma ReprojectedProjectionEndFoot(s1: Segment, s2: Segment)
    requires SqrDist(s1.PointAt(1.0), s2.PointAt(0.5)) == 3.25
    ensures SqrDistAt(s1, s2, 1.0, 0.5) == 3.25
  {
  }

  lemma FootProjectionEndFoot(s1: Segment, s2: Segment)
    requires SqrDist(s1.PointAt(1.0), s2.PointAt(0.8)) == 2.8
    ensures SqrDistAt(s1, s2, 1.0, 0.8) == 2.8
  {
  }

  lemma ReturnedEndFoot(s1: Segment, s2: Segment)
    requires EndFootPair(s1, s2)
    ensures SqrDistAt(s1, s2, 1.0, 0.5) == 3.25
  {
    assert s2.vector == Vector(2.0, -1.0, 0.0);
    ReprojectedEndFoot(s2);
    ReprojectedDistanceEndFoot();
    ReprojectedProjectionEndFoot(s1, s2);
  }

  lemma NearestEndFoot(s1: Segment, s2: Segment)
    requires EndFootPair(s1, s2)
    ensures SqrDistAt(s1, s2, 1.0, 0.8) == 2.8
  {
    assert s2.vector == Vector(2.0, -1.0, 0.0);
    FootEndFoot(s2);
    FootDistanceEndFoot();
    FootProjectionEndFoot(s1, s2);
  }

  lemma FootValueEndFoot()
    ensures FootOnSecond(Gram(1.0, 2.0, 5.0, 0.0, 2.0), 1.0) == 0.8
  {
  }

  lemma CorrectedEndFoot(s1: Segment, s2: Segment)
    requires EndFootPair(s1, s2)
    ensures GramOf(s1, s2).vv > 0.0 && FootOnSecond(GramOf(s1, s2), 1.0) == 0.8
  {
    InitialEndFoot(s1, s2);
    FootValueEndFoot();
  }

  lemma IntendedFromFactsEndFoot(s1: Segment, s2: Segment)
    requires s1.Valid() && s2.Valid()
    requires InitialParams(s1, s2) == Ok(Params(4.0, 2.0))
    requires GramOf(s1, s2).vv > 0.0 && FootOnSecond(GramOf(s1, s2), 1.0) == 0.8
    requires SqrDistAt(s1, s2, 1.0, 0.8) == 2.8
    ensures IntendedSquaredDistance(s1, s2) == Ok(2.8)
  {
    assert Clamp(4.0) == 1.0;
    IntendedOntoSecondAt(s1, s2, Params(4.0, 2.0), 0.8, 2.8);
  }

  lemma IntendedEndFoot(s1: Segment, s2: Segment)
    requires EndFootPair(s1, s2)
    ensures IntendedSquaredDistance(s1, s2) == Ok(2.8)
  {
    InitialEndFoot(s1, s2);
    CorrectedEndFoot(s1, s2);
    NearestEndFoot(s1, s2);
    IntendedFromFactsEndFoot(s1, s2);
  }

  lemma SolverEndFoot(s1: Segment, s2: Segment)
    requires EndFootPair(s1, s2)
    ensures !StrayBlockReached(s1, s2)
    ensures SquaredDistance(s1, s2) == Ok(3.25)
  {
    InitialEndFoot(s1, s2);
    EndFootFromFacts(s1, s2);
    ReturnedEndFoot(s1, s2);
  }

  /** The reprojection of main.cpp:80-82 misses the foot of the
      perpendicular: sc = 4 is clamped to 1 and the guard of line 80 holds,
      so the solver sets tc = (uu + uw) / uv = 0.5 and returns 3.25, yet the
      foot from the end of `s1` onto `s2` lies at tc = (uv + vw) / vv = 0.8,
      at squared distance 2.8, which the intended solver returns. */
  lemma EndOfFirstMissesFoot(s1: Segment, s2: Segment)
    requires EndFootPair(s1, s2)
    ensures !StrayBlockReached(s1, s2)
    ensures SquaredDistance(s1, s2) == Ok(3.25)
    ensures GramOf(s1, s2).vv > 0.0 && FootOnSecond(GramOf(s1, s2), 1.0) == 0.8
    ensures IntendedSquaredDistance(s1, s2) == Ok(2.8)
  {
    SolverEndFoot(s1, s2);
    CorrectedEndFoot(s1, s2);
    IntendedEndFoot(s1, s2);
  }
}
