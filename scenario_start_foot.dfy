/** A pair on which the reprojection of main.cpp:69-71 misses the foot.

    The pair is worked out in stages, one small lemma per step (products,
    parameters, point distances, case), which keeps each proof small for the
    solver. */
module StartFootCase {
  import opened Geom
  import opened SegmentDistance
  import opened ScenarioCases

  /** The first segment joins (0.0, 0.0, 0.0) to (1.0, 0.0, 0.0), the second (-1.0, 1.0, 0.0) to (1.0, 2.0, 0.0). */
  predicate StartFootPair(s1: Segment, s2: Segment) {
    && s1.Valid() && s1.begPoint == Point(0.0, 0.0, 0.0) && s1.endPoint == Point(1.0, 0.0, 0.0)
    && s2.Valid() && s2.begPoint == Point(-1.0, 1.0, 0.0) && s2.endPoint == Point(1.0, 2.0, 0.0)
  }

  lemma GramStartFoot()
    ensures Dot(Vector(1.0, 0.0, 0.0), Vector(1.0, 0.0, 0.0)) == 1.0 && Dot(Vector(1.0, 0.0, 0.0), Vector(2.0, 1.0, 0.0)) == 2.0
    ensures Dot(Vector(2.0, 1.0, 0.0), Vector(2.0, 1.0, 0.0)) == 5.0
    ensures Dot(Vector(1.0, 0.0, 0.0), Vector(1.0, -1.0, 0.0)) == 1.0 && Dot(Vector(2.0, 1.0, 0.0), Vector(1.0, -1.0, 0.0)) == 1.0
  {
    assert Dot(Vector(1.0, 0.0, 0.0), Vector(1.0, 0.0, 0.0)) == 1.0;
    assert Dot(Vector(1.0, 0.0, 0.0), Vector(2.0, 1.0, 0.0)) == 2.0;
    assert Dot(Vector(2.0, 1.0, 0.0), Vector(2.0, 1.0, 0.0)) == 5.0;
    assert Dot(Vector(1.0, 0.0, 0.0), Vector(1.0, -1.0, 0.0)) == 1.0;
  }

  lemma ParamsStartFoot()
    ensures Denominator(Gram(1.0, 2.0, 5.0, 1.0, 1.0)) == -1.0
    ensures NormalParams(Gram(1.0, 2.0, 5.0, 1.0, 1.0)) == Params(-3.0, -1.0)
  {
  }

  lemma PairGramStartFoot(s1: Segment, s2: Segment)
    requires StartFootPair(s1, s2)
    ensures GramOf(s1, s2) == Gram(1.0, 2.0, 5.0, 1.0, 1.0)
  {
    assert s1.vector == Vector(1.0, 0.0, 0.0) && s2.vector == Vector(2.0, 1.0, 0.0);
    assert Offset(s1, s2) == Vector(1.0, -1.0, 0.0);
    GramStartFoot();
    GramFrom(s1, s2, Gram(1.0, 2.0, 5.0, 1.0, 1.0));
  }

  lemma GramParamsStartFoot(s1: Segment, s2: Segment)
    requires GramOf(s1, s2) == Gram(1.0, 2.0, 5.0, 1.0, 1.0)
    ensures InitialParams(s1, s2) == Ok(Params(-3.0, -1.0))
  {
    ParamsStartFoot();
    SolvedLines(s1, s2, Gram(1.0, 2.0, 5.0, 1.0, 1.0));
  }

  lemma InitialStartFoot(s1: Segment, s2: Segment)
    requires StartFootPair(s1, s2)
    ensures GramOf(s1, s2) == Gram(1.0, 2.0, 5.0, 1.0, 1.0)
    ensures InitialParams(s1, s2) == Ok(Params(-3.0, -1.0))
  {
    PairGramStartFoot(s1, s2);
    GramParamsStartFoot(s1, s2);
  }

  lemma StartFootFromFacts(s1: Segment, s2: Segment)
    requires s1.Valid() && s2.Valid()
    requires GramOf(s1, s2) == Gram(1.0, 2.0, 5.0, 1.0, 1.0)
    requires InitialParams(s1, s2) == Ok(Params(-3.0, -1.0))
    ensures !StrayBlockReached(s1, s2)
    ensures SquaredDistance(s1, s2) == Ok(SqrDistAt(s1, s2, 0.0, 0.5))
  {
    FirstStartCase(s1, s2, Params(-3.0, -1.0));
  }

  lemma ReprojectedPointStartFoot()
    ensures Point(-1.0, 1.0, 0.0).Add(Vector(2.0, 1.0, 0.0).Scale(0.5)) == Point(0.0, 1.5, 0.0)
  {
    assert Vector(2.0, 1.0, 0.0).Scale(0.5) == Vector(1.0, 0.5, 0.0);
  }

  lemma ReprojectedStartFoot(s2: Segment)
    requires s2.begPoint == Point(-1.0, 1.0, 0.0) && s2.vector == Vector(2.0, 1.0, 0.0)
    ensures s2.PointAt(0.5) == Point(0.0, 1.5, 0.0)
  {
    ReprojectedPointStartFoot();
  }

  lemma FootPointStartFoot()
    ensures Point(-1.0, 1.0, 0.0).Add(Vector(2.0, 1.0, 0.0).Scale(0.2)) == Point(-0.6, 1.2, 0.0)
  {
    assert Vector(2.0, 1.0, 0.0).Scale(0.2) == Vector(0.4, 0.2, 0.0);
  }

  lemma FootStartFoot(s2: Segment)
    requires s2.begPoint == Point(-1.0, 1.0, 0.0) && s2.vector == Vector(2.0, 1.0, 0.0)
    ensures s2.PointAt(0.2) == Point(-0.6, 1.2, 0.0)
  {
    FootPointStartFoot();
  }

  lemma ReprojectedDistanceStartFoot()
    ensures SqrDist(Point(0.0, 0.0, 0.0), Point(0.0, 1.5, 0.0)) == 2.25
  {
    assert Sqr(0.0 - 0.0) == 0.0;
    assert Sqr(0.0 - 1.5) == 2.25;
    assert Sqr(0.0 - 0.0) == 0.0;
  }

  lemma FootDistanceStartFoot()
    ensures SqrDist(Point(0.0, 0.0, 0.0), Point(-0.6, 1.2, 0.0)) == 1.8
  {
    assert Sqr(0.0 - -0.6) == 0.36;
    assert Sqr(0.0 - 1.2) == 1.44;
    assert Sqr(0.0 - 0.0) == 0.0;
  }

  lemma ReprojectedProjectionStartFoot(s1: Segment, s2: Segment)
    requires SqrDist(s1.PointAt(0.0), s2.PointAt(0.5)) == 2.25
    ensures SqrDistAt(s1, s2, 0.0, 0.5) == 2.25
  {
  }

  lemma FootProjectionStartFoot(s1: Segment, s2: Segment)
    requires SqrDist(s1.PointAt(0.0), s2.PointAt(0.2)) == 1.8
    ensures SqrDistAt(s1, s2, 0.0, 0.2) == 1.8
  {
  }

  lemma ReturnedStartFoot(s1: Segment, s2: Segment)
    requires StartFootPair(s1, s2)
    ensures SqrDistAt(s1, s2, 0.0, 0.5) == 2.25
  {
    assert s2.vector == Vector(2.0, 1.0, 0.0);
    ReprojectedStartFoot(s2);
    ReprojectedDistanceStartFoot();
    ReprojectedProjectionStartFoot(s1, s2);
  }

  lemma NearestStartFoot(s1: Segment, s2: Segment)
    requires StartFootPair(s1, s2)
    ensures SqrDistAt(s1, s2, 0.0, 0.2) == 1.8
  {
    assert s2.vector == Vector(2.0, 1.0, 0.0);
    FootStartFoot(s2);
    FootDistanceStartFoot();
    FootProjectionStartFoot(s1, s2);
  }

  lemma FootValueStartFoot()
    ensures FootOnSecond(Gram(1.0, 2.0, 5.0, 1.0, 1.0), 0.0) == 0.2
  {
  }

  lemma CorrectedStartFoot(s1: Segment, s2: Segment)
    requires StartFootPair(s1, s2)
    ensures GramOf(s1, s2).vv > 0.0 && FootOnSecond(GramOf(s1, s2), 0.0) == 0.2
  {
    InitialStartFoot(s1, s2);
    FootValueStartFoot();
  }

  lemma IntendedFromFactsStartFoot(s1: Segment, s2: Segment)
    requires s1.Valid() && s2.Valid()
    requires InitialParams(s1, s2) == Ok(Params(-3.0, -1.0))
    requires GramOf(s1, s2).vv > 0.0 && FootOnSecond(GramOf(s1, s2), 0.0) == 0.2
    requires SqrDistAt(s1, s2, 0.0, 0.2) == 1.8
    ensures IntendedSquaredDistance(s1, s2) == Ok(1.8)
  {
    assert Clamp(-3.0) == 0.0;
    IntendedOntoSecondAt(s1, s2, Params(-3.0, -1.0), 0.2, 1.8);
  }

  lemma IntendedStartFoot(s1: Segment, s2: Segment)
    requires StartFootPair(s1, s2)
    ensures IntendedSquaredDistance(s1, s2) == Ok(1.8)
  {
    InitialStartFoot(s1, s2);
    CorrectedStartFoot(s1, s2);
    NearestStartFoot(s1, s2);
    IntendedFromFactsStartFoot(s1, s2);
  }

  lemma SolverStartFoot(s1: Segment, s2: Segment)
    requires StartFootPair(s1, s2)
    ensures !StrayBlockReached(s1, s2)
    ensures SquaredDistance(s1, s2) == Ok(2.25)
  {
    InitialStartFoot(s1, s2);
    StartFootFromFacts(s1, s2);
    ReturnedStartFoot(s1, s2);
  }

  /** The reprojection of main.cpp:69-71 misses the foot of the
      perpendicular: sc = -3 is clamped to 0 and the guard 0 < uw < uv holds,
      so the solver sets tc = uw / uv = 0.5 and returns 2.25, yet the foot
      from the start of `s1` onto `s2` lies at tc = vw / vv = 0.2, at
      squared distance 1.8, which the intended solver returns. */
  lemma StartOfFirstMissesFoot(s1: Segment, s2: Segment)
    requires StartFootPair(s1, s2)
    ensures !StrayBlockReached(s1, s2)
    ensures SquaredDistance(s1, s2) == Ok(2.25)
    ensures GramOf(s1, s2).vv > 0.0 && FootOnSecond(GramOf(s1, s2), 0.0) == 0.2
    ensures IntendedSquaredDistance(s1, s2) == Ok(1.8)
  {
    SolverStartFoot(s1, s2);
    CorrectedStartFoot(s1, s2);
    IntendedStartFoot(s1, s2);
  }
}
