/** A pair on which the unguarded block divides by zero.

    The pair is worked out in stages, one small lemma per step (products,
    parameters, point distances, case), which keeps each proof small for the
    solver. */
module ZeroDivisorCase {
  import opened Geom
  import opened SegmentDistance
  import opened ScenarioCases

  /** The first segment joins (0.0, 0.0, 0.0) to (5.0, 0.0, 0.0), the second (3.0, 8.0, 0.0) to (3.0, 3.0, 0.0). */
  predicate ZeroDivisorPair(s1: Segment, s2: Segment) {
    && s1.Valid() && s1.begPoint == Point(0.0, 0.0, 0.0) && s1.endPoint == Point(5.0, 0.0, 0.0)
    && s2.Valid() && s2.begPoint == Point(3.0, 8.0, 0.0) && s2.endPoint == Point(3.0, 3.0, 0.0)
  }

  lemma GramZeroDivisor()
    ensures Dot(Vector(5.0, 0.0, 0.0), Vector(5.0, 0.0, 0.0)) == 25.0 && Dot(Vector(5.0, 0.0, 0.0), Vector(0.0, -5.0, 0.0)) == 0.0
    ensures Dot(Vector(0.0, -5.0, 0.0), Vector(0.0, -5.0, 0.0)) == 25.0
    ensures Dot(Vector(5.0, 0.0, 0.0), Vector(-3.0, -8.0, 0.0)) == -15.0 && Dot(Vector(0.0, -5.0, 0.0), Vector(-3.0, -8.0, 0.0)) == 40.0
  {
    assert Dot(Vector(5.0, 0.0, 0.0), Vector(5.0, 0.0, 0.0)) == 25.0;
    assert Dot(Vector(5.0, 0.0, 0.0), Vector(0.0, -5.0, 0.0)) == 0.0;
    assert Dot(Vector(0.0, -5.0, 0.0), Vector(0.0, -5.0, 0.0)) == 25.0;
    assert Dot(Vector(5.0, 0.0, 0.0), Vector(-3.0, -8.0, 0.0)) == -15.0;
  }

  lemma ParamsZeroDivisor()
    ensures Denominator(Gram(25.0, 0.0, 25.0, -15.0, 40.0)) == -625.0
    ensures NormalParams(Gram(25.0, 0.0, 25.0, -15.0, 40.0)) == Params(0.6, 1.6)
  {
  }

  lemma PairGramZeroDivisor(s1: Segment, s2: Segment)
    requires ZeroDivisorPair(s1, s2)
    ensures GramOf(s1, s2) == Gram(25.0, 0.0, 25.0, -15.0, 40.0)
  {
    assert s1.vector == Vector(5.0, 0.0, 0.0) && s2.vector == Vector(0.0, -5.0, 0.0);
    assert Offset(s1, s2) == Vector(-3.0, -8.0, 0.0);
    GramZeroDivisor();
    GramFrom(s1, s2, Gram(25.0, 0.0, 25.0, -15.0, 40.0));
  }

  lemma GramParamsZeroDivisor(s1: Segment, s2: Segment)
    requires GramOf(s1, s2) == Gram(25.0, 0.0, 25.0, -15.0, 40.0)
    ensures InitialParams(s1, s2) == Ok(Params(0.6, 1.6))
  {
    ParamsZeroDivisor();
    SolvedLines(s1, s2, Gram(25.0, 0.0, 25.0, -15.0, 40.0));
  }

  lemma InitialZeroDivisor(s1: Segment, s2: Segment)
    requires ZeroDivisorPair(s1, s2)
    ensures GramOf(s1, s2) == Gram(25.0, 0.0, 25.0, -15.0, 40.0)
    ensures InitialParams(s1, s2) == Ok(Params(0.6, 1.6))
  {
    PairGramZeroDivisor(s1, s2);
    GramParamsZeroDivisor(s1, s2);
  }

  lemma CornerZeroDivisor1(s1: Segment, s2: Segment)
    requires ZeroDivisorPair(s1, s2)
    ensures SqrDist(s1.begPoint, s2.begPoint) == 73.0
  {
  }

  lemma CornerZeroDivisor2(s1: Segment, s2: Segment)
    requires ZeroDivisorPair(s1, s2)
    ensures SqrDist(s1.begPoint, s2.endPoint) == 18.0
  {
  }

  lemma CornerZeroDivisor3(s1: Segment, s2: Segment)
    requires ZeroDivisorPair(s1, s2)
    ensures SqrDist(s1.endPoint, s2.begPoint) == 68.0
  {
  }

  lemma CornerZeroDivisor4(s1: Segment, s2: Segment)
    requires ZeroDivisorPair(s1, s2)
    ensures SqrDist(s1.endPoint, s2.endPoint) == 13.0
  {
  }

  lemma CornersZeroDivisor(s1: Segment, s2: Segment)
    requires ZeroDivisorPair(s1, s2)
    ensures EndpointMin(s1, s2) == Min4(73.0, 18.0, 68.0, 13.0)
  {
    CornerZeroDivisor1(s1, s2);
    CornerZeroDivisor2(s1, s2);
    CornerZeroDivisor3(s1, s2);
    CornerZeroDivisor4(s1, s2);
    EndpointMinOf(s1, s2, 73.0, 18.0, 68.0, 13.0);
  }

  lemma ZeroDivisorStray(s1: Segment, s2: Segment)
    requires GramOf(s1, s2) == Gram(25.0, 0.0, 25.0, -15.0, 40.0)
    requires InitialParams(s1, s2) == Ok(Params(0.6, 1.6))
    ensures StrayBlockReached(s1, s2)
    ensures GramOf(s1, s2).uv == 0.0
  {
  }

  lemma ZeroDivisorFromFacts(s1: Segment, s2: Segment)
    requires s1.Valid() && s2.Valid()
    requires GramOf(s1, s2) == Gram(25.0, 0.0, 25.0, -15.0, 40.0)
    requires InitialParams(s1, s2) == Ok(Params(0.6, 1.6))
    requires EndpointMin(s1, s2) == 13.0
    ensures SquaredDistance(s1, s2) == Ok(13.0)
  {
    EndpointCase(s1, s2, Params(0.6, 1.6));
  }

  /** The stray `;` divides by zero: for the overlapped perpendicular pair
      with the second segment reversed, sc = 0.6 and tc = 1.6, so the block of
      main.cpp:105-108 runs with uv = 0 (the `ZeroDivisor(106)` fault of
      `DistanceAsWritten`).  With the guard in force the solver returns the
      endpoint distance 13. */
  lemma StrayZeroDivisor(s1: Segment, s2: Segment)
    requires ZeroDivisorPair(s1, s2)
    ensures StrayBlockReached(s1, s2)
    ensures GramOf(s1, s2).uv == 0.0
    ensures SquaredDistance(s1, s2) == Ok(13.0)
  {
    InitialZeroDivisor(s1, s2);
    CornersZeroDivisor(s1, s2);
    ZeroDivisorStray(s1, s2);
    ZeroDivisorFromFacts(s1, s2);
  }

  lemma FootZeroDivisor(s1: Segment)
    requires s1.begPoint == Point(0.0, 0.0, 0.0) && s1.vector == Vector(5.0, 0.0, 0.0)
    ensures s1.PointAt(0.6) == Point(3.0, 0.0, 0.0)
  {
  }

  lemma FootZeroDivisorDistance(s1: Segment, s2: Segment)
    requires s1.PointAt(0.6) == Point(3.0, 0.0, 0.0) && s2.PointAt(1.0) == Point(3.0, 3.0, 0.0)
    ensures SqrDist(s1.PointAt(0.6), s2.PointAt(1.0)) == 9.0
  {
  }

  lemma ProjectionZeroDivisor(s1: Segment, s2: Segment)
    requires SqrDist(s1.PointAt(0.6), s2.PointAt(1.0)) == 9.0
    ensures SqrDistAt(s1, s2, 0.6, 1.0) == 9.0
  {
  }

  lemma ClosestZeroDivisor(s1: Segment, s2: Segment)
    requires ZeroDivisorPair(s1, s2)
    ensures SqrDistAt(s1, s2, 0.6, 1.0) == 9.0
  {
    assert s1.vector == Vector(5.0, 0.0, 0.0);
    FootZeroDivisor(s1);
    FootZeroDivisorDistance(s1, s2);
    ProjectionZeroDivisor(s1, s2);
  }

  lemma FootValueZeroDivisor()
    ensures FootOnFirst(Gram(25.0, 0.0, 25.0, -15.0, 40.0), 1.0) == 0.6
  {
  }

  lemma CorrectedZeroDivisor(s1: Segment, s2: Segment)
    requires ZeroDivisorPair(s1, s2)
    ensures GramOf(s1, s2).uu > 0.0 && FootOnFirst(GramOf(s1, s2), 1.0) == 0.6
  {
    InitialZeroDivisor(s1, s2);
    FootValueZeroDivisor();
  }

  lemma IntendedFromFactsZeroDivisor(s1: Segment, s2: Segment)
    requires s1.Valid() && s2.Valid()
    requires InitialParams(s1, s2) == Ok(Params(0.6, 1.6))
    requires GramOf(s1, s2).uu > 0.0 && FootOnFirst(GramOf(s1, s2), 1.0) == 0.6
    requires SqrDistAt(s1, s2, 0.6, 1.0) == 9.0
    ensures IntendedSquaredDistance(s1, s2) == Ok(9.0)
  {
    assert Clamp(1.6) == 1.0;
    IntendedOntoFirstAt(s1, s2, Params(0.6, 1.6), 0.6, 9.0);
  }

  lemma IntendedZeroDivisor(s1: Segment, s2: Segment)
    requires ZeroDivisorPair(s1, s2)
    ensures IntendedSquaredDistance(s1, s2) == Ok(9.0)
  {
    InitialZeroDivisor(s1, s2);
    CorrectedZeroDivisor(s1, s2);
    ClosestZeroDivisor(s1, s2);
    IntendedFromFactsZeroDivisor(s1, s2);
  }

  /** The reprojection of main.cpp:104-106 misses the foot of the
      perpendicular: on the pair of `StrayZeroDivisor`, where tc = 1.6 is
      clamped to 1, sc = (vv - vw) / uv is undefined and the guarded solver
      falls back to the endpoint distance 13, yet the foot from the end
      (3, 3, 0) of `s2` onto `s1` lies at sc = (uv - uw) / uu = 0.6, at
      squared distance 9, which the intended solver returns. */
  lemma EndOfSecondMissesFoot(s1: Segment, s2: Segment)
    requires ZeroDivisorPair(s1, s2)
    ensures SquaredDistance(s1, s2) == Ok(13.0)
    ensures GramOf(s1, s2).uu > 0.0 && FootOnFirst(GramOf(s1, s2), 1.0) == 0.6
    ensures IntendedSquaredDistance(s1, s2) == Ok(9.0)
  {
    StrayZeroDivisor(s1, s2);
    CorrectedZeroDivisor(s1, s2);
    IntendedZeroDivisor(s1, s2);
  }
}
