/** A pair on which the unguarded block computes sc = -1/2.

    The pair is worked out in stages, one small lemma per step (products,
    parameters, point distances, case), which keeps each proof small for the
    solver. */
module OutOfRangeCase {
  import opened Geom
  import opened SegmentDistance
  import opened ScenarioCases

  /** The first segment joins (0.0, 0.0, 0.0) to (2.0, 0.0, 0.0), the second (-1.0, 2.0, 0.0) to (0.0, 1.0, 0.0). */
  predicate OutOfRangePair(s1: Segment, s2: Segment) {
    && s1.Valid() && s1.begPoint == Point(0.0, 0.0, 0.0) && s1.endPoint == Point(2.0, 0.0, 0.0)
    && s2.Valid() && s2.begPoint == Point(-1.0, 2.0, 0.0) && s2.endPoint == Point(0.0, 1.0, 0.0)
  }

  lemma GramOutOfRange()
    ensures Dot(Vector(2.0, 0.0, 0.0), Vector(2.0, 0.0, 0.0)) == 4.0 && Dot(Vector(2.0, 0.0, 0.0), Vector(1.0, -1.0, 0.0)) == 2.0
    ensures Dot(Vector(1.0, -1.0, 0.0), Vector(1.0, -1.0, 0.0)) == 2.0
    ensures Dot(Vector(2.0, 0.0, 0.0), Vector(1.0, -2.0, 0.0)) == 2.0 && Dot(Vector(1.0, -1.0, 0.0), Vector(1.0, -2.0, 0.0)) == 3.0
  {
    assert Dot(Vector(2.0, 0.0, 0.0), Vector(2.0, 0.0, 0.0)) == 4.0;
    assert Dot(Vector(2.0, 0.0, 0.0), Vector(1.0, -1.0, 0.0)) == 2.0;
    assert Dot(Vector(1.0, -1.0, 0.0), Vector(1.0, -1.0, 0.0)) == 2.0;
    assert Dot(Vector(2.0, 0.0, 0.0), Vector(1.0, -2.0, 0.0)) == 2.0;
  }

  lemma ParamsOutOfRange()
    ensures Denominator(Gram(4.0, 2.0, 2.0, 2.0, 3.0)) == -4.0
    ensures NormalParams(Gram(4.0, 2.0, 2.0, 2.0, 3.0)) == Params(0.5, 2.0)
  {
  }

  lemma PairGramOutOfRange(s1: Segment, s2: Segment)
    requires OutOfRangePair(s1, s2)
    ensures GramOf(s1, s2) == Gram(4.0, 2.0, 2.0, 2.0, 3.0)
  {
    assert s1.vector == Vector(2.0, 0.0, 0.0) && s2.vector == Vector(1.0, -1.0, 0.0);
    assert Offset(s1, s2) == Vector(1.0, -2.0, 0.0);
    GramOutOfRange();
    GramFrom(s1, s2, Gram(4.0, 2.0, 2.0, 2.0, 3.0));
  }

  lemma GramParamsOutOfRange(s1: Segment, s2: Segment)
    requires GramOf(s1, s2) == Gram(4.0, 2.0, 2.0, 2.0, 3.0)
    ensures InitialParams(s1, s2) == Ok(Params(0.5, 2.0))
  {
    ParamsOutOfRange();
    SolvedLines(s1, s2, Gram(4.0, 2.0, 2.0, 2.0, 3.0));
  }

  lemma InitialOutOfRange(s1: Segment, s2: Segment)
    requires OutOfRangePair(s1, s2)
    ensures GramOf(s1, s2) == Gram(4.0, 2.0, 2.0, 2.0, 3.0)
    ensures InitialParams(s1, s2) == Ok(Params(0.5, 2.0))
  {
    PairGramOutOfRange(s1, s2);
    GramParamsOutOfRange(s1, s2);
  }

  lemma CornerOutOfRange1(s1: Segment, s2: Segment)
    requires OutOfRangePair(s1, s2)
    ensures SqrDist(s1.begPoint, s2.begPoint) == 5.0
  {
  }

  lemma CornerOutOfRange2(s1: Segment, s2: Segment)
    requires OutOfRangePair(s1, s2)
    ensures SqrDist(s1.begPoint, s2.endPoint) == 1.0
  {
  }

  lemma CornerOutOfRange3(s1: Segment, s2: Segment)
    requires OutOfRangePair(s1, s2)
    ensures SqrDist(s1.endPoint, s2.begPoint) == 13.0
  {
  }

  lemma CornerOutOfRange4(s1: Segment, s2: Segment)
    requires OutOfRangePair(s1, s2)
    ensures SqrDist(s1.endPoint, s2.endPoint) == 5.0
  {
  }

  lemma CornersOutOfRange(s1: Segment, s2: Segment)
    requires OutOfRangePair(s1, s2)
    ensures EndpointMin(s1, s2) == Min4(5.0, 1.0, 13.0, 5.0)
  {
    CornerOutOfRange1(s1, s2);
    CornerOutOfRange2(s1, s2);
    CornerOutOfRange3(s1, s2);
    CornerOutOfRange4(s1, s2);
    EndpointMinOf(s1, s2, 5.0, 1.0, 13.0, 5.0);
  }

  lemma OutOfRangeFromFacts(s1: Segment, s2: Segment)
    requires s1.Valid() && s2.Valid()
    requires GramOf(s1, s2) == Gram(4.0, 2.0, 2.0, 2.0, 3.0)
    requires InitialParams(s1, s2) == Ok(Params(0.5, 2.0))
    requires EndpointMin(s1, s2) == 1.0
    ensures StrayBlockReached(s1, s2)
    ensures GramOf(s1, s2).uv != 0.0 && SAtEnd(GramOf(s1, s2)) == -0.5
    ensures SquaredDistance(s1, s2) == Ok(1.0)
  {
    EndpointCase(s1, s2, Params(0.5, 2.0));
  }

  /** The stray `;` hands `Segment::point` a parameter below 0: sc = 0.5 lies
      in [0, 1] and tc = 2 above it, so the block of main.cpp:105-108 runs and
      sets sc = (vv - vw) / uv = -1/2, which fails the range assertion (the
      `PointOutOfRange` fault of `DistanceAsWritten`).  With the guard in
      force the solver returns the endpoint distance 1. */
  lemma StrayPointOutOfRange(s1: Segment, s2: Segment)
    requires OutOfRangePair(s1, s2)
    ensures StrayBlockReached(s1, s2)
    ensures GramOf(s1, s2).uv != 0.0 && !InUnit(SAtEnd(GramOf(s1, s2)))
    ensures SquaredDistance(s1, s2) == Ok(1.0)
  {
    InitialOutOfRange(s1, s2);
    CornersOutOfRange(s1, s2);
    OutOfRangeFromFacts(s1, s2);
  }
}
