/** CASE_PARALLEL with CASE_NOT_OVERLAPPED (main.cpp:159-166).

    The pair is worked out in stages, one small lemma per step (products,
    parameters, point distances, case), which keeps each proof small for the
    solver. */
module ParallelNotOverlappedCase {
  import opened Geom
  import opened SegmentDistance
  import opened ScenarioCases

  /** The first segment joins (0.0, 0.0, 0.0) to (4.0, 0.0, 0.0), the second (5.0, 5.0, 0.0) to (9.0, 5.0, 0.0). */
  predicate ParallelNotOverlappedPair(s1: Segment, s2: Segment) {
    && s1.Valid() && s1.begPoint == Point(0.0, 0.0, 0.0) && s1.endPoint == Point(4.0, 0.0, 0.0)
    && s2.Valid() && s2.begPoint == Point(5.0, 5.0, 0.0) && s2.endPoint == Point(9.0, 5.0, 0.0)
  }

  lemma GramParallelNotOverlapped()
    ensures Dot(Vector(4.0, 0.0, 0.0), Vector(4.0, 0.0, 0.0)) == 16.0 && Dot(Vector(4.0, 0.0, 0.0), Vector(4.0, 0.0, 0.0)) == 16.0
    ensures Dot(Vector(4.0, 0.0, 0.0), Vector(4.0, 0.0, 0.0)) == 16.0
    ensures Dot(Vector(4.0, 0.0, 0.0), Vector(-5.0, -5.0, 0.0)) == -20.0 && Dot(Vector(4.0, 0.0, 0.0), Vector(-5.0, -5.0, 0.0)) == -20.0
  {
    assert Dot(Vector(4.0, 0.0, 0.0), Vector(4.0, 0.0, 0.0)) == 16.0;
    assert Dot(Vector(4.0, 0.0, 0.0), Vector(4.0, 0.0, 0.0)) == 16.0;
    assert Dot(Vector(4.0, 0.0, 0.0), Vector(4.0, 0.0, 0.0)) == 16.0;
    assert Dot(Vector(4.0, 0.0, 0.0), Vector(-5.0, -5.0, 0.0)) == -20.0;
  }

  lemma ParamsParallelNotOverlapped()
    ensures Denominator(Gram(16.0, 16.0, 16.0, -20.0, -20.0)) == 0.0
    ensures ParallelParams(Gram(16.0, 16.0, 16.0, -20.0, -20.0)) == Ok(Params(1.25, 0.0))
  {
  }

  lemma PairGramParallelNotOverlapped(s1: Segment, s2: Segment)
    requires ParallelNotOverlappedPair(s1, s2)
    ensures GramOf(s1, s2) == Gram(16.0, 16.0, 16.0, -20.0, -20.0)
  {
    assert s1.vector == Vector(4.0, 0.0, 0.0) && s2.vector == Vector(4.0, 0.0, 0.0);
    assert Offset(s1, s2) == Vector(-5.0, -5.0, 0.0);
    GramParallelNotOverlapped();
    GramFrom(s1, s2, Gram(16.0, 16.0, 16.0, -20.0, -20.0));
  }

  lemma GramParamsParallelNotOverlapped(s1: Segment, s2: Segment)
    requires GramOf(s1, s2) == Gram(16.0, 16.0, 16.0, -20.0, -20.0)
    ensures InitialParams(s1, s2) == Ok(Params(1.25, 0.0))
  {
    ParamsParallelNotOverlapped();
    ParallelLines(s1, s2, Gram(16.0, 16.0, 16.0, -20.0, -20.0), Params(1.25, 0.0));
  }

  lemma InitialParallelNotOverlapped(s1: Segment, s2: Segment)
    requires ParallelNotOverlappedPair(s1, s2)
    ensures GramOf(s1, s2) == Gram(16.0, 16.0, 16.0, -20.0, -20.0)
    ensures InitialParams(s1, s2) == Ok(Params(1.25, 0.0))
  {
    PairGramParallelNotOverlapped(s1, s2);
    GramParamsParallelNotOverlapped(s1, s2);
  }

  lemma CornerParallelNotOverlapped1(s1: Segment, s2: Segment)
    requires ParallelNotOverlappedPair(s1, s2)
    ensures SqrDist(s1.begPoint, s2.begPoint) == 50.0
  {
  }

  lemma CornerParallelNotOverlapped2(s1: Segment, s2: Segment)
    requires ParallelNotOverlappedPair(s1, s2)
    ensures SqrDist(s1.begPoint, s2.endPoint) == 106.0
  {
  }

  lemma CornerParallelNotOverlapped3(s1: Segment, s2: Segment)
    requires ParallelNotOverlappedPair(s1, s2)
    ensures SqrDist(s1.endPoint, s2.begPoint) == 26.0
  {
  }

  lemma CornerParallelNotOverlapped4(s1: Segment, s2: Segment)
    requires ParallelNotOverlappedPair(s1, s2)
    ensures SqrDist(s1.endPoint, s2.endPoint) == 50.0
  {
  }

  lemma CornersParallelNotOverlapped(s1: Segment, s2: Segment)
    requires ParallelNotOverlappedPair(s1, s2)
    ensures EndpointMin(s1, s2) == Min4(50.0, 106.0, 26.0, 50.0)
  {
    CornerParallelNotOverlapped1(s1, s2);
    CornerParallelNotOverlapped2(s1, s2);
    CornerParallelNotOverlapped3(s1, s2);
    CornerParallelNotOverlapped4(s1, s2);
    EndpointMinOf(s1, s2, 50.0, 106.0, 26.0, 50.0);
  }

  lemma ParallelNotOverlappedFromFacts(s1: Segment, s2: Segment)
    requires s1.Valid() && s2.Valid()
    requires GramOf(s1, s2) == Gram(16.0, 16.0, 16.0, -20.0, -20.0)
    requires InitialParams(s1, s2) == Ok(Params(1.25, 0.0))
    requires EndpointMin(s1, s2) == 26.0
    ensures !StrayBlockReached(s1, s2)
    ensures SquaredDistance(s1, s2) == Ok(26.0)
  {
    EndpointCase(s1, s2, Params(1.25, 0.0));
  }

  /** Parallel segments whose x-ranges do not overlap: the projection lands
      at sc = 5/4, beyond the end of `s1`, no reprojection applies, and the
      nearest end points (4, 0, 0) and (5, 5, 0) lie at squared distance 26. */
  lemma ParallelNotOverlappedDistance(s1: Segment, s2: Segment)
    requires ParallelNotOverlappedPair(s1, s2)
    ensures !StrayBlockReached(s1, s2)
    ensures SquaredDistance(s1, s2) == Ok(26.0)
  {
    InitialParallelNotOverlapped(s1, s2);
    CornersParallelNotOverlapped(s1, s2);
    ParallelNotOverlappedFromFacts(s1, s2);
  }
}
