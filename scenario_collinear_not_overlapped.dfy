/** CASE_COLLINEAR with CASE_NOT_OVERLAPPED (main.cpp:213-220).

    The pair is worked out in stages, one small lemma per step (products,
    parameters, point distances, case), which keeps each proof small for the
    solver. */
module CollinearNotOverlappedCase {
  import opened Geom
  import opened SegmentDistance
  import opened ScenarioCases

  /** The first segment joins (0.0, 0.0, 0.0) to (5.0, 0.0, 0.0), the second (7.0, 0.0, 0.0) to (6.0, 0.0, 0.0). */
  predicate CollinearNotOverlappedPair(s1: Segment, s2: Segment) {
    && s1.Valid() && s1.begPoint == Point(0.0, 0.0, 0.0) && s1.endPoint == Point(5.0, 0.0, 0.0)
    && s2.Valid() && s2.begPoint == Point(7.0, 0.0, 0.0) && s2.endPoint == Point(6.0, 0.0, 0.0)
  }

  lemma GramCollinearNotOverlapped()
    ensures Dot(Vector(5.0, 0.0, 0.0), Vector(5.0, 0.0, 0.0)) == 25.0 && Dot(Vector(5.0, 0.0, 0.0), Vector(-1.0, 0.0, 0.0)) == -5.0
    ensures Dot(Vector(-1.0, 0.0, 0.0), Vector(-1.0, 0.0, 0.0)) == 1.0
    ensures Dot(Vector(5.0, 0.0, 0.0), Vector(-7.0, 0.0, 0.0)) == -35.0 && Dot(Vector(-1.0, 0.0, 0.0), Vector(-7.0, 0.0, 0.0)) == 7.0
  {
    assert Dot(Vector(5.0, 0.0, 0.0), Vector(5.0, 0.0, 0.0)) == 25.0;
    assert Dot(Vector(5.0, 0.0, 0.0), Vector(-1.0, 0.0, 0.0)) == -5.0;
    assert Dot(Vector(-1.0, 0.0, 0.0), Vector(-1.0, 0.0, 0.0)) == 1.0;
    assert Dot(Vector(5.0, 0.0, 0.0), Vector(-7.0, 0.0, 0.0)) == -35.0;
  }

  lemma ParamsCollinearNotOverlapped()
    ensures Denominator(Gram(25.0, -5.0, 1.0, -35.0, 7.0)) == 0.0
    ensures ParallelParams(Gram(25.0, -5.0, 1.0, -35.0, 7.0)) == Ok(Params(1.4, 0.0))
  {
  }

  lemma PairGramCollinearNotOverlapped(s1: Segment, s2: Segment)
    requires CollinearNotOverlappedPair(s1, s2)
    ensures GramOf(s1, s2) == Gram(25.0, -5.0, 1.0, -35.0, 7.0)
  {
    assert s1.vector == Vector(5.0, 0.0, 0.0) && s2.vector == Vector(-1.0, 0.0, 0.0);
    assert Offset(s1, s2) == Vector(-7.0, 0.0, 0.0);
    GramCollinearNotOverlapped();
    GramFrom(s1, s2, Gram(25.0, -5.0, 1.0, -35.0, 7.0));
  }

  lemma GramParamsCollinearNotOverlapped(s1: Segment, s2: Segment)
    requires GramOf(s1, s2) == Gram(25.0, -5.0, 1.0, -35.0, 7.0)
    ensures InitialParams(s1, s2) == Ok(Params(1.4, 0.0))
  {
    ParamsCollinearNotOverlapped();
    ParallelLines(s1, s2, Gram(25.0, -5.0, 1.0, -35.0, 7.0), Params(1.4, 0.0));
  }

  lemma InitialCollinearNotOverlapped(s1: Segment, s2: Segment)
    requires CollinearNotOverlappedPair(s1, s2)
    ensures GramOf(s1, s2) == Gram(25.0, -5.0, 1.0, -35.0, 7.0)
    ensures InitialParams(s1, s2) == Ok(Params(1.4, 0.0))
  {
    PairGramCollinearNotOverlapped(s1, s2);
    GramParamsCollinearNotOverlapped(s1, s2);
  }

  lemma CornerCollinearNotOverlapped1(s1: Segment, s2: Segment)
    requires CollinearNotOverlappedPair(s1, s2)
    ensures SqrDist(s1.begPoint, s2.begPoint) == 49.0
  {
  }

  lemma CornerCollinearNotOverlapped2(s1: Segment, s2: Segment)
    requires CollinearNotOverlappedPair(s1, s2)
    ensures SqrDist(s1.begPoint, s2.endPoint) == 36.0
  {
  }

  lemma CornerCollinearNotOverlapped3(s1: Segment, s2: Segment)
    requires CollinearNotOverlappedPair(s1, s2)
    ensures SqrDist(s1.endPoint, s2.begPoint) == 4.0
  {
  }

  lemma CornerCollinearNotOverlapped4(s1: Segment, s2: Segment)
    requires CollinearNotOverlappedPair(s1, s2)
    ensures SqrDist(s1.endPoint, s2.endPoint) == 1.0
  {
  }

  lemma CornersCollinearNotOverlapped(s1: Segment, s2: Segment)
    requires CollinearNotOverlappedPair(s1, s2)
    ensures EndpointMin(s1, s2) == Min4(49.0, 36.0, 4.0, 1.0)
  {
    CornerCollinearNotOverlapped1(s1, s2);
    CornerCollinearNotOverlapped2(s1, s2);
    CornerCollinearNotOverlapped3(s1, s2);
    CornerCollinearNotOverlapped4(s1, s2);
    EndpointMinOf(s1, s2, 49.0, 36.0, 4.0, 1.0);
  }

  lemma CollinearNotOverlappedFromFacts(s1: Segment, s2: Segment)
    requires s1.Valid() && s2.Valid()
    requires GramOf(s1, s2) == Gram(25.0, -5.0, 1.0, -35.0, 7.0)
    requires InitialParams(s1, s2) == Ok(Params(1.4, 0.0))
    requires EndpointMin(s1, s2) == 1.0
    ensures !StrayBlockReached(s1, s2)
    ensures SquaredDistance(s1, s2) == Ok(1.0)
  {
    EndpointCase(s1, s2, Params(1.4, 0.0));
  }

  /** Collinear segments with a gap: the projection lands at sc = 7/5, no
      reprojection applies, and the nearest end points (5, 0, 0) and
      (6, 0, 0) lie at squared distance 1. */
  lemma CollinearNotOverlappedDistance(s1: Segment, s2: Segment)
    requires CollinearNotOverlappedPair(s1, s2)
    ensures !StrayBlockReached(s1, s2)
    ensures SquaredDistance(s1, s2) == Ok(1.0)
  {
    InitialCollinearNotOverlapped(s1, s2);
    CornersCollinearNotOverlapped(s1, s2);
    CollinearNotOverlappedFromFacts(s1, s2);
  }
}
