/** CASE_PERPENDICULAR with CASE_NOT_OVERLAPPED (main.cpp:231-238).

    The pair is worked out in stages, one small lemma per step (products,
    parameters, point distances, case), which keeps each proof small for the
    solver. */
module NotOverlappedCase {
  import opened Geom
  import opened SegmentDistance
  import opened ScenarioCases

  /** The first segment joins (0.0, 0.0, 0.0) to (5.0, 0.0, 0.0), the second (6.0, 1.0, 0.0) to (6.0, 6.0, 0.0). */
  predicate NotOverlappedPair(s1: Segment, s2: Segment) {
    && s1.Valid() && s1.begPoint == Point(0.0, 0.0, 0.0) && s1.endPoint == Point(5.0, 0.0, 0.0)
    && s2.Valid() && s2.begPoint == Point(6.0, 1.0, 0.0) && s2.endPoint == Point(6.0, 6.0, 0.0)
  }

  lemma GramNotOverlapped()
    ensures Dot(Vector(5.0, 0.0, 0.0), Vector(5.0, 0.0, 0.0)) == 25.0 && Dot(Vector(5.0, 0.0, 0.0), Vector(0.0, 5.0, 0.0)) == 0.0
    ensures Dot(Vector(0.0, 5.0, 0.0), Vector(0.0, 5.0, 0.0)) == 25.0
    ensures Dot(Vector(5.0, 0.0, 0.0), Vector(-6.0, -1.0, 0.0)) == -30.0 && Dot(Vector(0.0, 5.0, 0.0), Vector(-6.0, -1.0, 0.0)) == -5.0
  {
    assert Dot(Vector(5.0, 0.0, 0.0), Vector(5.0, 0.0, 0.0)) == 25.0;
    assert Dot(Vector(5.0, 0.0, 0.0), Vector(0.0, 5.0, 0.0)) == 0.0;
    assert Dot(Vector(0.0, 5.0, 0.0), Vector(0.0, 5.0, 0.0)) == 25.0;
    assert Dot(Vector(5.0, 0.0, 0.0), Vector(-6.0, -1.0, 0.0)) == -30.0;
  }

  lemma ParamsNotOverlapped()
    ensures Denominator(Gram(25.0, 0.0, 25.0, -30.0, -5.0)) == -625.0
    ensures NormalParams(Gram(25.0, 0.0, 25.0, -30.0, -5.0)) == Params(1.2, -0.2)
  {
  }

  lemma PairGramNotOverlapped(s1: Segment, s2: Segment)
    requires NotOverlappedPair(s1, s2)
    ensures GramOf(s1, s2) == Gram(25.0, 0.0, 25.0, -30.0, -5.0)
  {
    assert s1.vector == Vector(5.0, 0.0, 0.0) && s2.vector == Vector(0.0, 5.0, 0.0);
    assert Offset(s1, s2) == Vector(-6.0, -1.0, 0.0);
    GramNotOverlapped();
    GramFrom(s1, s2, Gram(25.0, 0.0, 25.0, -30.0, -5.0));
  }

  lemma GramParamsNotOverlapped(s1: Segment, s2: Segment)
    requires GramOf(s1, s2) == Gram(25.0, 0.0, 25.0, -30.0, -5.0)
    ensures InitialParams(s1, s2) == Ok(Params(1.2, -0.2))
  {
    ParamsNotOverlapped();
    SolvedLines(s1, s2, Gram(25.0, 0.0, 25.0, -30.0, -5.0));
  }

  lemma InitialNotOverlapped(s1: Segment, s2: Segment)
    requires NotOverlappedPair(s1, s2)
    ensures GramOf(s1, s2) == Gram(25.0, 0.0, 25.0, -30.0, -5.0)
    ensures InitialParams(s1, s2) == Ok(Params(1.2, -0.2))
  {
    PairGramNotOverlapped(s1, s2);
    GramParamsNotOverlapped(s1, s2);
  }

  lemma CornerNotOverlapped1(s1: Segment, s2: Segment)
    requires NotOverlappedPair(s1, s2)
    ensures SqrDist(s1.begPoint, s2.begPoint) == 37.0
  {
  }

  lemma CornerNotOverlapped2(s1: Segment, s2: Segment)
    requires NotOverlappedPair(s1, s2)
    ensures SqrDist(s1.begPoint, s2.endPoint) == 72.0
  {
  }

  lemma CornerNotOverlapped3(s1: Segment, s2: Segment)
    requires NotOverlappedPair(s1, s2)
    ensures SqrDist(s1.endPoint, s2.begPoint) == 2.0
  {
  }

  lemma CornerNotOverlapped4(s1: Segment, s2: Segment)
    requires NotOverlappedPair(s1, s2)
    ensures SqrDist(s1.endPoint, s2.endPoint) == 37.0
  {
  }

  lemma CornersNotOverlapped(s1: Segment, s2: Segment)
    requires NotOverlappedPair(s1, s2)
    ensures EndpointMin(s1, s2) == Min4(37.0, 72.0, 2.0, 37.0)
  {
    CornerNotOverlapped1(s1, s2);
    CornerNotOverlapped2(s1, s2);
    CornerNotOverlapped3(s1, s2);
    CornerNotOverlapped4(s1, s2);
    EndpointMinOf(s1, s2, 37.0, 72.0, 2.0, 37.0);
  }

  lemma NotOverlappedFromFacts(s1: Segment, s2: Segment)
    requires s1.Valid() && s2.Valid()
    requires GramOf(s1, s2) == Gram(25.0, 0.0, 25.0, -30.0, -5.0)
    requires InitialParams(s1, s2) == Ok(Params(1.2, -0.2))
    requires EndpointMin(s1, s2) == 2.0
    ensures !StrayBlockReached(s1, s2)
    ensures SquaredDistance(s1, s2) == Ok(2.0)
  {
    EndpointCase(s1, s2, Params(1.2, -0.2));
  }

  /** The pair `main` measures as the program is configured: sc = 1.2 and
      tc = -0.2 both fall outside [0, 1], neither clamp block reprojects, and
      the nearest end points (5, 0, 0) and (6, 1, 0) lie at squared
      distance 2.  The unguarded block is not reached, so the solver as
      written returns the same value. */
  lemma PerpendicularNotOverlapped(s1: Segment, s2: Segment)
    requires NotOverlappedPair(s1, s2)
    ensures !StrayBlockReached(s1, s2)
    ensures SquaredDistance(s1, s2) == Ok(2.0)
  {
    InitialNotOverlapped(s1, s2);
    CornersNotOverlapped(s1, s2);
    NotOverlappedFromFacts(s1, s2);
  }
}
