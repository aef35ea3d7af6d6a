/** CASE_COMPLANAR with CASE_NOT_OVERLAPPED (main.cpp:177-184).

    The pair is worked out in stages, one small lemma per step (products,
    parameters, point distances, case), which keeps each proof small for the
    solver. */
module ComplanarNotOverlappedCase {
  import opened Geom
  import opened SegmentDistance
  import opened ScenarioCases

  /** The first segment joins (-5.0, 0.0, 0.0) to (0.0, 0.0, 0.0), the second (1.0, 2.0, 0.0) to (5.0, 5.0, 0.0). */
  predicate ComplanarNotOverlappedPair(s1: Segment, s2: Segment) {
    && s1.Valid() && s1.begPoint == Point(-5.0, 0.0, 0.0) && s1.endPoint == Point(0.0, 0.0, 0.0)
    && s2.Valid() && s2.begPoint == Point(1.0, 2.0, 0.0) && s2.endPoint == Point(5.0, 5.0, 0.0)
  }

  lemma GramComplanarNotOverlapped()
    ensures Dot(Vector(5.0, 0.0, 0.0), Vector(5.0, 0.0, 0.0)) == 25.0 && Dot(Vector(5.0, 0.0, 0.0), Vector(4.0, 3.0, 0.0)) == 20.0
    ensures Dot(Vector(4.0, 3.0, 0.0), Vector(4.0, 3.0, 0.0)) == 25.0
    ensures Dot(Vector(5.0, 0.0, 0.0), Vector(-6.0, -2.0, 0.0)) == -30.0 && Dot(Vector(4.0, 3.0, 0.0), Vector(-6.0, -2.0, 0.0)) == -30.0
  {
    assert Dot(Vector(5.0, 0.0, 0.0), Vector(5.0, 0.0, 0.0)) == 25.0;
    assert Dot(Vector(5.0, 0.0, 0.0), Vector(4.0, 3.0, 0.0)) == 20.0;
    assert Dot(Vector(4.0, 3.0, 0.0), Vector(4.0, 3.0, 0.0)) == 25.0;
    assert Dot(Vector(5.0, 0.0, 0.0), Vector(-6.0, -2.0, 0.0)) == -30.0;
  }

  lemma ParamsComplanarNotOverlapped()
    ensures Denominator(Gram(25.0, 20.0, 25.0, -30.0, -30.0)) == -225.0
    ensures NormalParams(Gram(25.0, 20.0, 25.0, -30.0, -30.0)) == Params(2.0 / 3.0, -2.0 / 3.0)
  {
  }

  lemma PairGramComplanarNotOverlapped(s1: Segment, s2: Segment)
    requires ComplanarNotOverlappedPair(s1, s2)
    ensures GramOf(s1, s2) == Gram(25.0, 20.0, 25.0, -30.0, -30.0)
  {
    assert s1.vector == Vector(5.0, 0.0, 0.0) && s2.vector == Vector(4.0, 3.0, 0.0);
    assert Offset(s1, s2) == Vector(-6.0, -2.0, 0.0);
    GramComplanarNotOverlapped();
    GramFrom(s1, s2, Gram(25.0, 20.0, 25.0, -30.0, -30.0));
  }

  lemma GramParamsComplanarNotOverlapped(s1: Segment, s2: Segment)
    requires GramOf(s1, s2) == Gram(25.0, 20.0, 25.0, -30.0, -30.0)
    ensures InitialParams(s1, s2) == Ok(Params(2.0 / 3.0, -2.0 / 3.0))
  {
    ParamsComplanarNotOverlapped();
    SolvedLines(s1, s2, Gram(25.0, 20.0, 25.0, -30.0, -30.0));
  }

  lemma InitialComplanarNotOverlapped(s1: Segment, s2: Segment)
    requires ComplanarNotOverlappedPair(s1, s2)
    ensures GramOf(s1, s2) == Gram(25.0, 20.0, 25.0, -30.0, -30.0)
    ensures InitialParams(s1, s2) == Ok(Params(2.0 / 3.0, -2.0 / 3.0))
  {
    PairGramComplanarNotOverlapped(s1, s2);
    GramParamsComplanarNotOverlapped(s1, s2);
  }

  lemma CornerComplanarNotOverlapped1(s1: Segment, s2: Segment)
    requires ComplanarNotOverlappedPair(s1, s2)
    ensures SqrDist(s1.begPoint, s2.begPoint) == 40.0
  {
  }

  lemma CornerComplanarNotOverlapped2(s1: Segment, s2: Segment)
    requires ComplanarNotOverlappedPair(s1, s2)
    ensures SqrDist(s1.begPoint, s2.endPoint) == 125.0
  {
  }

  lemma CornerComplanarNotOverlapped3(s1: Segment, s2: Segment)
    requires ComplanarNotOverlappedPair(s1, s2)
    ensures SqrDist(s1.endPoint, s2.begPoint) == 5.0
  {
  }

  lemma CornerComplanarNotOverlapped4(s1: Segment, s2: Segment)
    requires ComplanarNotOverlappedPair(s1, s2)
    ensures SqrDist(s1.endPoint, s2.endPoint) == 50.0
  {
  }

  lemma CornersComplanarNotOverlapped(s1: Segment, s2: Segment)
    requires ComplanarNotOverlappedPair(s1, s2)
    ensures EndpointMin(s1, s2) == Min4(40.0, 125.0, 5.0, 50.0)
  {
    CornerComplanarNotOverlapped1(s1, s2);
    CornerComplanarNotOverlapped2(s1, s2);
    CornerComplanarNotOverlapped3(s1, s2);
    CornerComplanarNotOverlapped4(s1, s2);
    EndpointMinOf(s1, s2, 40.0, 125.0, 5.0, 50.0);
  }

  lemma ComplanarNotOverlappedFromFacts(s1: Segment, s2: Segment)
    requires s1.Valid() && s2.Valid()
    requires GramOf(s1, s2) == Gram(25.0, 20.0, 25.0, -30.0, -30.0)
    requires InitialParams(s1, s2) == Ok(Params(2.0 / 3.0, -2.0 / 3.0))
    requires EndpointMin(s1, s2) == 5.0
    ensures !StrayBlockReached(s1, s2)
    ensures SquaredDistance(s1, s2) == Ok(5.0)
  {
    EndpointCase(s1, s2, Params(2.0 / 3.0, -2.0 / 3.0));
  }

  /** Segments of one plane whose lines cross at sc = 2/3, tc = -2/3: tc is
      clamped to 0, the guard of main.cpp:93 fails, and the nearest end points
      (0, 0, 0) and (1, 2, 0) lie at squared distance 5. */
  lemma ComplanarNotOverlappedDistance(s1: Segment, s2: Segment)
    requires ComplanarNotOverlappedPair(s1, s2)
    ensures !StrayBlockReached(s1, s2)
    ensures SquaredDistance(s1, s2) == Ok(5.0)
  {
    InitialComplanarNotOverlapped(s1, s2);
    CornersComplanarNotOverlapped(s1, s2);
    ComplanarNotOverlappedFromFacts(s1, s2);
  }
}
