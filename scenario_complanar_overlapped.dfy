/** CASE_COMPLANAR with CASE_OVERLAPPED (main.cpp:168-175).

    The pair is worked out in stages, one small lemma per step (products,
    parameters, point distances, case), which keeps each proof small for the
    solver. */
module ComplanarOverlappedCase {
  import opened Geom
  import opened SegmentDistance
  import opened ScenarioCases

  /** The first segment joins (0.0, 0.0, 0.0) to (5.0, 0.0, 0.0), the second (7.0, 1.0, 0.0) to (6.0, 4.0, 0.0). */
  predicate ComplanarOverlappedPair(s1: Segment, s2: Segment) {
    && s1.Valid() && s1.begPoint == Point(0.0, 0.0, 0.0) && s1.endPoint == Point(5.0, 0.0, 0.0)
    && s2.Valid() && s2.begPoint == Point(7.0, 1.0, 0.0) && s2.endPoint == Point(6.0, 4.0, 0.0)
  }

  lemma GramComplanarOverlapped()
    ensures Dot(Vector(5.0, 0.0, 0.0), Vector(5.0, 0.0, 0.0)) == 25.0 && Dot(Vector(5.0, 0.0, 0.0), Vector(-1.0, 3.0, 0.0)) == -5.0
    ensures Dot(Vector(-1.0, 3.0, 0.0), Vector(-1.0, 3.0, 0.0)) == 10.0
    ensures Dot(Vector(5.0, 0.0, 0.0), Vector(-7.0, -1.0, 0.0)) == -35.0 && Dot(Vector(-1.0, 3.0, 0.0), Vector(-7.0, -1.0, 0.0)) == 4.0
  {
    assert Dot(Vector(5.0, 0.0, 0.0), Vector(5.0, 0.0, 0.0)) == 25.0;
    assert Dot(Vector(5.0, 0.0, 0.0), Vector(-1.0, 3.0, 0.0)) == -5.0;
    assert Dot(Vector(-1.0, 3.0, 0.0), Vector(-1.0, 3.0, 0.0)) == 10.0;
    assert Dot(Vector(5.0, 0.0, 0.0), Vector(-7.0, -1.0, 0.0)) == -35.0;
  }

  lemma ParamsComplanarOverlapped()
    ensures Denominator(Gram(25.0, -5.0, 10.0, -35.0, 4.0)) == -225.0
    ensures NormalParams(Gram(25.0, -5.0, 10.0, -35.0, 4.0)) == Params(22.0 / 15.0, -1.0 / 3.0)
  {
  }

  lemma PairGramComplanarOverlapped(s1: Segment, s2: Segment)
    requires ComplanarOverlappedPair(s1, s2)
    ensures GramOf(s1, s2) == Gram(25.0, -5.0, 10.0, -35.0, 4.0)
  {
    assert s1.vector == Vector(5.0, 0.0, 0.0) && s2.vector == Vector(-1.0, 3.0, 0.0);
    assert Offset(s1, s2) == Vector(-7.0, -1.0, 0.0);
    GramComplanarOverlapped();
    GramFrom(s1, s2, Gram(25.0, -5.0, 10.0, -35.0, 4.0));
  }

  lemma GramParamsComplanarOverlapped(s1: Segment, s2: Segment)
    requires GramOf(s1, s2) == Gram(25.0, -5.0, 10.0, -35.0, 4.0)
    ensures InitialParams(s1, s2) == Ok(Params(22.0 / 15.0, -1.0 / 3.0))
  {
    ParamsComplanarOverlapped();
    SolvedLines(s1, s2, Gram(25.0, -5.0, 10.0, -35.0, 4.0));
  }

  lemma InitialComplanarOverlapped(s1: Segment, s2: Segment)
    requires ComplanarOverlappedPair(s1, s2)
    ensures GramOf(s1, s2) == Gram(25.0, -5.0, 10.0, -35.0, 4.0)
    ensures InitialParams(s1, s2) == Ok(Params(22.0 / 15.0, -1.0 / 3.0))
  {
    PairGramComplanarOverlapped(s1, s2);
    GramParamsComplanarOverlapped(s1, s2);
  }

  lemma CornerComplanarOverlapped1(s1: Segment, s2: Segment)
    requires ComplanarOverlappedPair(s1, s2)
    ensures SqrDist(s1.begPoint, s2.begPoint) == 50.0
  {
  }

  lemma CornerComplanarOverlapped2(s1: Segment, s2: Segment)
    requires ComplanarOverlappedPair(s1, s2)
    ensures SqrDist(s1.begPoint, s2.endPoint) == 52.0
  {
  }

  lemma CornerComplanarOverlapped3(s1: Segment, s2: Segment)
    requires ComplanarOverlappedPair(s1, s2)
    ensures SqrDist(s1.endPoint, s2.begPoint) == 5.0
  {
  }

  lemma CornerComplanarOverlapped4(s1: Segment, s2: Segment)
    requires ComplanarOverlappedPair(s1, s2)
    ensures SqrDist(s1.endPoint, s2.endPoint) == 17.0
  {
  }

  lemma CornersComplanarOverlapped(s1: Segment, s2: Segment)
    requires ComplanarOverlappedPair(s1, s2)
    ensures EndpointMin(s1, s2) == Min4(50.0, 52.0, 5.0, 17.0)
  {
    CornerComplanarOverlapped1(s1, s2);
    CornerComplanarOverlapped2(s1, s2);
    CornerComplanarOverlapped3(s1, s2);
    CornerComplanarOverlapped4(s1, s2);
    EndpointMinOf(s1, s2, 50.0, 52.0, 5.0, 17.0);
  }

  lemma ComplanarOverlappedFromFacts(s1: Segment, s2: Segment)
    requires s1.Valid() && s2.Valid()
    requires GramOf(s1, s2) == Gram(25.0, -5.0, 10.0, -35.0, 4.0)
    requires InitialParams(s1, s2) == Ok(Params(22.0 / 15.0, -1.0 / 3.0))
    requires EndpointMin(s1, s2) == 5.0
    ensures !StrayBlockReached(s1, s2)
    ensures SquaredDistance(s1, s2) == Ok(5.0)
  {
    EndpointCase(s1, s2, Params(22.0 / 15.0, -1.0 / 3.0));
  }

  /** Segments of one plane that do not meet: the lines cross at sc = 22/15,
      tc = -1/3, outside both segments, neither guard admits a reprojection,
      and the nearest end points (5, 0, 0) and (7, 1, 0) lie at squared
      distance 5. */
  lemma ComplanarOverlappedDistance(s1: Segment, s2: Segment)
    requires ComplanarOverlappedPair(s1, s2)
    ensures !StrayBlockReached(s1, s2)
    ensures SquaredDistance(s1, s2) == Ok(5.0)
  {
    InitialComplanarOverlapped(s1, s2);
    CornersComplanarOverlapped(s1, s2);
    ComplanarOverlappedFromFacts(s1, s2);
  }
}
