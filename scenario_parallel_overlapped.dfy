/** CASE_PARALLEL with CASE_OVERLAPPED (main.cpp:150-157).

    The pair is worked out in stages, one small lemma per step (products,
    parameters, point distances, case), which keeps each proof small for the
    solver. */
module ParallelOverlappedCase {
  import opened Geom
  import opened SegmentDistance
  import opened ScenarioCases

  /** The first segment joins (0.0, 0.0, 0.0) to (6.0, 0.0, 0.0), the second (4.0, 5.0, 0.0) to (8.0, 5.0, 0.0). */
  predicate ParallelOverlappedPair(s1: Segment, s2: Segment) {
    && s1.Valid() && s1.begPoint == Point(0.0, 0.0, 0.0) && s1.endPoint == Point(6.0, 0.0, 0.0)
    && s2.Valid() && s2.begPoint == Point(4.0, 5.0, 0.0) && s2.endPoint == Point(8.0, 5.0, 0.0)
  }

  lemma GramParallelOverlapped()
    ensures Dot(Vector(6.0, 0.0, 0.0), Vector(6.0, 0.0, 0.0)) == 36.0 && Dot(Vector(6.0, 0.0, 0.0), Vector(4.0, 0.0, 0.0)) == 24.0
    ensures Dot(Vector(4.0, 0.0, 0.0), Vector(4.0, 0.0, 0.0)) == 16.0
    ensures Dot(Vector(6.0, 0.0, 0.0), Vector(-4.0, -5.0, 0.0)) == -24.0 && Dot(Vector(4.0, 0.0, 0.0), Vector(-4.0, -5.0, 0.0)) == -16.0
  {
    assert Dot(Vector(6.0, 0.0, 0.0), Vector(6.0, 0.0, 0.0)) == 36.0;
    assert Dot(Vector(6.0, 0.0, 0.0), Vector(4.0, 0.0, 0.0)) == 24.0;
    assert Dot(Vector(4.0, 0.0, 0.0), Vector(4.0, 0.0, 0.0)) == 16.0;
    assert Dot(Vector(6.0, 0.0, 0.0), Vector(-4.0, -5.0, 0.0)) == -24.0;
  }

  lemma ParamsParallelOverlapped()
    ensures Denominator(Gram(36.0, 24.0, 16.0, -24.0, -16.0)) == 0.0
    ensures ParallelParams(Gram(36.0, 24.0, 16.0, -24.0, -16.0)) == Ok(Params(2.0 / 3.0, 0.0))
  {
  }

  lemma PairGramParallelOverlapped(s1: Segment, s2: Segment)
    requires ParallelOverlappedPair(s1, s2)
    ensures GramOf(s1, s2) == Gram(36.0, 24.0, 16.0, -24.0, -16.0)
  {
    assert s1.vector == Vector(6.0, 0.0, 0.0) && s2.vector == Vector(4.0, 0.0, 0.0);
    assert Offset(s1, s2) == Vector(-4.0, -5.0, 0.0);
    GramParallelOverlapped();
    GramFrom(s1, s2, Gram(36.0, 24.0, 16.0, -24.0, -16.0));
  }

  lemma GramParamsParallelOverlapped(s1: Segment, s2: Segment)
    requires GramOf(s1, s2) == Gram(36.0, 24.0, 16.0, -24.0, -16.0)
    ensures InitialParams(s1, s2) == Ok(Params(2.0 / 3.0, 0.0))
  {
    ParamsParallelOverlapped();
    ParallelLines(s1, s2, Gram(36.0, 24.0, 16.0, -24.0, -16.0), Params(2.0 / 3.0, 0.0));
  }

  lemma InitialParallelOverlapped(s1: Segment, s2: Segment)
    requires ParallelOverlappedPair(s1, s2)
    ensures GramOf(s1, s2) == Gram(36.0, 24.0, 16.0, -24.0, -16.0)
    ensures InitialParams(s1, s2) == Ok(Params(2.0 / 3.0, 0.0))
  {
    PairGramParallelOverlapped(s1, s2);
    GramParamsParallelOverlapped(s1, s2);
  }

  lemma ParallelOverlappedFromFacts(s1: Segment, s2: Segment)
    requires s1.Valid() && s2.Valid()
    requires InitialParams(s1, s2) == Ok(Params(2.0 / 3.0, 0.0))
    requires SqrDistAt(s1, s2, 2.0 / 3.0, 0.0) == 25.0
    ensures !StrayBlockReached(s1, s2)
    ensures SquaredDistance(s1, s2) == Ok(25.0)
  {
    NotStray(s1, s2, Params(2.0 / 3.0, 0.0));
    InteriorCase(s1, s2, Params(2.0 / 3.0, 0.0));
  }

  lemma FirstPointLiteralParallelOverlapped()
    ensures Point(0.0, 0.0, 0.0).Add(Vector(6.0, 0.0, 0.0).Scale(2.0 / 3.0)) == Point(4.0, 0.0, 0.0)
  {
    assert Vector(6.0, 0.0, 0.0).Scale(2.0 / 3.0) == Vector(4.0, 0.0, 0.0);
  }

  lemma FirstPointParallelOverlapped(s1: Segment)
    requires s1.begPoint == Point(0.0, 0.0, 0.0) && s1.vector == Vector(6.0, 0.0, 0.0)
    ensures s1.PointAt(2.0 / 3.0) == Point(4.0, 0.0, 0.0)
  {
    FirstPointLiteralParallelOverlapped();
  }

  lemma SecondPointLiteralParallelOverlapped()
    ensures Point(4.0, 5.0, 0.0).Add(Vector(4.0, 0.0, 0.0).Scale(0.0)) == Point(4.0, 5.0, 0.0)
  {
    assert Vector(4.0, 0.0, 0.0).Scale(0.0) == Vector(0.0, 0.0, 0.0);
  }

  lemma SecondPointParallelOverlapped(s2: Segment)
    requires s2.begPoint == Point(4.0, 5.0, 0.0) && s2.vector == Vector(4.0, 0.0, 0.0)
    ensures s2.PointAt(0.0) == Point(4.0, 5.0, 0.0)
  {
    SecondPointLiteralParallelOverlapped();
  }

  lemma PointDistanceParallelOverlapped()
    ensures SqrDist(Point(4.0, 0.0, 0.0), Point(4.0, 5.0, 0.0)) == 25.0
  {
    assert Sqr(0.0 - 5.0) == 25.0;
  }

  lemma ProjectionParallelOverlapped(s1: Segment, s2: Segment)
    requires SqrDist(s1.PointAt(2.0 / 3.0), s2.PointAt(0.0)) == 25.0
    ensures SqrDistAt(s1, s2, 2.0 / 3.0, 0.0) == 25.0
  {
  }

  lemma ClosestParallelOverlapped(s1: Segment, s2: Segment)
    requires ParallelOverlappedPair(s1, s2)
    ensures SqrDistAt(s1, s2, 2.0 / 3.0, 0.0) == 25.0
  {
    assert s1.vector == Vector(6.0, 0.0, 0.0) && s2.vector == Vector(4.0, 0.0, 0.0);
    FirstPointParallelOverlapped(s1);
    SecondPointParallelOverlapped(s2);
    PointDistanceParallelOverlapped();
    ProjectionParallelOverlapped(s1, s2);
  }

  /** Parallel segments whose x-ranges overlap: the parallel branch anchors
      tc at 0 and projects the start of `s2` onto `s1` at sc = 2/3, and the
      squared distance is the squared offset 25. */
  lemma ParallelOverlappedDistance(s1: Segment, s2: Segment)
    requires ParallelOverlappedPair(s1, s2)
    ensures !StrayBlockReached(s1, s2)
    ensures SquaredDistance(s1, s2) == Ok(25.0)
  {
    InitialParallelOverlapped(s1, s2);
    ClosestParallelOverlapped(s1, s2);
    ParallelOverlappedFromFacts(s1, s2);
  }
}
