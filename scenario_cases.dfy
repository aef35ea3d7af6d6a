/** Concrete segment pairs, one module each: the configurations `main` can be
    built with, and pairs on which the stray `;` of main.cpp:104 or a
    reprojection formula changes the outcome.  This module holds the cases of
    `SquaredDistance` they go through.

    Each pair is worked out in stages, which keeps every proof small: one
    lemma computes the cached products and another the initial parameters
    from them, one lemma per pair of points computes their squared distance,
    and a lemma about segments known only through those facts picks the case
    of `SquaredDistance` (or of `IntendedSquaredDistance`).  The lemma named
    after the pair chains them for any two segments with the given end
    points. */
module ScenarioCases {
  import opened Geom
  import opened SegmentDistance

  /** The cached products, given as the five inner products of the two
      directions and the offset between the start points. */
  lemma GramFrom(s1: Segment, s2: Segment, g: Gram)
    requires Dot(s1.vector, s1.vector) == g.uu && Dot(s1.vector, s2.vector) == g.uv
    requires Dot(s2.vector, s2.vector) == g.vv
    requires Dot(s1.vector, Offset(s1, s2)) == g.uw && Dot(s2.vector, Offset(s1, s2)) == g.vw
    ensures GramOf(s1, s2) == g
  {
  }

  /** Segments whose Gram determinant is at least Epsilon squared are not
      parallel, so the solver takes the normal equations. */
  lemma SolvedLines(s1: Segment, s2: Segment, g: Gram)
    requires GramOf(s1, s2) == g && Denominator(g) <= -(Epsilon * Epsilon)
    ensures InitialParams(s1, s2) == Ok(NormalParams(g))
  {
    ParallelByDenominator(s1, s2);
  }

  /** Segments whose Gram determinant is below Epsilon squared are parallel,
      so the solver takes the parallel branch. */
  lemma ParallelLines(s1: Segment, s2: Segment, g: Gram, p: Params)
    requires GramOf(s1, s2) == g && -(Epsilon * Epsilon) < Denominator(g)
    requires ParallelParams(g) == Ok(p)
    ensures InitialParams(s1, s2) == Ok(p)
  {
    ParallelByDenominator(s1, s2);
  }

  /** A tc that does not exceed 1 never reaches the unguarded block. */
  lemma NotStray(s1: Segment, s2: Segment, p: Params)
    requires InitialParams(s1, s2) == Ok(p) && p.tc <= 1.0
    ensures !StrayBlockReached(s1, s2)
  {
  }

  /** Both initial parameters lie in [0, 1]: the solver returns the distance
      between the two points they name. */
  lemma InteriorCase(s1: Segment, s2: Segment, p: Params)
    requires s1.Valid() && s2.Valid() && InitialParams(s1, s2) == Ok(p)
    requires InUnit(p.sc) && InUnit(p.tc)
    ensures SquaredDistance(s1, s2) == Ok(SqrDistAt(s1, s2, p.sc, p.tc))
  {
  }

  /** The endpoint fallback, given the four endpoint distances. */
  lemma EndpointMinOf(s1: Segment, s2: Segment, a: real, b: real, c: real, d: real)
    requires s1.Valid() && s2.Valid()
    requires SqrDist(s1.begPoint, s2.begPoint) == a && SqrDist(s1.begPoint, s2.endPoint) == b
    requires SqrDist(s1.endPoint, s2.begPoint) == c && SqrDist(s1.endPoint, s2.endPoint) == d
    ensures EndpointMin(s1, s2) == Min4(a, b, c, d)
  {
  }

  /** At least one of the initial parameters falls outside [0, 1], in a
      way neither clamp block reprojects: the endpoint minimum is returned. */
  lemma EndpointCase(s1: Segment, s2: Segment, p: Params)
    requires s1.Valid() && s2.Valid() && InitialParams(s1, s2) == Ok(p)
    requires !(InUnit(p.sc) && InUnit(p.tc))
    requires !FirstReprojects(GramOf(s1, s2), p.sc) && !SecondReprojects(GramOf(s1, s2), p.tc)
    ensures SquaredDistance(s1, s2) == Ok(EndpointMin(s1, s2))
  {
  }

  /** sc lies in [0, 1], tc below 0, and the start of `s2` projects inside
      `s1`: the perpendicular from that start is returned. */
  lemma SecondStartCase(s1: Segment, s2: Segment, p: Params)
    requires s1.Valid() && s2.Valid() && InitialParams(s1, s2) == Ok(p)
    requires InUnit(p.sc) && p.tc < 0.0
    requires SecondReprojects(GramOf(s1, s2), p.tc)
    ensures SquaredDistance(s1, s2) == Ok(SqrDistAt(s1, s2, SAtStart(GramOf(s1, s2)), 0.0))
  {
  }

  /** sc falls below 0 and the guard of main.cpp:69 holds: the solver
      returns the distance from the start of `s1` to `s2.point(uw / uv)`. */
  lemma FirstStartCase(s1: Segment, s2: Segment, p: Params)
    requires s1.Valid() && s2.Valid() && InitialParams(s1, s2) == Ok(p)
    requires p.sc < 0.0 && 0.0 < GramOf(s1, s2).uw < GramOf(s1, s2).uv
    ensures SquaredDistance(s1, s2) == Ok(SqrDistAt(s1, s2, 0.0, TAtStart(GramOf(s1, s2))))
  {
  }

  /** sc rises above 1 and the guard of main.cpp:80 holds: the solver
      returns the distance from the end of `s1` to `s2.point((uu + uw) / uv)`. */
  lemma FirstEndCase(s1: Segment, s2: Segment, p: Params)
    requires s1.Valid() && s2.Valid() && InitialParams(s1, s2) == Ok(p)
    requires p.sc > 1.0 && GramOf(s1, s2).uu > -GramOf(s1, s2).uw
    requires GramOf(s1, s2).uu + GramOf(s1, s2).uw < GramOf(s1, s2).uv
    ensures SquaredDistance(s1, s2) == Ok(SqrDistAt(s1, s2, 1.0, TAtEnd(GramOf(s1, s2))))
  {
  }

  /** sc falls outside [0, 1] and the foot from the clamped end of `s1`,
      known by its value `t`, lies inside `s2`: the intended solver returns
      the distance `d` from that end to the foot. */
  lemma IntendedOntoSecondAt(s1: Segment, s2: Segment, p: Params, t: real, d: real)
    requires s1.Valid() && s2.Valid() && InitialParams(s1, s2) == Ok(p) && !InUnit(p.sc)
    requires GramOf(s1, s2).vv > 0.0 && FootOnSecond(GramOf(s1, s2), Clamp(p.sc)) == t && 0.0 < t < 1.0
    requires SqrDistAt(s1, s2, Clamp(p.sc), t) == d
    ensures IntendedSquaredDistance(s1, s2) == Ok(d)
  {
    IntendedOntoSecondCase(s1, s2, p);
  }

  /** sc lies in [0, 1], tc outside it, and the foot from the clamped end of
      `s2`, known by its value `t`, lies inside `s1`: the intended solver
      returns the distance `d` from the foot to that end. */
  lemma IntendedOntoFirstAt(s1: Segment, s2: Segment, p: Params, t: real, d: real)
    requires s1.Valid() && s2.Valid() && InitialParams(s1, s2) == Ok(p) && InUnit(p.sc) && !InUnit(p.tc)
    requires GramOf(s1, s2).uu > 0.0 && FootOnFirst(GramOf(s1, s2), Clamp(p.tc)) == t && 0.0 < t < 1.0
    requires SqrDistAt(s1, s2, t, Clamp(p.tc)) == d
    ensures IntendedSquaredDistance(s1, s2) == Ok(d)
  {
    IntendedOntoFirstCase(s1, s2, p);
  }

  /** sc falls outside [0, 1] and the foot from the clamped end of `s1` lies
      inside `s2`: the intended solver returns the distance to that foot. */
  lemma IntendedOntoSecondCase(s1: Segment, s2: Segment, p: Params)
    requires s1.Valid() && s2.Valid() && InitialParams(s1, s2) == Ok(p)
    requires DropsOntoSecond(GramOf(s1, s2), p)
    ensures IntendedSquaredDistance(s1, s2)
         == Ok(SqrDistAt(s1, s2, Clamp(p.sc), FootOnSecond(GramOf(s1, s2), Clamp(p.sc))))
  {
  }

  /** Only tc falls outside [0, 1] and the foot from the clamped end of `s2`
      lies inside `s1`: the intended solver returns the distance to that
      foot. */
  lemma IntendedOntoFirstCase(s1: Segment, s2: Segment, p: Params)
    requires s1.Valid() && s2.Valid() && InitialParams(s1, s2) == Ok(p)
    requires DropsOntoFirst(GramOf(s1, s2), p)
    ensures IntendedSquaredDistance(s1, s2)
         == Ok(SqrDistAt(s1, s2, FootOnFirst(GramOf(s1, s2), Clamp(p.tc)), Clamp(p.tc)))
  {
  }
}
