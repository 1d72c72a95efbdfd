/** Inputs on which `Task.solve` departs from what it evidently intends: the line through the
    published pair and the published crossings should be the longest chord of the rectangle
    cut by a line through two sample points. Each lemma exhibits one departure of the model
    as written; the corrected counterparts are `Intended.Chord`, `Intended.LongestChord`
    and `Task.SolveLongest`. */
module Findings {
  import opened Geometry
  import opened Engine
  import opened Scan
  import opened Task
  import Intended
  import Scenarios

  // The rectangle with corners (0, 0) and (10, 10) used by the first two findings.

  predicate Square10(tops: seq<Vec>) {
    tops == [Vec(0.0, 0.0), Vec(10.0, 10.0)]
  }

  lemma Square10Bounds(t: Task)
    requires Square10(t.tops)
    ensures |t.tops| >= 2 && Bnd(t) == Bounds(0.0, 10.0, 0.0, 10.0)
  {
  }

  // Vertical pairs are never compared (Task.java:361-367 against Task.java:424-430).

  predicate VerticalInput(points: seq<Vec>, tops: seq<Vec>) {
    |points| == 2 && points[0] == Vec(5.0, 0.0) && points[1] == Vec(5.0, 1.0) && Square10(tops)
  }

  /** The vertical pair meets the rectangle but is not compared. */
  predicate VerticalEffects(pts: seq<Vec>, b: Bounds) {
    && |pts| == 2 && WellFormed(b)
    && PairEffect(pts[0], pts[1], b) == Full(Vec(5.0, 0.0), Vec(5.0, 10.0), 100.0)
    && !NonVertical(pts, Pair(0, 1))
  }

  lemma VerticalInputEffects(t: Task)
    requires VerticalInput(t.points, t.tops)
    ensures |t.tops| >= 2 && VerticalEffects(t.points, Bnd(t))
  {
    Square10Bounds(t);
  }

  lemma VerticalOutcome(t: Task)
    requires |t.tops| >= 2 && VerticalEffects(t.points, Bnd(t))
    ensures Solve(t) == t.(rectangle := true, solved := true)
  {
    Scenarios.PairsOfTwo();
    PairsValid(2);
    Scenarios.RunSnoc(t.points, Bnd(t), [], Pair(0, 1), Pairs(2), Init);
    Scenarios.StepFull(t.points, Bnd(t), Init, Pair(0, 1), 0);
  }

  lemma SolvedVertical(t: Task)
    requires VerticalInput(t.points, t.tops)
    ensures Solve(t) == t.(rectangle := true, solved := true)
  {
    VerticalInputEffects(t);
    VerticalOutcome(t);
  }

  lemma VerticalChord(points: seq<Vec>, tops: seq<Vec>)
    requires VerticalInput(points, tops)
    ensures Intended.Chord(LineOf(points[0], points[1]), Normalise(tops[0], tops[1]))
      == Some(Intended.Segment(Vec(5.0, 0.0), Vec(5.0, 10.0)))
  {
  }

  /** The line x = 5 through (5, 0) and (5, 1) crosses the rectangle with corners (0, 0) and
      (10, 10) from (5, 0) to (5, 10), yet `solve` publishes nothing. */
  lemma VerticalNeverCompared(t: Task)
    requires VerticalInput(t.points, t.tops) && t.sPoints == [] && t.crossPoints == []
    ensures GetsPoints(Solve(t)) == [] && GetCrossPoints(Solve(t)) == [] && IsSolved(Solve(t))
    ensures Intended.Chord(LineOf(t.points[0], t.points[1]), Normalise(t.tops[0], t.tops[1])).Some?
  {
    SolvedVertical(t);
    VerticalChord(t.points, t.tops);
  }

  // A pair that misses the rectangle is published with a stale chord (Task.java:339,
  // 348-349 and 424-430).

  predicate StaleInput(points: seq<Vec>, tops: seq<Vec>) {
    && |points| == 3 && points[0] == Vec(5.0, 20.0) && points[1] == Vec(5.0, 30.0) && points[2] == Vec(30.0, 30.0)
    && Square10(tops)
  }

  /** The vertical pair (0, 1) meets the rectangle; the pairs (0, 2) and (1, 2) miss it. */
  predicate StaleEffects(pts: seq<Vec>, b: Bounds) {
    && |pts| == 3 && WellFormed(b)
    && PairEffect(pts[0], pts[1], b) == Full(Vec(5.0, 0.0), Vec(5.0, 10.0), 100.0)
    && PairEffect(pts[0], pts[2], b) == Untouched
    && PairEffect(pts[1], pts[2], b) == Untouched
    && !NonVertical(pts, Pair(0, 1)) && NonVertical(pts, Pair(0, 2)) && NonVertical(pts, Pair(1, 2))
  }

  predicate StaleScene(pts: seq<Vec>, b: Bounds) {
    && |pts| == 3 && pts[0] == Vec(5.0, 20.0) && pts[1] == Vec(5.0, 30.0) && pts[2] == Vec(30.0, 30.0)
    && b == Bounds(0.0, 10.0, 0.0, 10.0)
  }

  lemma StaleLine02() ensures LineOf(Vec(5.0, 20.0), Vec(30.0, 30.0)) == Sloped(0.4, 18.0) {}
  lemma StaleLine12() ensures LineOf(Vec(5.0, 30.0), Vec(30.0, 30.0)) == Sloped(0.0, 30.0) {}
  lemma StaleSloped02()
    ensures SlopedEffect(0.4, 18.0, Bounds(0.0, 10.0, 0.0, 10.0)) == Untouched
  {
    assert SidesOf(0.4, 18.0, Bounds(0.0, 10.0, 0.0, 10.0)) == Sides(18.0, 22.0, -45.0, -20.0);
    SlopedEffectSides(0.4, 18.0, Bounds(0.0, 10.0, 0.0, 10.0));
  }

  lemma StaleEffect01(a: Vec, c: Vec, bnd: Bounds)
    requires a == Vec(5.0, 20.0) && c == Vec(5.0, 30.0) && bnd == Bounds(0.0, 10.0, 0.0, 10.0)
    ensures PairEffect(a, c, bnd) == Full(Vec(5.0, 0.0), Vec(5.0, 10.0), 100.0)
  {}
  lemma StaleEffect02(a: Vec, c: Vec, bnd: Bounds)
    requires a == Vec(5.0, 20.0) && c == Vec(30.0, 30.0) && bnd == Bounds(0.0, 10.0, 0.0, 10.0)
    ensures PairEffect(a, c, bnd) == Untouched
  { StaleLine02(); StaleSloped02(); }
  lemma StaleEffect12(a: Vec, c: Vec, bnd: Bounds)
    requires a == Vec(5.0, 30.0) && c == Vec(30.0, 30.0) && bnd == Bounds(0.0, 10.0, 0.0, 10.0)
    ensures PairEffect(a, c, bnd) == Untouched
  { StaleLine12(); }

  lemma StaleSceneEffects(pts: seq<Vec>, b: Bounds)
    requires StaleScene(pts, b)
    ensures StaleEffects(pts, b)
  {
    StaleEffect01(pts[0], pts[1], b);
    StaleEffect02(pts[0], pts[2], b);
    StaleEffect12(pts[1], pts[2], b);
  }

  lemma StaleInputEffects(t: Task)
    requires StaleInput(t.points, t.tops)
    ensures |t.tops| >= 2 && StaleEffects(t.points, Bnd(t))
  {
    Square10Bounds(t);
    assert StaleScene(t.points, Bnd(t));
    StaleSceneEffects(t.points, Bnd(t));
  }

  /** The accumulator once the vertical pair has run: a length and crossings, no winner. */
  const AfterVertical := Init.(length := 100.0, crossA := Some(Vec(5.0, 0.0)), crossB := Some(Vec(5.0, 10.0)))

  /** The accumulator once pair (0, 2) has been compared with the stale length. */
  const StaleWinner := AfterVertical.(lengthMax := 100.0, best := Some(1),
                                      crossAmax := Some(Vec(5.0, 0.0)), crossBmax := Some(Vec(5.0, 10.0)))

  lemma StaleRun2(pts: seq<Vec>, b: Bounds)
    requires StaleEffects(pts, b)
    ensures ValidPairs([Pair(0, 1), Pair(0, 2)], 3)
    ensures Run(pts, b, [Pair(0, 1), Pair(0, 2)]) == StaleWinner
  {
    assert ValidPairs([Pair(0, 1), Pair(0, 2)], 3);
    StaleRun1(pts, b);
    Scenarios.RunSnoc(pts, b, [Pair(0, 1)], Pair(0, 2), [Pair(0, 1), Pair(0, 2)], AfterVertical);
    Scenarios.StepUntouched(pts, b, AfterVertical, Pair(0, 2), 1);
  }

  lemma StaleRun1(pts: seq<Vec>, b: Bounds)
    requires StaleEffects(pts, b)
    ensures ValidPairs([Pair(0, 1)], 3)
    ensures Run(pts, b, [Pair(0, 1)]) == AfterVertical
  {
    assert ValidPairs([Pair(0, 1)], 3);
    Scenarios.RunSnoc(pts, b, [], Pair(0, 1), [Pair(0, 1)], Init);
    Scenarios.StepFull(pts, b, Init, Pair(0, 1), 0);
  }

  lemma StaleRun3(pts: seq<Vec>, b: Bounds)
    requires StaleEffects(pts, b)
    ensures ValidPairs(Pairs(3), 3)
    ensures Run(pts, b, Pairs(3)) == StaleWinner
  {
    Scenarios.PairsOfThree();
    PairsValid(3);
    StaleRun2(pts, b);
    Scenarios.RunSnoc(pts, b, [Pair(0, 1), Pair(0, 2)], Pair(1, 2), Pairs(3), StaleWinner);
    Scenarios.StepUntouched(pts, b, StaleWinner, Pair(1, 2), 2);
  }

  lemma StaleOutcome(t: Task)
    requires |t.tops| >= 2 && StaleEffects(t.points, Bnd(t))
    ensures Solve(t).sPoints == t.sPoints + [t.points[0], t.points[2]]
    ensures Solve(t).crossPoints == t.crossPoints + [Vec(5.0, 0.0), Vec(5.0, 10.0)]
  {
    StaleRun3(t.points, Bnd(t));
    Scenarios.PairsOfThree();
  }

  /** The line through (5, 20) and (30, 30) misses the rectangle, and neither published
      crossing, (5, 0) or (5, 10), is on it: the whole published chord is the vertical pair's. */
  lemma StaleGeometry(points: seq<Vec>, tops: seq<Vec>)
    requires StaleInput(points, tops)
    ensures !OnLine(LineOf(points[0], points[2]), Vec(5.0, 0.0))
    ensures !OnLine(LineOf(points[0], points[2]), Vec(5.0, 10.0))
    ensures Intended.Chord(LineOf(points[0], points[2]), Normalise(tops[0], tops[1])).None?
  {
    StaleLine02();
    assert Normalise(tops[0], tops[1]) == Bounds(0.0, 10.0, 0.0, 10.0);
    assert Intended.SlopedChord(0.4, 18.0, Bounds(0.0, 10.0, 0.0, 10.0)).None?;
  }

  /** Points (5, 20), (5, 30), (30, 30) with corners (0, 0) and (10, 10): the vertical pair
      leaves its chord behind, the pair (5, 20), (30, 30) misses the rectangle but is compared
      with that stale length and wins, and `solve` publishes it together with the vertical
      pair's crossings (which `StaleGeometry` shows do not even lie on its line). */
  lemma StaleChordPublished(t: Task)
    requires StaleInput(t.points, t.tops)
    ensures Solve(t).sPoints == t.sPoints + [t.points[0], t.points[2]]
    ensures Solve(t).crossPoints == t.crossPoints + [Vec(5.0, 0.0), Vec(5.0, 10.0)]
  {
    StaleInputEffects(t);
    StaleOutcome(t);
  }

  // Two crossings at the same corner (Task.java:383-395). `Intended.ShortOnlyAtCorner` shows
  // that these are the only pairs whose recorded chord differs from the intended one: a rising
  // line through the bottom-left corner and a falling line through the bottom-right corner,
  // each leaving the rectangle through the top side.

  lemma CornerLine()
    ensures LineOf(Vec(0.0, 0.0), Vec(1.0, 2.0)) == Sloped(2.0, 0.0)
  {
  }

  lemma CornerEffect(a: Vec, c: Vec, bnd: Bounds)
    requires a == Vec(0.0, 0.0) && c == Vec(1.0, 2.0) && bnd == Bounds(0.0, 1.0, 0.0, 1.0)
    ensures PairEffect(a, c, bnd) == Full(Vec(0.0, 0.0), Vec(0.0, 0.0), 0.0)
  {
    CornerLine();
    CornerSloped();
  }

  lemma CornerSloped()
    ensures SlopedEffect(2.0, 0.0, Bounds(0.0, 1.0, 0.0, 1.0)) == Full(Vec(0.0, 0.0), Vec(0.0, 0.0), 0.0)
  {
    assert SidesOf(2.0, 0.0, Bounds(0.0, 1.0, 0.0, 1.0)) == Sides(0.0, 2.0, 0.0, 0.5);
    SlopedEffectSides(2.0, 0.0, Bounds(0.0, 1.0, 0.0, 1.0));
    CornerAccept();
  }

  /** The left side is accepted at (0, 0), the right side at height 2 is not, and the bottom
      side is accepted at abscissa 0, the same corner. */
  lemma CornerAccept()
    ensures AcceptCrossings(Bounds(0.0, 1.0, 0.0, 1.0), 0.0, 2.0, 0.0, 0.5) == Full(Vec(0.0, 0.0), Vec(0.0, 0.0), 0.0)
  {
    assert SqDist(Vec(0.0, 0.0), Vec(0.0, 0.0)) == 0.0;
  }

  lemma CornerChord(a: Vec, c: Vec, bnd: Bounds)
    requires a == Vec(0.0, 0.0) && c == Vec(1.0, 2.0) && bnd == Bounds(0.0, 1.0, 0.0, 1.0)
    ensures Intended.Chord(LineOf(a, c), bnd) == Some(Intended.Segment(Vec(0.0, 0.0), Vec(0.5, 1.0)))
  {
    CornerLine();
    assert Intended.SlopedChord(2.0, 0.0, Bounds(0.0, 1.0, 0.0, 1.0)) == Some(Intended.Segment(Vec(0.0, 0.0), Vec(0.5, 1.0)));
  }

  /** The rising line y = 2x through (0, 0) and (1, 2) enters the unit square at the corner
      (0, 0) and leaves it through the top side at (0.5, 1). The step accepts the left side at
      (0, 0), skips the right side, and then accepts the bottom side at the same corner, so it
      records a chord of length 0; the intended chord has squared length 1.25. */
  lemma CornerCollapse(a: Vec, c: Vec, bnd: Bounds)
    requires a == Vec(0.0, 0.0) && c == Vec(1.0, 2.0) && bnd == Bounds(0.0, 1.0, 0.0, 1.0)
    ensures Intended.CornerCollapses(LineOf(a, c), bnd)
    ensures PairEffect(a, c, bnd) == Full(Vec(0.0, 0.0), Vec(0.0, 0.0), 0.0)
    ensures OnLine(LineOf(a, c), Vec(0.5, 1.0)) && OnBoundary(bnd, Vec(0.5, 1.0))
  {
    CornerEffect(a, c, bnd);
    CornerLine();
  }

  lemma FallingLine()
    ensures LineOf(Vec(1.0, 0.0), Vec(0.0, 2.0)) == Sloped(-2.0, 2.0)
  {
  }

  lemma FallingSloped()
    ensures SlopedEffect(-2.0, 2.0, Bounds(0.0, 1.0, 0.0, 1.0)) == Full(Vec(1.0, 0.0), Vec(1.0, 0.0), 0.0)
  {
    assert SidesOf(-2.0, 2.0, Bounds(0.0, 1.0, 0.0, 1.0)) == Sides(2.0, 0.0, 1.0, 0.5);
    SlopedEffectSides(-2.0, 2.0, Bounds(0.0, 1.0, 0.0, 1.0));
    FallingAccept();
  }

  /** The left side at height 2 is not accepted, the right side is accepted at (1, 0), and the
      bottom side is accepted at abscissa 1, the same corner. */
  lemma FallingAccept()
    ensures AcceptCrossings(Bounds(0.0, 1.0, 0.0, 1.0), 2.0, 0.0, 1.0, 0.5) == Full(Vec(1.0, 0.0), Vec(1.0, 0.0), 0.0)
  {
    assert SqDist(Vec(1.0, 0.0), Vec(1.0, 0.0)) == 0.0;
  }

  lemma FallingEffect(a: Vec, c: Vec, bnd: Bounds)
    requires a == Vec(1.0, 0.0) && c == Vec(0.0, 2.0) && bnd == Bounds(0.0, 1.0, 0.0, 1.0)
    ensures PairEffect(a, c, bnd) == Full(Vec(1.0, 0.0), Vec(1.0, 0.0), 0.0)
  {
    FallingLine();
    FallingSloped();
  }

  lemma FallingChord()
    ensures Intended.CornerCollapses(Sloped(-2.0, 2.0), Bounds(0.0, 1.0, 0.0, 1.0))
    ensures Intended.Chord(Sloped(-2.0, 2.0), Bounds(0.0, 1.0, 0.0, 1.0)) == Some(Intended.Segment(Vec(0.5, 1.0), Vec(1.0, 0.0)))
  {
    assert Intended.SlopedChord(-2.0, 2.0, Bounds(0.0, 1.0, 0.0, 1.0)) == Some(Intended.Segment(Vec(0.5, 1.0), Vec(1.0, 0.0)));
  }

  /** The mirror case: the falling line y = 2 - 2x through (1, 0) and (0, 2) enters the unit
      square at the corner (1, 0) and leaves it through the top side at (0.5, 1). The step
      skips the left side, accepts the right side at (1, 0) and then the bottom side at the
      same corner, so it again records a chord of length 0 where the intended chord runs
      from (0.5, 1) to (1, 0). */
  lemma CornerCollapseFalling(a: Vec, c: Vec, bnd: Bounds)
    requires a == Vec(1.0, 0.0) && c == Vec(0.0, 2.0) && bnd == Bounds(0.0, 1.0, 0.0, 1.0)
    ensures LineOf(a, c) == Sloped(-2.0, 2.0) && Intended.CornerCollapses(Sloped(-2.0, 2.0), bnd)
    ensures PairEffect(a, c, bnd) == Full(Vec(1.0, 0.0), Vec(1.0, 0.0), 0.0)
    ensures Intended.Chord(Sloped(-2.0, 2.0), bnd) == Some(Intended.Segment(Vec(0.5, 1.0), Vec(1.0, 0.0)))
  {
    FallingLine();
    FallingEffect(a, c, bnd);
    FallingChord();
  }
}
