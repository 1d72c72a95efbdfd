/** Worked runs of the solver on concrete inputs: the scenarios of UnitTest.java, traced pair by
    pair. Each run is split in two steps so that the concrete coordinates and the scan never
    meet in one proof: the per-pair effects are computed from the coordinates first, and the
    scan is then traced from the effects alone. */
module Scenarios {
  import opened Geometry
  import opened Engine
  import opened Scan
  import opened Task

  // Tracing the scan.

  lemma PairsOfTwo()
    ensures Pairs(2) == [Pair(0, 1)]
  {
    assert Row(0, 2) == [Pair(0, 1)];
    assert Row(1, 2) == [];
    assert PairsFrom(2, 2) == [];
    assert PairsFrom(1, 2) == [];
  }

  lemma PairsOfThree()
    ensures Pairs(3) == [Pair(0, 1), Pair(0, 2), Pair(1, 2)]
  {
    assert Row(0, 3) == [Pair(0, 1), Pair(0, 2)];
    assert Row(1, 3) == [Pair(1, 2)];
    assert Row(2, 3) == [];
    assert PairsFrom(3, 3) == [];
    assert PairsFrom(2, 3) == [];
  }

  lemma PairsOfFour()
    ensures Pairs(4) == [Pair(0, 1), Pair(0, 2), Pair(0, 3), Pair(1, 2), Pair(1, 3), Pair(2, 3)]
  {
    assert Row(0, 4) == [Pair(0, 1), Pair(0, 2), Pair(0, 3)];
    assert Row(1, 4) == [Pair(1, 2), Pair(1, 3)];
    assert Row(2, 4) == [Pair(2, 3)];
    assert Row(3, 4) == [];
    assert PairsFrom(4, 4) == [];
    assert PairsFrom(3, 4) == [];
  }

  /** The scan over `ps` followed by `p` is one more step after the scan over `ps`. */
  lemma RunSnoc(points: seq<Vec>, bnd: Bounds, ps: seq<Pair>, p: Pair, qs: seq<Pair>, acc: Acc)
    requires WellFormed(bnd) && qs == ps + [p] && ValidPairs(qs, |points|)
    requires ValidPairs(ps, |points|) ==> Run(points, bnd, ps) == acc
    ensures ValidPairs(ps, |points|)
    ensures Run(points, bnd, qs) == Step(points, bnd, acc, p, |ps|)
  {
    assert qs[..|ps|] == ps;
    var vs := Visits(points, bnd, qs);
    assert vs[..|ps|] == Visits(points, bnd, ps);
  }

  /** A step whose pair meets the rectangle. */
  lemma StepFull(points: seq<Vec>, bnd: Bounds, acc: Acc, p: Pair, pos: nat)
    requires WellFormed(bnd) && p.i < |points| && p.j < |points|
    requires PairEffect(points[p.i], points[p.j], bnd).Full?
    ensures var e := PairEffect(points[p.i], points[p.j], bnd);
      Step(points, bnd, acc, p, pos) ==
        if NonVertical(points, p) && e.len > acc.lengthMax
        then acc.(length := e.len, crossA := Some(e.crossA), crossB := Some(e.crossB), lengthMax := e.len,
                  best := Some(pos), crossAmax := Some(e.crossA), crossBmax := Some(e.crossB))
        else acc.(length := e.len, crossA := Some(e.crossA), crossB := Some(e.crossB))
  {
  }

  /** A step whose pair misses the rectangle: only a comparison with the stale length. */
  lemma StepUntouched(points: seq<Vec>, bnd: Bounds, acc: Acc, p: Pair, pos: nat)
    requires WellFormed(bnd) && p.i < |points| && p.j < |points|
    requires PairEffect(points[p.i], points[p.j], bnd).Untouched?
    ensures Step(points, bnd, acc, p, pos) ==
      if NonVertical(points, p) && acc.length > acc.lengthMax
      then acc.(lengthMax := acc.length, best := Some(pos), crossAmax := acc.crossA, crossBmax := acc.crossB)
      else acc
  {
  }

  // The first scenario (UnitTest.java:44-65): points (1, 1), (9, 9), (6, 1), (6, 9) and corners
  // (9, 8), (2, 3), that is left 2, right 9, bottom 3, top 8.

  lemma Line01() ensures LineOf(Vec(1.0, 1.0), Vec(9.0, 9.0)) == Sloped(1.0, 0.0) {}
  lemma Line02() ensures LineOf(Vec(1.0, 1.0), Vec(6.0, 1.0)) == Sloped(0.0, 1.0) {}
  lemma Line03() ensures LineOf(Vec(1.0, 1.0), Vec(6.0, 9.0)) == Sloped(1.6, -0.6) {}
  lemma Line12() ensures LineOf(Vec(9.0, 9.0), Vec(6.0, 1.0)) == Sloped(8.0 / 3.0, -15.0) {}
  lemma Line13() ensures LineOf(Vec(9.0, 9.0), Vec(6.0, 9.0)) == Sloped(0.0, 9.0) {}

  // Each general-branch step is read through the line's four side crossings first, so that the
  // acceptance order is evaluated on plain numbers.

  lemma Sloped01()
    ensures SlopedEffect(1.0, 0.0, Bounds(2.0, 9.0, 3.0, 8.0)) == Full(Vec(3.0, 3.0), Vec(8.0, 8.0), 50.0)
  {
    assert SidesOf(1.0, 0.0, Bounds(2.0, 9.0, 3.0, 8.0)) == Sides(2.0, 9.0, 3.0, 8.0);
    SlopedEffectSides(1.0, 0.0, Bounds(2.0, 9.0, 3.0, 8.0));
  }

  lemma Sloped03()
    ensures SlopedEffect(1.6, -0.6, Bounds(2.0, 9.0, 3.0, 8.0)) == Full(Vec(2.25, 3.0), Vec(5.375, 8.0), 34.765625)
  {
    assert SidesOf(1.6, -0.6, Bounds(2.0, 9.0, 3.0, 8.0)) == Sides(2.6, 13.8, 2.25, 5.375);
    SlopedEffectSides(1.6, -0.6, Bounds(2.0, 9.0, 3.0, 8.0));
  }

  lemma Sloped12()
    ensures SlopedEffect(8.0 / 3.0, -15.0, Bounds(2.0, 9.0, 3.0, 8.0)) == Full(Vec(6.75, 3.0), Vec(8.625, 8.0), 28.515625)
  {
    assert SidesOf(8.0 / 3.0, -15.0, Bounds(2.0, 9.0, 3.0, 8.0)) == Sides(-29.0 / 3.0, 9.0, 6.75, 8.625);
    SlopedEffectSides(8.0 / 3.0, -15.0, Bounds(2.0, 9.0, 3.0, 8.0));
  }

  predicate Scene1(pts: seq<Vec>, b: Bounds) {
    && |pts| == 4 && pts[0] == Vec(1.0, 1.0) && pts[1] == Vec(9.0, 9.0) && pts[2] == Vec(6.0, 1.0) && pts[3] == Vec(6.0, 9.0)
    && b == Bounds(2.0, 9.0, 3.0, 8.0)
  }

  lemma Effect01(a: Vec, c: Vec, bnd: Bounds)
    requires a == Vec(1.0, 1.0) && c == Vec(9.0, 9.0) && bnd == Bounds(2.0, 9.0, 3.0, 8.0)
    ensures PairEffect(a, c, bnd) == Full(Vec(3.0, 3.0), Vec(8.0, 8.0), 50.0)
  { Line01(); Sloped01(); }
  lemma Effect02(a: Vec, c: Vec, bnd: Bounds)
    requires a == Vec(1.0, 1.0) && c == Vec(6.0, 1.0) && bnd == Bounds(2.0, 9.0, 3.0, 8.0)
    ensures PairEffect(a, c, bnd) == Untouched
  { Line02(); }
  lemma Effect03(a: Vec, c: Vec, bnd: Bounds)
    requires a == Vec(1.0, 1.0) && c == Vec(6.0, 9.0) && bnd == Bounds(2.0, 9.0, 3.0, 8.0)
    ensures PairEffect(a, c, bnd) == Full(Vec(2.25, 3.0), Vec(5.375, 8.0), 34.765625)
  { Line03(); Sloped03(); }
  lemma Effect12(a: Vec, c: Vec, bnd: Bounds)
    requires a == Vec(9.0, 9.0) && c == Vec(6.0, 1.0) && bnd == Bounds(2.0, 9.0, 3.0, 8.0)
    ensures PairEffect(a, c, bnd) == Full(Vec(6.75, 3.0), Vec(8.625, 8.0), 28.515625)
  { Line12(); Sloped12(); }
  lemma Effect13(a: Vec, c: Vec, bnd: Bounds)
    requires a == Vec(9.0, 9.0) && c == Vec(6.0, 9.0) && bnd == Bounds(2.0, 9.0, 3.0, 8.0)
    ensures PairEffect(a, c, bnd) == Untouched
  { Line13(); }
  lemma Effect23(a: Vec, c: Vec, bnd: Bounds)
    requires a == Vec(6.0, 1.0) && c == Vec(6.0, 9.0) && bnd == Bounds(2.0, 9.0, 3.0, 8.0)
    ensures PairEffect(a, c, bnd) == Full(Vec(6.0, 3.0), Vec(6.0, 8.0), 25.0)
  {}

  /** The accumulator after the first pair, which wins; later pairs only move the running values. */
  const Won1 := Acc(50.0, Some(Vec(3.0, 3.0)), Some(Vec(8.0, 8.0)), 50.0, Some(0), Some(Vec(3.0, 3.0)), Some(Vec(8.0, 8.0)))

  function Running1(len: real, a: Vec, b: Vec): Acc { Won1.(length := len, crossA := Some(a), crossB := Some(b)) }

  /** The per-pair effects of the first scenario, with the sample coordinates forgotten. */
  predicate Effects1(pts: seq<Vec>, b: Bounds)
  {
    && |pts| == 4 && WellFormed(b)
    && PairEffect(pts[0], pts[1], b) == Full(Vec(3.0, 3.0), Vec(8.0, 8.0), 50.0)
    && PairEffect(pts[0], pts[2], b) == Untouched
    && PairEffect(pts[0], pts[3], b) == Full(Vec(2.25, 3.0), Vec(5.375, 8.0), 34.765625)
    && PairEffect(pts[1], pts[2], b) == Full(Vec(6.75, 3.0), Vec(8.625, 8.0), 28.515625)
    && PairEffect(pts[1], pts[3], b) == Untouched
    && PairEffect(pts[2], pts[3], b) == Full(Vec(6.0, 3.0), Vec(6.0, 8.0), 25.0)
    && NonVertical(pts, Pair(0, 1)) && NonVertical(pts, Pair(0, 2)) && NonVertical(pts, Pair(0, 3))
    && NonVertical(pts, Pair(1, 2)) && NonVertical(pts, Pair(1, 3)) && !NonVertical(pts, Pair(2, 3))
  }

  lemma SceneEffects1(pts: seq<Vec>, b: Bounds)
    requires Scene1(pts, b)
    ensures Effects1(pts, b)
  {
    Effect01(pts[0], pts[1], b);
    Effect02(pts[0], pts[2], b);
    Effect03(pts[0], pts[3], b);
    Effect12(pts[1], pts[2], b);
    Effect13(pts[1], pts[3], b);
    Effect23(pts[2], pts[3], b);
  }

  lemma Step1(pts: seq<Vec>, b: Bounds)
    requires Effects1(pts, b)
    ensures Step(pts, b, Init, Pair(0, 1), 0) == Won1
  {
    StepFull(pts, b, Init, Pair(0, 1), 0);
  }

  lemma Step2(pts: seq<Vec>, b: Bounds)
    requires Effects1(pts, b)
    ensures Step(pts, b, Won1, Pair(0, 2), 1) == Won1
  {
    StepUntouched(pts, b, Won1, Pair(0, 2), 1);
  }

  lemma Step3(pts: seq<Vec>, b: Bounds)
    requires Effects1(pts, b)
    ensures Step(pts, b, Won1, Pair(0, 3), 2) == Running1(34.765625, Vec(2.25, 3.0), Vec(5.375, 8.0))
  {
    StepFull(pts, b, Won1, Pair(0, 3), 2);
  }

  lemma Step4(pts: seq<Vec>, b: Bounds)
    requires Effects1(pts, b)
    ensures Step(pts, b, Running1(34.765625, Vec(2.25, 3.0), Vec(5.375, 8.0)), Pair(1, 2), 3) == Running1(28.515625, Vec(6.75, 3.0), Vec(8.625, 8.0))
  {
    StepFull(pts, b, Running1(34.765625, Vec(2.25, 3.0), Vec(5.375, 8.0)), Pair(1, 2), 3);
  }

  lemma Step5(pts: seq<Vec>, b: Bounds)
    requires Effects1(pts, b)
    ensures Step(pts, b, Running1(28.515625, Vec(6.75, 3.0), Vec(8.625, 8.0)), Pair(1, 3), 4) == Running1(28.515625, Vec(6.75, 3.0), Vec(8.625, 8.0))
  {
    StepUntouched(pts, b, Running1(28.515625, Vec(6.75, 3.0), Vec(8.625, 8.0)), Pair(1, 3), 4);
  }

  lemma Step6(pts: seq<Vec>, b: Bounds)
    requires Effects1(pts, b)
    ensures Step(pts, b, Running1(28.515625, Vec(6.75, 3.0), Vec(8.625, 8.0)), Pair(2, 3), 5) == Running1(25.0, Vec(6.0, 3.0), Vec(6.0, 8.0))
  {
    StepFull(pts, b, Running1(28.515625, Vec(6.75, 3.0), Vec(8.625, 8.0)), Pair(2, 3), 5);
  }

  lemma Run1(pts: seq<Vec>, b: Bounds)
    requires Effects1(pts, b) && ValidPairs([Pair(0, 1)], 4)
    ensures Run(pts, b, [Pair(0, 1)]) == Won1
  {
    RunSnoc(pts, b, [], Pair(0, 1), [Pair(0, 1)], Init);
    Step1(pts, b);
  }

  lemma Run2(pts: seq<Vec>, b: Bounds)
    requires Effects1(pts, b) && ValidPairs([Pair(0, 1), Pair(0, 2)], 4)
    ensures Run(pts, b, [Pair(0, 1), Pair(0, 2)]) == Won1
  {
    assert ValidPairs([Pair(0, 1)], 4);
    Run1(pts, b);
    RunSnoc(pts, b, [Pair(0, 1)], Pair(0, 2), [Pair(0, 1), Pair(0, 2)], Won1);
    Step2(pts, b);
  }

  lemma Run3(pts: seq<Vec>, b: Bounds)
    requires Effects1(pts, b) && ValidPairs([Pair(0, 1), Pair(0, 2), Pair(0, 3)], 4)
    ensures Run(pts, b, [Pair(0, 1), Pair(0, 2), Pair(0, 3)]) == Running1(34.765625, Vec(2.25, 3.0), Vec(5.375, 8.0))
  {
    assert ValidPairs([Pair(0, 1), Pair(0, 2)], 4);
    Run2(pts, b);
    RunSnoc(pts, b, [Pair(0, 1), Pair(0, 2)], Pair(0, 3), [Pair(0, 1), Pair(0, 2), Pair(0, 3)], Won1);
    Step3(pts, b);
  }

  lemma Run4(pts: seq<Vec>, b: Bounds)
    requires Effects1(pts, b) && ValidPairs([Pair(0, 1), Pair(0, 2), Pair(0, 3), Pair(1, 2)], 4)
    ensures Run(pts, b, [Pair(0, 1), Pair(0, 2), Pair(0, 3), Pair(1, 2)]) == Running1(28.515625, Vec(6.75, 3.0), Vec(8.625, 8.0))
  {
    assert ValidPairs([Pair(0, 1), Pair(0, 2), Pair(0, 3)], 4);
    Run3(pts, b);
    RunSnoc(pts, b, [Pair(0, 1), Pair(0, 2), Pair(0, 3)], Pair(1, 2), [Pair(0, 1), Pair(0, 2), Pair(0, 3), Pair(1, 2)], Running1(34.765625, Vec(2.25, 3.0), Vec(5.375, 8.0)));
    Step4(pts, b);
  }

  lemma Run5(pts: seq<Vec>, b: Bounds)
    requires Effects1(pts, b) && ValidPairs([Pair(0, 1), Pair(0, 2), Pair(0, 3), Pair(1, 2), Pair(1, 3)], 4)
    ensures Run(pts, b, [Pair(0, 1), Pair(0, 2), Pair(0, 3), Pair(1, 2), Pair(1, 3)]) == Running1(28.515625, Vec(6.75, 3.0), Vec(8.625, 8.0))
  {
    assert ValidPairs([Pair(0, 1), Pair(0, 2), Pair(0, 3), Pair(1, 2)], 4);
    Run4(pts, b);
    RunSnoc(pts, b, [Pair(0, 1), Pair(0, 2), Pair(0, 3), Pair(1, 2)], Pair(1, 3), [Pair(0, 1), Pair(0, 2), Pair(0, 3), Pair(1, 2), Pair(1, 3)], Running1(28.515625, Vec(6.75, 3.0), Vec(8.625, 8.0)));
    Step5(pts, b);
  }

  lemma Run6(pts: seq<Vec>, b: Bounds)
    requires Effects1(pts, b) && ValidPairs(Pairs(4), 4)
    ensures Run(pts, b, Pairs(4)) == Running1(25.0, Vec(6.0, 3.0), Vec(6.0, 8.0))
  {
    PairsOfFour();
    assert ValidPairs([Pair(0, 1), Pair(0, 2), Pair(0, 3), Pair(1, 2), Pair(1, 3)], 4);
    Run5(pts, b);
    RunSnoc(pts, b, [Pair(0, 1), Pair(0, 2), Pair(0, 3), Pair(1, 2), Pair(1, 3)], Pair(2, 3), Pairs(4), Running1(28.515625, Vec(6.75, 3.0), Vec(8.625, 8.0)));
    Step6(pts, b);
  }

  predicate Input1(points: seq<Vec>, tops: seq<Vec>) {
    && |points| == 4 && points[0] == Vec(1.0, 1.0) && points[1] == Vec(9.0, 9.0)
    && points[2] == Vec(6.0, 1.0) && points[3] == Vec(6.0, 9.0)
    && tops == [Vec(9.0, 8.0), Vec(2.0, 3.0)]
  }

  lemma InputEffects1(t: Task)
    requires Input1(t.points, t.tops)
    ensures |t.tops| >= 2 && Effects1(t.points, Bnd(t))
  {
    assert Scene1(t.points, Bnd(t));
    SceneEffects1(t.points, Bnd(t));
  }

  /** The scan of the first scenario, from the per-pair effects alone: pair (0, 1) wins with
      squared length 50; the stale lengths the later pairs leave behind are all smaller. */
  lemma Outcome1(t: Task)
    requires |t.tops| >= 2 && Effects1(t.points, Bnd(t))
    ensures IsSolved(Solve(t)) && IsRectanglePaint(Solve(t))
    ensures Solve(t).sPoints == t.sPoints + [t.points[0], t.points[1]]
    ensures Solve(t).crossPoints == t.crossPoints + [Vec(3.0, 3.0), Vec(8.0, 8.0)]
  {
    PairsValid(4);
    Run6(t.points, Bnd(t));
    PairsOfFour();
  }

  lemma SolvedScene1(t: Task)
    requires Input1(t.points, t.tops)
    ensures IsSolved(Solve(t)) && IsRectanglePaint(Solve(t))
    ensures Solve(t).sPoints == t.sPoints + [t.points[0], t.points[1]]
    ensures Solve(t).crossPoints == t.crossPoints + [Vec(3.0, 3.0), Vec(8.0, 8.0)]
  {
    InputEffects1(t);
    Outcome1(t);
  }

  /** The first scenario: the diagonal through (1, 1) and (9, 9) wins and crosses the
      rectangle at (3, 3) and (8, 8). */
  lemma FirstScenario(t: Task)
    requires Input1(t.points, t.tops) && t.sPoints == [] && t.crossPoints == []
    ensures && IsSolved(Solve(t)) && IsRectanglePaint(Solve(t))
      && GetsPoints(Solve(t)) == [t.points[0], t.points[1]]
      && GetCrossPoints(Solve(t)) == [Vec(3.0, 3.0), Vec(8.0, 8.0)]
  {
    SolvedScene1(t);
  }

  // The second scenario (UnitTest.java:71-86): the vertical line x = -5 through (-5, 1) and
  // (-5, -8) passes left of the rectangle with corners (1, 1), (9, 9).

  predicate Input2(points: seq<Vec>, tops: seq<Vec>) {
    && |points| == 2 && points[0] == Vec(-5.0, 1.0) && points[1] == Vec(-5.0, -8.0)
    && tops == [Vec(1.0, 1.0), Vec(9.0, 9.0)]
  }

  lemma InputEffects2(t: Task)
    requires Input2(t.points, t.tops)
    ensures |t.tops| >= 2 && PairEffect(t.points[0], t.points[1], Bnd(t)) == Untouched
    ensures !NonVertical(t.points, Pair(0, 1))
  {
    assert Bnd(t) == Bounds(1.0, 9.0, 1.0, 9.0);
  }

  lemma Outcome2(t: Task)
    requires |t.tops| >= 2 && |t.points| == 2
    requires PairEffect(t.points[0], t.points[1], Bnd(t)) == Untouched && !NonVertical(t.points, Pair(0, 1))
    ensures Solve(t) == t.(rectangle := true, solved := true)
  {
    PairsOfTwo();
    PairsValid(2);
    RunSnoc(t.points, Bnd(t), [], Pair(0, 1), Pairs(2), Init);
    StepUntouched(t.points, Bnd(t), Init, Pair(0, 1), 0);
  }

  /** The second scenario: nothing is published, the task is solved, and the empty result is
      reported through `isParallelLineCross` although no line meets the rectangle. */
  lemma SecondScenario(t: Task)
    requires Input2(t.points, t.tops) && t.sPoints == [] && t.crossPoints == []
    ensures && IsSolved(Solve(t)) && IsRectanglePaint(Solve(t))
      && GetsPoints(Solve(t)) == [] && GetCrossPoints(Solve(t)) == []
      && IsParallelLineCross(Solve(t))
  {
    InputEffects2(t);
    Outcome2(t);
  }
}
