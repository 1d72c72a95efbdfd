/** The solver state of the `Task` class (Task.java): the sample points, the rectangle
    corners (`tops`), the published result (`sPoints`, the winning pair, and `crossPoints`, its
    crossings with the rectangle) and the `solved` and `rectangle` flags. Each mutating method
    of the class is a pure function from one state to the next. */
module Task {
  import opened Geometry
  import opened Engine
  import opened Scan
  import Intended

  datatype Task = Task(
    points: seq<Vec>,
    tops: seq<Vec>,
    sPoints: seq<Vec>,
    crossPoints: seq<Vec>,
    solved: bool,
    rectangle: bool)

  /** A fresh task as the constructor builds it: given points and corners, no result yet.
      The flags start false, as uninitialised Java booleans do. */
  function New(points: seq<Vec>, tops: seq<Vec>): Task
  {
    Task(points, tops, [], [], false, false)
  }

  /** The state every public operation except `clear` keeps (see the `...KeepsValid` lemmas;
      `ClearKeepsCrossings` shows how `clear` breaks it): at most two
      corners, which differ in both coordinates when there are two; the published lists have
      equal length, every published point is a sample point, and published crossings exist
      only for a defined rectangle and lie on its boundary. */
  ghost predicate Valid(t: Task) {
    && |t.tops| <= 2
    && (|t.tops| == 2 ==> t.tops[0].x != t.tops[1].x && t.tops[0].y != t.tops[1].y)
    && |t.sPoints| == |t.crossPoints|
    && (forall p :: p in t.sPoints ==> p in t.points)
    && (|t.tops| < 2 ==> t.crossPoints == [])
    && (|t.tops| == 2 ==> forall q :: q in t.crossPoints ==> OnBoundary(Normalise(t.tops[0], t.tops[1]), q))
  }

  /** `addPoint` (Task.java:212-217): appends one sample point at the end and marks the task
      unsolved; earlier points, the corners and the published result stay as they are. */
  function AddPoint(t: Task, pos: Vec): (r: Task)
    ensures |r.points| == |t.points| + 1 && r.points[..|t.points|] == t.points && r.points[|t.points|] == pos
    ensures r.tops == t.tops && r.sPoints == t.sPoints && r.crossPoints == t.crossPoints
    ensures !r.solved && r.rectangle == t.rectangle
  {
    t.(solved := false, points := t.points + [pos])
  }

  /** The corner guard of `addTop`: a second corner sharing the first corner's x or y would
      span a degenerate rectangle. */
  predicate SharesAxis(t: Task, pos: Vec)
    requires |t.tops| == 1
  {
    t.tops[0].x == pos.x || t.tops[0].y == pos.y
  }

  /** `addTop` (Task.java:224-240): always marks the task unsolved; rejects a corner that
      shares an axis coordinate with the single existing corner, rejects any corner once two
      exist, and otherwise appends it. */
  function AddTop(t: Task, pos: Vec): (r: Task)
    ensures !r.solved
    ensures r.points == t.points && r.sPoints == t.sPoints && r.crossPoints == t.crossPoints
    ensures r.rectangle == t.rectangle
    ensures |t.tops| == 1 && SharesAxis(t, pos) ==> r.tops == t.tops
    ensures |t.tops| == 2 ==> r.tops == t.tops
    ensures (|t.tops| == 0 || (|t.tops| == 1 && !SharesAxis(t, pos))) ==> r.tops == t.tops + [pos]
    ensures |t.tops| <= 2 ==> |r.tops| <= 2
  {
    var t1 := t.(solved := false);
    if |t.tops| == 1 && SharesAxis(t, pos) then t1
    else if |t.tops| == 2 then t1
    else t1.(tops := t.tops + [pos])
  }

  /** `clear` (Task.java:316-322): empties the points, the corners and the winning pair and
      resets both flags. The crossings list is left as it is. */
  function Clear(t: Task): (r: Task)
    ensures r.points == [] && r.tops == [] && r.sPoints == []
    ensures !r.solved && !r.rectangle
    ensures r.crossPoints == t.crossPoints
  {
    t.(points := [], tops := [], sPoints := [], solved := false, rectangle := false)
  }

  /** `cancel` (Task.java:473-477): discards the published result and marks the task unsolved,
      keeping points and corners. */
  function Cancel(t: Task): (r: Task)
    ensures !r.solved && r.sPoints == [] && r.crossPoints == []
    ensures r.points == t.points && r.tops == t.tops && r.rectangle == t.rectangle
  {
    t.(solved := false, sPoints := [], crossPoints := [])
  }

  /** The rectangle bounds `solve` derives from the first two corners (Task.java:341-344). */
  function Bnd(t: Task): (b: Bounds)
    requires |t.tops| >= 2
    ensures WellFormed(b)
  {
    Normalise(t.tops[0], t.tops[1])
  }

  /** The accumulator after the pair scan of `solve` over the current points. */
  function Outcome(t: Task): (acc: Acc)
    requires |t.tops| >= 2
    ensures Sane(acc, |Pairs(|t.points|)|, Bnd(t)) && Tied(acc)
  {
    PairsValid(|t.points|);
    Run(t.points, Bnd(t), Pairs(|t.points|))
  }

  /** `solve` (Task.java:327-450). Without two corners it only clears the `rectangle` flag;
      with fewer than two points it does nothing; otherwise it scans all pairs, marks the
      task solved, and appends the winning pair and its two crossings when there is one. */
  function Solve(t: Task): (r: Task)
    ensures r.points == t.points && r.tops == t.tops
  {
    if |t.tops| < 2 then t.(rectangle := false)
    else if |t.points| >= 2 then
      var acc := Outcome(t);
      var t1 := t.(rectangle := true, solved := true);
      if acc.best.Some? then
        PairsValid(|t.points|);
        var p := Pairs(|t.points|)[acc.best.value];
        t1.(sPoints := t.sPoints + [t.points[p.i], t.points[p.j]],
            crossPoints := t.crossPoints + [acc.crossAmax.value, acc.crossBmax.value])
      else t1
    else t
  }

  function IsSolved(t: Task): bool { t.solved }

  function IsRectanglePaint(t: Task): bool { t.rectangle }

  function IsLineAble(t: Task): bool { |t.points| >= 2 }

  function IsParallelLineCross(t: Task): bool { |t.sPoints| == 0 && t.solved }

  function GetsPoints(t: Task): seq<Vec> { t.sPoints }

  function GetCrossPoints(t: Task): seq<Vec> { t.crossPoints }

  // Guard cases and publication of `solve`.

  /** Without two corners `solve` reports the undefined rectangle by clearing the `rectangle`
      flag and changes nothing else; the task stays unsolved if it was. */
  lemma SolveWithoutRectangle(t: Task)
    requires |t.tops| < 2
    ensures Solve(t) == t.(rectangle := false)
    ensures !IsRectanglePaint(Solve(t)) && IsSolved(Solve(t)) == IsSolved(t)
  {
  }

  /** With a rectangle but fewer than two points, `solve` is a no-op. */
  lemma SolveWithoutPairs(t: Task)
    requires |t.tops| >= 2 && !IsLineAble(t)
    ensures Solve(t) == t
  {
  }

  /** With a rectangle, `solve` leaves the task solved exactly when a line can be drawn
      through two points or it was solved already. */
  lemma SolveNeedsLine(t: Task)
    requires |t.tops| >= 2
    ensures IsSolved(Solve(t)) <==> IsSolved(t) || IsLineAble(t)
    ensures IsLineAble(t) ==> IsRectanglePaint(Solve(t))
  {
  }

  /** With a rectangle and at least two points, `solve` appends exactly two entries to each
      result list when the scan found a winner: the two sample points of the winning pair
      `i < j`, and the winner's two crossings, which lie on the rectangle's boundary at the
      squared distance `lengthMax`. Without a winner both lists are untouched. */
  lemma SolvePublishes(t: Task)
    requires |t.tops| >= 2 && IsLineAble(t)
    ensures IsSolved(Solve(t)) && IsRectanglePaint(Solve(t))
    ensures Outcome(t).best.None? ==> Solve(t).sPoints == t.sPoints && Solve(t).crossPoints == t.crossPoints
    ensures Outcome(t).best.Some? ==>
      && |Solve(t).sPoints| == |t.sPoints| + 2 && Solve(t).sPoints[..|t.sPoints|] == t.sPoints
      && |Solve(t).crossPoints| == |t.crossPoints| + 2 && Solve(t).crossPoints[..|t.crossPoints|] == t.crossPoints
      && (var p := Pairs(|t.points|)[Outcome(t).best.value];
          p.i < p.j < |t.points| && Solve(t).sPoints[|t.sPoints|..] == [t.points[p.i], t.points[p.j]])
      && Solve(t).crossPoints[|t.crossPoints|..] == [Outcome(t).crossAmax.value, Outcome(t).crossBmax.value]
      && OnBoundary(Bnd(t), Solve(t).crossPoints[|t.crossPoints|]) && OnBoundary(Bnd(t), Solve(t).crossPoints[|t.crossPoints| + 1])
      && SqDist(Solve(t).crossPoints[|t.crossPoints|], Solve(t).crossPoints[|t.crossPoints| + 1]) == Outcome(t).lengthMax
  {
    if Outcome(t).best.Some? {
      PairsValid(|t.points|);
      var p := Pairs(|t.points|)[Outcome(t).best.value];
      assert Solve(t).sPoints[|t.sPoints|..] == [t.points[p.i], t.points[p.j]];
      assert Solve(t).crossPoints[|t.crossPoints|..] == [Outcome(t).crossAmax.value, Outcome(t).crossBmax.value];
    }
  }

  /** Maximality as written: when a non-vertical pair `i < j` meets the rectangle, `solve`
      publishes a winner, and the two crossings it publishes lie at least as far apart as
      that pair's fresh crossings. */
  lemma SolveMaximality(t: Task, i: nat, j: nat)
    requires |t.tops| >= 2 && i < j < |t.points|
    requires t.points[i].x != t.points[j].x
    requires PairEffect(t.points[i], t.points[j], Bnd(t)).Full?
    ensures Outcome(t).best.Some? && |Solve(t).sPoints| == |t.sPoints| + 2
    ensures |Solve(t).crossPoints| == |t.crossPoints| + 2
    ensures PairEffect(t.points[i], t.points[j], Bnd(t)).len <= Outcome(t).lengthMax
    ensures PairEffect(t.points[i], t.points[j], Bnd(t)).len <=
      SqDist(Solve(t).crossPoints[|t.crossPoints|], Solve(t).crossPoints[|t.crossPoints| + 1])
  {
    SolvePublishes(t);
    var ps := Pairs(|t.points|);
    PairsValid(|t.points|);
    var k := PairIndex(|t.points|, i, j);
    var vs := Visits(t.points, Bnd(t), ps);
    assert vs[k] == Visit(PairEffect(t.points[i], t.points[j], Bnd(t)), true);
    MaxCoversFreshChords(vs, k);
    assert PairEffect(t.points[i], t.points[j], Bnd(t)).len >= 0.0;
  }

  /** `isParallelLineCross` after solving a task with no earlier result: it holds exactly when
      every non-vertical pair was compared with the sentinel length, so no winner exists. */
  lemma DegenerateSolve(t: Task)
    requires |t.tops| >= 2 && IsLineAble(t) && t.sPoints == []
    ensures (PairsValid(|t.points|); IsParallelLineCross(Solve(t)) <==>
      forall k :: 0 <= k < |Pairs(|t.points|)| && NonVertical(t.points, Pairs(|t.points|)[k]) ==>
        LengthAt(Visits(t.points, Bnd(t), Pairs(|t.points|)), k) == -1.0)
  {
    PairsValid(|t.points|);
    NoWinnerIffNothingCompared(Visits(t.points, Bnd(t), Pairs(|t.points|)), Bnd(t));
  }

  /** `solve` is not idempotent: solving again without a mutation finds the same winner and
      appends it a second time, so each result list holds the pair twice. */
  lemma SolveAppendsAgain(t: Task)
    requires |t.tops| >= 2 && IsLineAble(t) && Outcome(t).best.Some?
    ensures var n := |t.sPoints|;
      && |Solve(Solve(t)).sPoints| == n + 4
      && Solve(Solve(t)).sPoints[n + 2..] == Solve(t).sPoints[n..]
  {
    assert Outcome(Solve(t)) == Outcome(t);
  }

  // The state invariant.

  lemma NewIsValid(points: seq<Vec>)
    ensures Valid(New(points, []))
  {
  }

  lemma AddPointKeepsValid(t: Task, pos: Vec)
    requires Valid(t)
    ensures Valid(AddPoint(t, pos))
  {
  }

  /** `addTop` never creates a third corner nor a degenerate pair of corners. */
  lemma AddTopKeepsValid(t: Task, pos: Vec)
    requires Valid(t)
    ensures Valid(AddTop(t, pos))
  {
  }

  lemma CancelKeepsValid(t: Task)
    requires Valid(t)
    ensures Valid(Cancel(t))
  {
  }

  /** `solve` publishes sample points and crossings on the rectangle's boundary, in step. */
  lemma SolveKeepsValid(t: Task)
    requires Valid(t)
    ensures Valid(Solve(t))
  {
    if |t.tops| >= 2 && IsLineAble(t) {
      SolvePublishes(t);
      var r := Solve(t);
      if Outcome(t).best.Some? {
        PairsValid(|t.points|);
        var p := Pairs(|t.points|)[Outcome(t).best.value];
        assert r.sPoints == t.sPoints + [t.points[p.i], t.points[p.j]];
        assert r.crossPoints == t.crossPoints + [Outcome(t).crossAmax.value, Outcome(t).crossBmax.value];
      }
    }
  }

  /** Ties keep the earliest pair: a non-vertical pair that comes before the winner in the
      nested-loop order and meets the rectangle has a strictly shorter chord than the winning
      length. */
  lemma SolveTiesKeepFirst(t: Task, i: nat, j: nat)
    requires |t.tops| >= 2 && i < j < |t.points| && Outcome(t).best.Some?
    requires t.points[i].x != t.points[j].x
    requires PairEffect(t.points[i], t.points[j], Bnd(t)).Full?
    requires LexLess(Pair(i, j), Pairs(|t.points|)[Outcome(t).best.value])
    ensures PairEffect(t.points[i], t.points[j], Bnd(t)).len < Outcome(t).lengthMax
  {
    var ps := Pairs(|t.points|);
    PairsValid(|t.points|);
    var k := PairIndex(|t.points|, i, j);
    PositionOrder(|t.points|, k, Outcome(t).best.value);
    var vs := Visits(t.points, Bnd(t), ps);
    assert vs[k] == Visit(PairEffect(t.points[i], t.points[j], Bnd(t)), true);
    EarlierChordShorter(vs, k);
  }

  // The reset operations.

  /** `clear` leaves the published crossings behind: a valid task with a published result
      becomes a task without corners that still holds crossings. */
  lemma ClearKeepsCrossings(t: Task)
    requires Valid(t) && t.crossPoints != []
    ensures !Valid(Clear(t))
    ensures GetCrossPoints(Clear(t)) == GetCrossPoints(t) && GetsPoints(Clear(t)) == []
  {
  }

  /** After a `clear`, the next `solve` that finds a winner publishes one pair of points but
      keeps the old crossings first, and those are the ones drawn with the new pair
      (Task.java:178-198 draws `crossPoints[0]` and `crossPoints[1]`). */
  lemma StaleCrossingsDrawn(t: Task)
    requires |t.tops| >= 2 && IsLineAble(t) && Outcome(t).best.Some?
    requires t.sPoints == [] && |t.crossPoints| >= 2
    ensures |GetsPoints(Solve(t))| == 2
    ensures GetCrossPoints(Solve(t))[..2] == t.crossPoints[..2]
  {
    SolvePublishes(t);
  }

  /** The corrected `clear`: also empties the crossings, so the state invariant holds. */
  function ClearAll(t: Task): (r: Task)
    ensures Valid(r) && !r.solved && !r.rectangle
    ensures r.points == [] && r.tops == [] && r.sPoints == [] && r.crossPoints == []
  {
    Clear(t).(crossPoints := [])
  }

  /** On a valid task without a published result, `solve` publishes exactly the winner's own
      crossings, so the drawn crossings belong to the drawn pair. */
  lemma FreshCrossingsDrawn(t: Task)
    requires Valid(t) && |t.tops| >= 2 && IsLineAble(t) && Outcome(t).best.Some? && t.sPoints == []
    ensures GetCrossPoints(Solve(t)) == [Outcome(t).crossAmax.value, Outcome(t).crossBmax.value]
  {
  }

  lemma CancelClears(t: Task)
    ensures Valid(t) ==> Valid(Cancel(t))
    ensures !IsSolved(Cancel(t)) && GetsPoints(Cancel(t)) == [] && GetCrossPoints(Cancel(t)) == []
    ensures IsParallelLineCross(Cancel(t)) == false
  {
  }

  // The corrected `solve`.

  /** The corrected `solve`: every pair `i < j`, vertical ones included, is compared by its own
      intersection chord, and the winner's own chord ends are published. Guards and flags are
      those of `solve`. Nothing is published exactly when no line through two sample points
      meets the rectangle, and a published chord is a longest one and lies on the line through
      the published points; of several longest chords, the first pair in the nested-loop order
      wins, as in `solve`. */
  method SolveLongest(t: Task) returns (r: Task)
    ensures r.points == t.points && r.tops == t.tops
    ensures |t.tops| < 2 ==> r == t.(rectangle := false)
    ensures |t.tops| >= 2 && |t.points| < 2 ==> r == t
    ensures |t.tops| >= 2 && |t.points| >= 2 ==> r.solved && r.rectangle
    ensures |t.tops| >= 2 && |t.points| >= 2 ==>
      (r.sPoints == t.sPoints <==>
        forall i, j :: 0 <= i < j < |t.points| ==> Intended.PairChord(t.points, Bnd(t), i, j).None?)
    ensures |t.tops| >= 2 && r.sPoints != t.sPoints ==>
      exists i, j :: 0 <= i < j < |t.points| && Intended.PairChord(t.points, Bnd(t), i, j).Some?
        && r.sPoints == t.sPoints + [t.points[i], t.points[j]]
        && r.crossPoints == t.crossPoints + [Intended.PairChord(t.points, Bnd(t), i, j).value.from,
                                             Intended.PairChord(t.points, Bnd(t), i, j).value.to]
        && Intended.Longest(t.points, Bnd(t), Intended.PairChord(t.points, Bnd(t), i, j).value)
        && forall i', j' :: 0 <= i' < j' < |t.points| && Intended.Before(i', j', i, j) ==>
             Intended.PairChord(t.points, Bnd(t), i', j').None? ||
             Intended.SegLen(Intended.PairChord(t.points, Bnd(t), i', j').value) < Intended.SegLen(Intended.PairChord(t.points, Bnd(t), i, j).value)
    ensures Valid(t) ==> Valid(r)
  {
    if |t.tops| < 2 {
      r := t.(rectangle := false);
    } else if |t.points| >= 2 {
      var w := Intended.LongestChord(t.points, Bnd(t));
      r := t.(rectangle := true, solved := true);
      if w.Some? {
        var i, j, ch := w.value.i, w.value.j, w.value.chord;
        r := r.(sPoints := t.sPoints + [t.points[i], t.points[j]], crossPoints := t.crossPoints + [ch.from, ch.to]);
        assert |r.sPoints| != |t.sPoints|;
        assert Intended.PairChord(t.points, Bnd(t), i, j).Some?;
      }
    } else {
      r := t;
    }
  }
}
