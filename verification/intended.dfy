/** The chord the solver is meant to find: the exact intersection of the infinite line through
    two sample points with the closed rectangle, and a longest-chord search that compares every
    pair (vertical ones included) by its own chord. These are the corrected counterparts of the
    per-pair step and of the scan in `Task.solve`, which differ from them as recorded in
    `ShortOnlyAtCorner`, `Findings.CornerCollapse`, `Findings.CornerCollapseFalling`,
    `Findings.VerticalNeverCompared` and `Findings.StaleChordPublished`. */
module Intended {
  import opened Geometry
  import Engine

  /** A chord: the two points where a line enters and leaves the rectangle. */
  datatype Segment = Segment(from: Vec, to: Vec)

  /** `p` lies in the axis-aligned box spanned by the two ends of `s`. For a point on the
      chord's own line this means that `p` lies on the chord. */
  predicate InBox(s: Segment, p: Vec) {
    && Min(s.from.x, s.to.x) <= p.x <= Max(s.from.x, s.to.x)
    && Min(s.from.y, s.to.y) <= p.y <= Max(s.from.y, s.to.y)
  }

  function SegLen(s: Segment): real { SqDist(s.from, s.to) }

  /** The point of the general line `y = k*x + c` at abscissa `x`. */
  function At(k: real, c: real, x: real): Vec { Vec(x, k * x + c) }

  /** The intersection of line `l` with the closed rectangle. */
  function Chord(l: Line, bnd: Bounds): (r: Option<Segment>)
    requires WellFormed(bnd)
    ensures r.Some? ==> OnLine(l, r.value.from) && OnLine(l, r.value.to)
    ensures r.Some? ==> OnBoundary(bnd, r.value.from) && OnBoundary(bnd, r.value.to)
  {
    match l
    case Vertical(x0) =>
      if bnd.left <= x0 <= bnd.right then Some(Segment(Vec(x0, bnd.bottom), Vec(x0, bnd.top))) else None
    case Sloped(k, c) =>
      if k == 0.0 then
        if bnd.bottom <= c <= bnd.top then Some(Segment(Vec(bnd.left, c), Vec(bnd.right, c))) else None
      else SlopedChord(k, c, bnd)
  }

  /** For a general line, the x range where the line lies between bottom and top, clipped to
      [left, right]; empty when the line passes beside the rectangle. */
  function SlopedChord(k: real, c: real, bnd: Bounds): (r: Option<Segment>)
    requires WellFormed(bnd) && k != 0.0
    ensures r.Some? ==> OnLine(Sloped(k, c), r.value.from) && OnLine(Sloped(k, c), r.value.to)
    ensures r.Some? ==> OnBoundary(bnd, r.value.from) && OnBoundary(bnd, r.value.to)
  {
    var xBottom, xTop := (bnd.bottom - c) / k, (bnd.top - c) / k;
    var lo, hi := Max(bnd.left, Min(xBottom, xTop)), Min(bnd.right, Max(xBottom, xTop));
    if lo <= hi then
      ClipEnds(bnd.left, bnd.right, xBottom, xTop);
      ClipEnd(k, c, bnd, xBottom, xTop, lo);
      ClipEnd(k, c, bnd, xBottom, xTop, hi);
      AtOnLine(k, c, lo);
      AtOnLine(k, c, hi);
      Some(Segment(At(k, c, lo), At(k, c, hi)))
    else None
  }

  lemma AtOnLine(k: real, c: real, x: real)
    ensures OnLine(Sloped(k, c), At(k, c, x))
  {
  }

  /** The ends of the intersection of the intervals [`left`, `right`] and [`a`, `b`] (or
      [`b`, `a`]) lie in both intervals and are each an end of one of them. */
  lemma ClipEnds(left: real, right: real, a: real, b: real)
    requires Max(left, Min(a, b)) <= Min(right, Max(a, b))
    ensures var lo := Max(left, Min(a, b));
      && left <= lo <= right && Min(a, b) <= lo <= Max(a, b) && (lo == left || lo == a || lo == b)
    ensures var hi := Min(right, Max(a, b));
      && left <= hi <= right && Min(a, b) <= hi <= Max(a, b) && (hi == right || hi == a || hi == b)
  {
  }

  /** A clipping end, that is, a side's abscissa or one of the two abscissas where the line
      reaches the bottom or the top, that lies both between left and right and between those
      two abscissas, is a point of the line on the rectangle's boundary. */
  lemma ClipEnd(k: real, c: real, bnd: Bounds, xBottom: real, xTop: real, x: real)
    requires WellFormed(bnd) && k != 0.0 && xBottom == (bnd.bottom - c) / k && xTop == (bnd.top - c) / k
    requires bnd.left <= x <= bnd.right && Min(xBottom, xTop) <= x <= Max(xBottom, xTop)
    requires x == bnd.left || x == bnd.right || x == xBottom || x == xTop
    ensures OnBoundary(bnd, At(k, c, x))
  {
    ValueBetween(k, c, bnd, x);
    Engine.QuotientOnLine(k, c, bnd.bottom);
    Engine.QuotientOnLine(k, c, bnd.top);
  }

  /** Between the abscissas where it crosses the bottom and the top side, a general line stays
      between bottom and top; outside them it does not. */
  lemma ValueBetween(k: real, c: real, bnd: Bounds, x: real)
    requires WellFormed(bnd) && k != 0.0
    ensures bnd.bottom <= k * x + c <= bnd.top <==>
      Min((bnd.bottom - c) / k, (bnd.top - c) / k) <= x <= Max((bnd.bottom - c) / k, (bnd.top - c) / k)
  {
    LevelSide(k, c, x, bnd.bottom);
    LevelSide(k, c, x, bnd.top);
  }

  /** The chord is exactly the part of the line inside the rectangle: a point of the line lies
      in the closed rectangle if and only if a chord exists and the point lies on it. */
  lemma ChordIsIntersection(l: Line, bnd: Bounds, p: Vec)
    requires WellFormed(bnd)
    ensures OnLine(l, p) && Inside(bnd, p) <==>
      Chord(l, bnd).Some? && OnLine(l, p) && InBox(Chord(l, bnd).value, p)
  {
    var r := Chord(l, bnd);
    if r.Some? && InBox(r.value, p) {
      BoxInside(r.value, bnd, p);
    }
    if OnLine(l, p) && Inside(bnd, p) {
      LinePointOnChord(l, bnd, p);
    }
  }

  lemma LinePointOnChord(l: Line, bnd: Bounds, p: Vec)
    requires WellFormed(bnd) && OnLine(l, p) && Inside(bnd, p)
    ensures Chord(l, bnd).Some? && InBox(Chord(l, bnd).value, p)
  {
    match l
    case Vertical(x0) =>
    case Sloped(k, c) =>
      if k == 0.0 {
        FlatPointOnChord(c, bnd, p);
      } else {
        SlopedPointOnChord(k, c, bnd, p);
      }
  }

  lemma FlatPointOnChord(c: real, bnd: Bounds, p: Vec)
    requires WellFormed(bnd) && p.y == c && Inside(bnd, p)
    ensures Chord(Sloped(0.0, c), bnd).Some? && InBox(Chord(Sloped(0.0, c), bnd).value, p)
  {
  }

  /** Every point of a general line inside the rectangle lies on its chord. */
  lemma SlopedPointOnChord(k: real, c: real, bnd: Bounds, p: Vec)
    requires WellFormed(bnd) && k != 0.0 && OnLine(Sloped(k, c), p) && Inside(bnd, p)
    ensures SlopedChord(k, c, bnd).Some? && InBox(SlopedChord(k, c, bnd).value, p)
  {
    SlopedChordCovers(k, c, bnd, p.x);
    OnLineAt(k, c, p);
  }

  /** A point of a general line is the line's point at its own abscissa. */
  lemma OnLineAt(k: real, c: real, p: Vec)
    requires OnLine(Sloped(k, c), p)
    ensures At(k, c, p.x) == p
  {
  }

  lemma SlopedChordCovers(k: real, c: real, bnd: Bounds, x: real)
    requires WellFormed(bnd) && k != 0.0
    requires bnd.left <= x <= bnd.right && bnd.bottom <= k * x + c <= bnd.top
    ensures SlopedChord(k, c, bnd).Some?
    ensures InBox(SlopedChord(k, c, bnd).value, At(k, c, x))
  {
    ValueBetween(k, c, bnd, x);
    var xBottom, xTop := (bnd.bottom - c) / k, (bnd.top - c) / k;
    var lo, hi := Max(bnd.left, Min(xBottom, xTop)), Min(bnd.right, Max(xBottom, xTop));
    assert lo <= x <= hi;
    assert SlopedChord(k, c, bnd) == Some(Segment(At(k, c, lo), At(k, c, hi)));
    LinePointInBox(k, c, lo, x, hi);
  }

  /** The rectangle contains the box spanned by any two of its points. */
  lemma BoxInside(s: Segment, bnd: Bounds, p: Vec)
    requires Inside(bnd, s.from) && Inside(bnd, s.to) && InBox(s, p)
    ensures Inside(bnd, p)
  {
  }

  /** A point of a line between two of its points lies in the box they span. */
  lemma LinePointInBox(k: real, c: real, lo: real, x: real, hi: real)
    requires lo <= x <= hi
    ensures InBox(Segment(At(k, c, lo), At(k, c, hi)), At(k, c, x))
  {
    LineMonotone(k, c, lo, x);
    LineMonotone(k, c, x, hi);
    OrderedInBox(At(k, c, lo), At(k, c, x), At(k, c, hi));
  }

  /** A point whose coordinates both lie between those of two others lies in their box. */
  lemma OrderedInBox(a: Vec, m: Vec, b: Vec)
    requires a.x <= m.x <= b.x
    requires (a.y <= m.y <= b.y) || (b.y <= m.y <= a.y)
    ensures InBox(Segment(a, b), m)
  {
  }

  /** Every point of the as-written chord lies on the intended chord, and the as-written
      chord is never longer. */
  lemma AsWrittenWithinChord(a: Vec, b: Vec, bnd: Bounds)
    requires WellFormed(bnd)
    requires Engine.PairEffect(a, b, bnd).Full?
    ensures Chord(LineOf(a, b), bnd).Some?
    ensures InBox(Chord(LineOf(a, b), bnd).value, Engine.PairEffect(a, b, bnd).crossA)
    ensures InBox(Chord(LineOf(a, b), bnd).value, Engine.PairEffect(a, b, bnd).crossB)
    ensures Engine.PairEffect(a, b, bnd).len <= SegLen(Chord(LineOf(a, b), bnd).value)
  {
    var e := Engine.PairEffect(a, b, bnd);
    ChordIsIntersection(LineOf(a, b), bnd, e.crossA);
    ChordIsIntersection(LineOf(a, b), bnd, e.crossB);
    BoxShorter(Chord(LineOf(a, b), bnd).value, e.crossA, e.crossB);
  }

  /** The as-written step assigns a chord exactly when the line meets the rectangle, that is,
      exactly when the intended chord exists. */
  lemma MeetsIffChord(a: Vec, b: Vec, bnd: Bounds)
    requires WellFormed(bnd)
    ensures Engine.PairEffect(a, b, bnd).Full? <==> Chord(LineOf(a, b), bnd).Some?
  {
    var l := LineOf(a, b);
    if Engine.PairEffect(a, b, bnd).Full? {
      ChordIsIntersection(l, bnd, Engine.PairEffect(a, b, bnd).crossA);
    } else if Chord(l, bnd).Some? {
      Engine.HalfCrossingUnreachable(a, b, bnd);
      Engine.MissIsDisjoint(a, b, bnd, Chord(l, bnd).value.from);
    }
  }

  /** The two cases in which the as-written step records a chord shorter than the intended
      one: a rising line through the bottom-left corner that leaves through the top side, and
      a falling line through the bottom-right corner that leaves through the top side. In
      both the left (or right) side is accepted at the corner, the opposite side is skipped,
      and the bottom side is accepted at that same corner. `yLeft` and `yRight` are the
      heights of the line `y = k*x + c` at the left and the right side. */
  predicate Collapses(bnd: Bounds, k: real, yLeft: real, yRight: real) {
    && bnd.bottom < bnd.top
    && ((k > 0.0 && yLeft == bnd.bottom && bnd.top < yRight) || (k < 0.0 && yRight == bnd.bottom && bnd.top < yLeft))
  }

  /** Line `l` is a general line in one of the two `Collapses` cases. */
  predicate CornerCollapses(l: Line, bnd: Bounds) {
    l.Sloped? && Collapses(bnd, l.k, l.k * bnd.left + l.c, l.k * bnd.right + l.c)
  }

  /** The acceptance order of the general branch, read against the clipped interval
      [`lo`, `hi`] of the intended chord: outside the two `Collapses` cases the two accepted
      crossings sit at `lo` and `hi` (in either order); in those cases both sit at the corner,
      one end of a chord that is not a single point. */
  lemma AcceptedEnds(bnd: Bounds, k: real, yLeft: real, yRight: real, xBottom: real, xTop: real)
    requires WellFormed(bnd) && k != 0.0
    requires Engine.SideFacts(bnd, k, yLeft, yRight, xBottom, xTop)
    requires !(bnd.bottom <= yLeft <= bnd.top) && !(bnd.bottom <= yRight <= bnd.top) && bnd.left <= xBottom <= bnd.right
      ==> bnd.left <= xTop <= bnd.right
    requires Engine.AcceptCrossings(bnd, yLeft, yRight, xBottom, xTop).Full?
    ensures var e := Engine.AcceptCrossings(bnd, yLeft, yRight, xBottom, xTop);
      var lo, hi := Max(bnd.left, Min(xBottom, xTop)), Min(bnd.right, Max(xBottom, xTop));
      && lo <= hi
      && (Collapses(bnd, k, yLeft, yRight) ==>
        e.crossA == e.crossB && lo < hi && e.crossA.x == (if k > 0.0 then lo else hi))
      && (!Collapses(bnd, k, yLeft, yRight) ==>
        (e.crossA.x == lo && e.crossB.x == hi) || (e.crossA.x == hi && e.crossB.x == lo))
  {
    if k > 0.0 {
      RisingEnds(bnd, k, yLeft, yRight, xBottom, xTop);
    } else {
      FallingEnds(bnd, k, yLeft, yRight, xBottom, xTop);
    }
  }

  lemma RisingEnds(bnd: Bounds, k: real, yLeft: real, yRight: real, xBottom: real, xTop: real)
    requires WellFormed(bnd) && k > 0.0
    requires Engine.SideFacts(bnd, k, yLeft, yRight, xBottom, xTop)
    requires !(bnd.bottom <= yLeft <= bnd.top) && !(bnd.bottom <= yRight <= bnd.top) && bnd.left <= xBottom <= bnd.right
      ==> bnd.left <= xTop <= bnd.right
    requires Engine.AcceptCrossings(bnd, yLeft, yRight, xBottom, xTop).Full?
    ensures var e := Engine.AcceptCrossings(bnd, yLeft, yRight, xBottom, xTop);
      var lo, hi := Max(bnd.left, xBottom), Min(bnd.right, xTop);
      && lo <= hi
      && (Collapses(bnd, k, yLeft, yRight) ==> e.crossA == e.crossB && lo < hi && e.crossA.x == lo)
      && (!Collapses(bnd, k, yLeft, yRight) ==> (e.crossA.x == lo && e.crossB.x == hi) || (e.crossA.x == hi && e.crossB.x == lo))
  {
  }

  lemma FallingEnds(bnd: Bounds, k: real, yLeft: real, yRight: real, xBottom: real, xTop: real)
    requires WellFormed(bnd) && k < 0.0
    requires Engine.SideFacts(bnd, k, yLeft, yRight, xBottom, xTop)
    requires !(bnd.bottom <= yLeft <= bnd.top) && !(bnd.bottom <= yRight <= bnd.top) && bnd.left <= xBottom <= bnd.right
      ==> bnd.left <= xTop <= bnd.right
    requires Engine.AcceptCrossings(bnd, yLeft, yRight, xBottom, xTop).Full?
    ensures var e := Engine.AcceptCrossings(bnd, yLeft, yRight, xBottom, xTop);
      var lo, hi := Max(bnd.left, xTop), Min(bnd.right, xBottom);
      && lo <= hi
      && (Collapses(bnd, k, yLeft, yRight) ==> e.crossA == e.crossB && lo < hi && e.crossA.x == hi)
      && (!Collapses(bnd, k, yLeft, yRight) ==> (e.crossA.x == lo && e.crossB.x == hi) || (e.crossA.x == hi && e.crossB.x == lo))
  {
  }

  /** `p` and `q` are the two ends of `s`, in either order. */
  predicate SameEnds(p: Vec, q: Vec, s: Segment) {
    (p == s.from && q == s.to) || (p == s.to && q == s.from)
  }

  /** What the as-written step reports for a line whose intended chord is `ch`: when the line
      `collapses`, one end of the chord twice, with length 0, although the chord's ends lie
      apart; otherwise the chord's two ends, in either order, and its squared length. */
  predicate ReportsChord(e: Engine.Effect, ch: Segment, collapses: bool)
    requires e.Full?
  {
    && (collapses ==>
      && e.crossA == e.crossB && e.len == 0.0
      && ch.from.x < ch.to.x && (e.crossA == ch.from || e.crossA == ch.to))
    && (!collapses ==> SameEnds(e.crossA, e.crossB, ch) && e.len == SegLen(ch))
  }

  /** For a general line the as-written step reports the intended chord, ends and squared
      length, except in the two `Collapses` cases. */
  lemma SlopedChordEnds(k: real, c: real, bnd: Bounds)
    requires WellFormed(bnd) && k != 0.0 && Engine.SlopedEffect(k, c, bnd).Full?
    ensures SlopedChord(k, c, bnd).Some?
    ensures ReportsChord(Engine.SlopedEffect(k, c, bnd), SlopedChord(k, c, bnd).value,
      Collapses(bnd, k, k * bnd.left + c, k * bnd.right + c))
  {
    var yLeft, yRight := k * bnd.left + c, k * bnd.right + c;
    var xBottom, xTop := (bnd.bottom - c) / k, (bnd.top - c) / k;
    Engine.SideFactsHold(k, c, bnd);
    Engine.TopCrossingInRange(k, c, bnd);
    Engine.SlopedEffectCrossings(k, c, bnd);
    AcceptedEnds(bnd, k, yLeft, yRight, xBottom, xTop);
    var e := Engine.SlopedEffect(k, c, bnd);
    SlopedPointOnChord(k, c, bnd, e.crossA);
    var lo, hi := Max(bnd.left, Min(xBottom, xTop)), Min(bnd.right, Max(xBottom, xTop));
    var ch := SlopedChord(k, c, bnd).value;
    assert ch == Segment(At(k, c, lo), At(k, c, hi));
    OnLineAt(k, c, e.crossA);
    OnLineAt(k, c, e.crossB);
    SqDistSymmetric(e.crossA, e.crossB);
  }

  /** The as-written step against the intended chord, for every pair whose line meets the
      rectangle: it reports the chord's two ends and its squared length unless the line is a
      `CornerCollapses` line, and then it reports one corner twice with length 0 although
      the chord has two distinct ends. */
  lemma ShortOnlyAtCorner(a: Vec, b: Vec, bnd: Bounds)
    requires WellFormed(bnd) && Engine.PairEffect(a, b, bnd).Full?
    ensures Chord(LineOf(a, b), bnd).Some?
    ensures var e, ch := Engine.PairEffect(a, b, bnd), Chord(LineOf(a, b), bnd).value;
      SameEnds(e.crossA, e.crossB, ch) <==> !CornerCollapses(LineOf(a, b), bnd)
    ensures var e, ch := Engine.PairEffect(a, b, bnd), Chord(LineOf(a, b), bnd).value;
      !CornerCollapses(LineOf(a, b), bnd) ==> e.len == SegLen(ch)
    ensures var e, ch := Engine.PairEffect(a, b, bnd), Chord(LineOf(a, b), bnd).value;
      CornerCollapses(LineOf(a, b), bnd) ==>
        e.crossA == e.crossB && e.len == 0.0 && ch.from != ch.to && (e.crossA == ch.from || e.crossA == ch.to)
  {
    PairReportsChord(a, b, bnd);
  }

  lemma PairReportsChord(a: Vec, b: Vec, bnd: Bounds)
    requires WellFormed(bnd) && Engine.PairEffect(a, b, bnd).Full?
    ensures Chord(LineOf(a, b), bnd).Some?
    ensures ReportsChord(Engine.PairEffect(a, b, bnd), Chord(LineOf(a, b), bnd).value, CornerCollapses(LineOf(a, b), bnd))
  {
    var l := LineOf(a, b);
    if l.Sloped? && l.k != 0.0 {
      SlopedPairEnds(a, b, bnd, l.k, l.c);
    } else {
      AxisChordEnds(a, b, bnd);
    }
  }

  lemma SlopedPairEnds(a: Vec, b: Vec, bnd: Bounds, k: real, c: real)
    requires WellFormed(bnd) && LineOf(a, b) == Sloped(k, c) && k != 0.0 && Engine.PairEffect(a, b, bnd).Full?
    ensures Chord(LineOf(a, b), bnd).Some?
    ensures ReportsChord(Engine.PairEffect(a, b, bnd), Chord(LineOf(a, b), bnd).value, CornerCollapses(LineOf(a, b), bnd))
  {
    SlopedPairEffect(a, b, bnd, k, c);
    SlopedLineChord(k, c, bnd);
    SlopedLineCollapses(k, c, bnd);
    SlopedChordEnds(k, c, bnd);
    ReportsSame(Engine.SlopedEffect(k, c, bnd), SlopedChord(k, c, bnd).value, Engine.PairEffect(a, b, bnd),
      Chord(LineOf(a, b), bnd).value, Collapses(bnd, k, k * bnd.left + c, k * bnd.right + c), CornerCollapses(LineOf(a, b), bnd));
  }

  lemma SlopedPairEffect(a: Vec, b: Vec, bnd: Bounds, k: real, c: real)
    requires WellFormed(bnd) && LineOf(a, b) == Sloped(k, c) && k != 0.0
    ensures Engine.PairEffect(a, b, bnd) == Engine.SlopedEffect(k, c, bnd)
  {
  }

  lemma SlopedLineChord(k: real, c: real, bnd: Bounds)
    requires WellFormed(bnd) && k != 0.0
    ensures Chord(Sloped(k, c), bnd) == SlopedChord(k, c, bnd)
  {
  }

  lemma SlopedLineCollapses(k: real, c: real, bnd: Bounds)
    ensures CornerCollapses(Sloped(k, c), bnd) == Collapses(bnd, k, k * bnd.left + c, k * bnd.right + c)
  {
  }

  lemma ReportsSame(e: Engine.Effect, ch: Segment, e2: Engine.Effect, ch2: Segment, b1: bool, b2: bool)
    requires e.Full? && e == e2 && ch == ch2 && b1 == b2 && ReportsChord(e, ch, b1)
    ensures ReportsChord(e2, ch2, b2)
  {
  }

  /** A vertical or horizontal pair reports exactly its chord. */
  lemma AxisChordEnds(a: Vec, b: Vec, bnd: Bounds)
    requires WellFormed(bnd) && Engine.PairEffect(a, b, bnd).Full?
    requires !(LineOf(a, b).Sloped? && LineOf(a, b).k != 0.0)
    ensures Chord(LineOf(a, b), bnd).Some? && !CornerCollapses(LineOf(a, b), bnd)
    ensures var e := Engine.PairEffect(a, b, bnd);
      ReportsChord(e, Chord(LineOf(a, b), bnd).value, false)
  {
    if a.x != b.x {
      assert LineOf(a, b).c == a.y;
    }
  }

  function Abs(d: real): real { if d < 0.0 then -d else d }

  lemma AbsSquare(d: real)
    ensures Abs(d) >= 0.0 && Abs(d) * Abs(d) == d * d
  {
    if d < 0.0 {
      assert (-d) * (-d) == d * d;
    }
  }

  /** Two points in the box spanned by a segment are no farther apart than its ends. */
  lemma BoxShorter(s: Segment, p: Vec, q: Vec)
    requires InBox(s, p) && InBox(s, q)
    ensures SqDist(p, q) <= SegLen(s)
  {
    SpanShorter(p.x, q.x, s.from.x, s.to.x);
    SpanShorter(p.y, q.y, s.from.y, s.to.y);
  }

  /** Two values between `u` and `v` differ by no more than `u` and `v`, also when squared. */
  lemma SpanShorter(a: real, b: real, u: real, v: real)
    requires Min(u, v) <= a <= Max(u, v) && Min(u, v) <= b <= Max(u, v)
    ensures (b - a) * (b - a) <= (v - u) * (v - u)
  {
    AbsSquare(b - a);
    AbsSquare(v - u);
    SquareLe(Abs(b - a), Abs(v - u));
  }

  /** The intended chord of the pair of sample points `i`, `j`. */
  function PairChord(points: seq<Vec>, bnd: Bounds, i: int, j: int): Option<Segment>
    requires WellFormed(bnd) && 0 <= i < |points| && 0 <= j < |points|
  {
    Chord(LineOf(points[i], points[j]), bnd)
  }

  /** Pair `(i1, j1)` comes before pair `(i2, j2)` in the solver's nested-loop order. */
  predicate Before(i1: int, j1: int, i2: int, j2: int) {
    i1 < i2 || (i1 == i2 && j1 < j2)
  }

  datatype Winner = Winner(i: nat, j: nat, chord: Segment)

  /** No chord of a pair of sample points is longer than `ch`. */
  ghost predicate Longest(points: seq<Vec>, bnd: Bounds, ch: Segment)
    requires WellFormed(bnd)
  {
    forall i, j :: 0 <= i < j < |points| && PairChord(points, bnd, i, j).Some? ==>
      SegLen(PairChord(points, bnd, i, j).value) <= SegLen(ch)
  }

  /** The pairs `(i, j)` with `i < j` visited before `(bi, bj)` all have chords no longer than
      `w`'s, strictly shorter when they come before `w` itself. */
  ghost predicate Dominates(points: seq<Vec>, bnd: Bounds, w: Option<Winner>, bi: int, bj: int)
    requires WellFormed(bnd)
  {
    forall i, j :: 0 <= i < j < |points| && Before(i, j, bi, bj) && PairChord(points, bnd, i, j).Some? ==>
      && w.Some?
      && SegLen(PairChord(points, bnd, i, j).value) <= SegLen(w.value.chord)
      && (Before(i, j, w.value.i, w.value.j) ==> SegLen(PairChord(points, bnd, i, j).value) < SegLen(w.value.chord))
  }

  /** The winner after visiting pair `(i, j)`: its chord replaces the current winner when it
      exists and is strictly longer. */
  function Pick(points: seq<Vec>, bnd: Bounds, w: Option<Winner>, i: nat, j: nat): Option<Winner>
    requires WellFormed(bnd) && i < j < |points|
  {
    var ch := PairChord(points, bnd, i, j);
    if ch.Some? && (w.None? || SegLen(ch.value) > SegLen(w.value.chord)) then Some(Winner(i, j, ch.value)) else w
  }

  /** Visiting pair `(i, j)` extends the dominated range by one pair. */
  lemma DominatesNext(points: seq<Vec>, bnd: Bounds, w: Option<Winner>, i: nat, j: nat)
    requires WellFormed(bnd) && i < j < |points|
    requires w.Some? ==> Before(w.value.i, w.value.j, i, j)
    requires Dominates(points, bnd, w, i, j)
    ensures Dominates(points, bnd, Pick(points, bnd, w, i, j), i, j + 1)
    ensures var w2 := Pick(points, bnd, w, i, j);
      w2 == w || (w2.Some? && w2.value.i == i && w2.value.j == j && PairChord(points, bnd, i, j) == Some(w2.value.chord))
  {
    var w2 := Pick(points, bnd, w, i, j);
    forall i', j' | 0 <= i' < j' < |points| && Before(i', j', i, j + 1) && PairChord(points, bnd, i', j').Some?
      ensures w2.Some? && SegLen(PairChord(points, bnd, i', j').value) <= SegLen(w2.value.chord)
      ensures Before(i', j', w2.value.i, w2.value.j) ==> SegLen(PairChord(points, bnd, i', j').value) < SegLen(w2.value.chord)
    {
      if i' == i && j' == j {
      } else {
        assert Before(i', j', i, j);
      }
    }
  }

  /** Finishing row `i` moves the dominated range to the start of row `i + 1`. */
  lemma DominatesRow(points: seq<Vec>, bnd: Bounds, w: Option<Winner>, i: nat)
    requires WellFormed(bnd) && Dominates(points, bnd, w, i, |points|)
    ensures Dominates(points, bnd, w, i + 1, 0)
  {
    forall i', j' | 0 <= i' < j' < |points| && Before(i', j', i + 1, 0)
      ensures Before(i', j', i, |points|)
    {
    }
  }

  /** Once every row is visited, the winner dominates every pair. */
  lemma DominatesAll(points: seq<Vec>, bnd: Bounds, w: Option<Winner>)
    requires WellFormed(bnd) && Dominates(points, bnd, w, |points|, 0)
    ensures w.Some? ==> Longest(points, bnd, w.value.chord)
    ensures w.None? ==> forall i, j :: 0 <= i < j < |points| ==> PairChord(points, bnd, i, j).None?
  {
    forall i, j | 0 <= i < j < |points|
      ensures Before(i, j, |points|, 0)
    {
    }
  }

  /** The corrected search: every pair `i < j`, vertical ones included, is compared by its own
      chord, and the first pair with the strictly longest chord wins. No winner means that no
      line through two sample points meets the rectangle. */
  method LongestChord(points: seq<Vec>, bnd: Bounds) returns (w: Option<Winner>)
    requires WellFormed(bnd)
    ensures w.Some? ==> w.value.i < w.value.j < |points|
    ensures w.Some? ==> PairChord(points, bnd, w.value.i, w.value.j) == Some(w.value.chord)
    ensures w.Some? ==> Longest(points, bnd, w.value.chord)
    ensures w.Some? ==> forall i, j :: 0 <= i < j < |points| && Before(i, j, w.value.i, w.value.j) ==>
      PairChord(points, bnd, i, j).None? || SegLen(PairChord(points, bnd, i, j).value) < SegLen(w.value.chord)
    ensures w.None? <==> forall i, j :: 0 <= i < j < |points| ==> PairChord(points, bnd, i, j).None?
  {
    w := None;
    var i := 0;
    while i < |points|
      invariant 0 <= i <= |points|
      invariant w.Some? ==> w.value.i < w.value.j < |points| && w.value.i < i
      invariant w.Some? ==> PairChord(points, bnd, w.value.i, w.value.j) == Some(w.value.chord)
      invariant Dominates(points, bnd, w, i, 0)
    {
      var j := i + 1;
      while j < |points|
        invariant i + 1 <= j <= |points|
        invariant w.Some? ==> w.value.i < w.value.j < |points| && Before(w.value.i, w.value.j, i, j)
        invariant w.Some? ==> PairChord(points, bnd, w.value.i, w.value.j) == Some(w.value.chord)
        invariant Dominates(points, bnd, w, i, j)
      {
        DominatesNext(points, bnd, w, i, j);
        w := Pick(points, bnd, w, i, j);
        j := j + 1;
      }
      DominatesRow(points, bnd, w, i);
      i := i + 1;
    }
    DominatesAll(points, bnd, w);
  }
}
