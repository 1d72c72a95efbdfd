/** The per-pair intersection step of `Task.solve` as the program writes it
    (Task.java:361-423): the line through two sample points is classified as vertical,
    horizontal or general, and the crossings with the rectangle's sides are looked up in a
    fixed priority order. The step reports what it assigns to the solver's running
    `length`, `crossA` and `crossB`; chord lengths are squared. */
module Engine {
  import opened Geometry

  /** What one pair assigns to the running per-pair variables of the solver.
      `Untouched`: none of them. `OnlyA`: `crossA` alone (a general-branch path on which no
      second crossing is accepted). `Full`: `crossA`, `crossB` and the squared `length`. */
  datatype Effect = Untouched | OnlyA(crossA: Vec) | Full(crossA: Vec, crossB: Vec, len: real)

  /** A chord between two accepted crossings, measured by its squared length. */
  function Crossing(p: Vec, q: Vec): Effect
  {
    Full(p, q, SqDist(p, q))
  }

  /** The general branch for a line `y = k*x + c` with `k != 0`: the crossings with the left
      and right sides (`yLeft`, `yRight`) and with the top and bottom sides (`xTop`, `xBottom`)
      are accepted in the program's order. The last branch pairs the bottom crossing with the
      top crossing without checking that the latter lies on the top side. */
  function SlopedEffect(k: real, c: real, bnd: Bounds): (e: Effect)
    requires WellFormed(bnd) && k != 0.0
    ensures e.Full? ==> e.len == SqDist(e.crossA, e.crossB)
    ensures e.Full? ==> OnLine(Sloped(k, c), e.crossA) && OnLine(Sloped(k, c), e.crossB)
    ensures e.Full? ==> OnBoundary(bnd, e.crossA) && OnBoundary(bnd, e.crossB)
    ensures e.OnlyA? ==> OnLine(Sloped(k, c), e.crossA) && OnBoundary(bnd, e.crossA)
  {
    var s := SidesOf(k, c, bnd);
    TopCrossingSides(k, c, bnd);
    var e := AcceptCrossings(bnd, s.yLeft, s.yRight, s.xBottom, s.xTop);
    if e.Untouched? then e
    else
      SideCrossingOnLine(k, c, bnd, e.crossA);
      if e.OnlyA? then e
      else
        SideCrossingOnLine(k, c, bnd, e.crossB);
        e
  }

  /** Where a general line meets the lines carrying the rectangle's four sides: at heights
      `yLeft` and `yRight` on the left and right sides, at abscissas `xBottom` and `xTop` on
      the bottom and top sides. */
  datatype Sides = Sides(yLeft: real, yRight: real, xBottom: real, xTop: real)

  function SidesOf(k: real, c: real, bnd: Bounds): (s: Sides)
    requires k != 0.0
  {
    Sides(k * bnd.left + c, k * bnd.right + c, (bnd.bottom - c) / k, (bnd.top - c) / k)
  }

  /** Each of the four side crossings of a general line lies on that line. */
  lemma SideCrossingOnLine(k: real, c: real, bnd: Bounds, p: Vec)
    requires k != 0.0
    requires var s := SidesOf(k, c, bnd); SideCrossing(bnd, s.yLeft, s.yRight, s.xBottom, s.xTop, p)
    ensures OnLine(Sloped(k, c), p)
  {
    QuotientOnLine(k, c, bnd.top);
    QuotientOnLine(k, c, bnd.bottom);
  }

  /** One of the four side crossings of a general line: on the left side at height `yLeft`,
      on the right side at `yRight`, on the bottom side at `xBottom`, on the top side at `xTop`. */
  predicate SideCrossing(bnd: Bounds, yLeft: real, yRight: real, xBottom: real, xTop: real, p: Vec) {
    || p == Vec(bnd.left, yLeft)
    || p == Vec(bnd.right, yRight)
    || p == Vec(xBottom, bnd.bottom)
    || p == Vec(xTop, bnd.top)
  }

  /** The acceptance order of the general branch, given the four side crossings of the line.
      When neither side crossing is accepted but the bottom one is, the top crossing is taken
      unchecked; the caller guarantees it lies on the top side (`TopCrossingInRange`). */
  function AcceptCrossings(bnd: Bounds, yLeft: real, yRight: real, xBottom: real, xTop: real): (e: Effect)
    requires WellFormed(bnd)
    requires !(bnd.bottom <= yLeft <= bnd.top) && !(bnd.bottom <= yRight <= bnd.top) && bnd.left <= xBottom <= bnd.right
      ==> bnd.left <= xTop <= bnd.right
    ensures e.Full? ==> e.len == SqDist(e.crossA, e.crossB)
    ensures e.Full? ==> SideCrossing(bnd, yLeft, yRight, xBottom, xTop, e.crossA)
    ensures e.Full? ==> SideCrossing(bnd, yLeft, yRight, xBottom, xTop, e.crossB)
    ensures e.Full? ==> OnBoundary(bnd, e.crossA) && OnBoundary(bnd, e.crossB)
    ensures e.OnlyA? ==> SideCrossing(bnd, yLeft, yRight, xBottom, xTop, e.crossA) && OnBoundary(bnd, e.crossA)
    ensures e.OnlyA? <==>
      && (bnd.bottom <= yLeft <= bnd.top || bnd.bottom <= yRight <= bnd.top)
      && !(bnd.bottom <= yLeft <= bnd.top && bnd.bottom <= yRight <= bnd.top)
      && !(bnd.left <= xBottom <= bnd.right) && !(bnd.left <= xTop <= bnd.right)
    ensures e.Untouched? <==>
      !(bnd.bottom <= yLeft <= bnd.top) && !(bnd.bottom <= yRight <= bnd.top) && !(bnd.left <= xBottom <= bnd.right)
  {
    if bnd.bottom <= yLeft <= bnd.top then
      var v := Vec(bnd.left, yLeft);
      if bnd.bottom <= yRight <= bnd.top then Crossing(v, Vec(bnd.right, yRight))
      else if bnd.left <= xBottom <= bnd.right then Crossing(v, Vec(xBottom, bnd.bottom))
      else if bnd.left <= xTop <= bnd.right then Crossing(v, Vec(xTop, bnd.top))
      else OnlyA(v)
    else if bnd.bottom <= yRight <= bnd.top then
      var v := Vec(bnd.right, yRight);
      if bnd.left <= xBottom <= bnd.right then Crossing(v, Vec(xBottom, bnd.bottom))
      else if bnd.left <= xTop <= bnd.right then Crossing(v, Vec(xTop, bnd.top))
      else OnlyA(v)
    else if bnd.left <= xBottom <= bnd.right then
      Crossing(Vec(xBottom, bnd.bottom), Vec(xTop, bnd.top))
    else Untouched
  }

  /** The step for the pair `a`, `b` (`a` earlier in the point list than `b`). A vertical pair
      meets the rectangle when its x lies between left and right; a horizontal pair
      (`k == 0`) when its y lies between bottom and top; every accepted crossing lies on the
      line through `a` and `b` and on the rectangle's boundary, and the recorded length is
      the squared distance between the two crossings. */
  function PairEffect(a: Vec, b: Vec, bnd: Bounds): (e: Effect)
    requires WellFormed(bnd)
    ensures e.Full? ==> e.len == SqDist(e.crossA, e.crossB)
    ensures e.Full? ==> OnLine(LineOf(a, b), e.crossA) && OnLine(LineOf(a, b), e.crossB)
    ensures e.Full? ==> OnBoundary(bnd, e.crossA) && OnBoundary(bnd, e.crossB)
    ensures e.OnlyA? ==> OnLine(LineOf(a, b), e.crossA) && OnBoundary(bnd, e.crossA)
  {
    if a.x == b.x then
      if bnd.left <= a.x <= bnd.right then
        Full(Vec(a.x, bnd.bottom), Vec(a.x, bnd.top), (bnd.top - bnd.bottom) * (bnd.top - bnd.bottom))
      else Untouched
    else
      var k, c := LineOf(a, b).k, LineOf(a, b).c;
      if k == 0.0 then
        if bnd.bottom <= a.y <= bnd.top then
          Full(Vec(bnd.left, a.y), Vec(bnd.right, a.y), (bnd.right - bnd.left) * (bnd.right - bnd.left))
        else Untouched
      else SlopedEffect(k, c, bnd)
  }

  lemma QuotientOnLine(k: real, c: real, y: real)
    requires k != 0.0
    ensures k * ((y - c) / k) + c == y
  {
    DivCancel(y - c, k);
  }

  /** When neither side crossing is accepted but the bottom crossing is, the line rises (or
      falls) through the whole height of the rectangle, so the top crossing lies on the top
      side as well. */
  lemma TopCrossingInRange(k: real, c: real, bnd: Bounds)
    requires WellFormed(bnd) && k != 0.0
    ensures !(bnd.bottom <= k * bnd.left + c <= bnd.top) && !(bnd.bottom <= k * bnd.right + c <= bnd.top)
      && bnd.left <= (bnd.bottom - c) / k <= bnd.right
      ==> bnd.left <= (bnd.top - c) / k <= bnd.right
  {
    CornerSides(k, c, bnd);
  }

  /** `TopCrossingInRange` read through `SidesOf`. */
  lemma TopCrossingSides(k: real, c: real, bnd: Bounds)
    requires WellFormed(bnd) && k != 0.0
    ensures var s := SidesOf(k, c, bnd);
      !(bnd.bottom <= s.yLeft <= bnd.top) && !(bnd.bottom <= s.yRight <= bnd.top) && bnd.left <= s.xBottom <= bnd.right
      ==> bnd.left <= s.xTop <= bnd.right
  {
    TopCrossingInRange(k, c, bnd);
  }

  /** Where each corner of the rectangle lies relative to the line, read off from the
      abscissas at which the line reaches the bottom and the top side. */
  lemma CornerSides(k: real, c: real, bnd: Bounds)
    requires k != 0.0
    ensures k > 0.0 ==>
      && (k * bnd.left + c <= bnd.bottom <==> bnd.left <= (bnd.bottom - c) / k)
      && (bnd.bottom <= k * bnd.left + c <==> (bnd.bottom - c) / k <= bnd.left)
      && (k * bnd.left + c <= bnd.top <==> bnd.left <= (bnd.top - c) / k)
      && (bnd.top <= k * bnd.left + c <==> (bnd.top - c) / k <= bnd.left)
      && (k * bnd.right + c <= bnd.bottom <==> bnd.right <= (bnd.bottom - c) / k)
      && (bnd.bottom <= k * bnd.right + c <==> (bnd.bottom - c) / k <= bnd.right)
      && (k * bnd.right + c <= bnd.top <==> bnd.right <= (bnd.top - c) / k)
      && (bnd.top <= k * bnd.right + c <==> (bnd.top - c) / k <= bnd.right)
    ensures k < 0.0 ==>
      && (k * bnd.left + c <= bnd.bottom <==> (bnd.bottom - c) / k <= bnd.left)
      && (bnd.bottom <= k * bnd.left + c <==> bnd.left <= (bnd.bottom - c) / k)
      && (k * bnd.left + c <= bnd.top <==> (bnd.top - c) / k <= bnd.left)
      && (bnd.top <= k * bnd.left + c <==> bnd.left <= (bnd.top - c) / k)
      && (k * bnd.right + c <= bnd.bottom <==> (bnd.bottom - c) / k <= bnd.right)
      && (bnd.bottom <= k * bnd.right + c <==> bnd.right <= (bnd.bottom - c) / k)
      && (k * bnd.right + c <= bnd.top <==> (bnd.top - c) / k <= bnd.right)
      && (bnd.top <= k * bnd.right + c <==> bnd.right <= (bnd.top - c) / k)
  {
    LevelSide(k, c, bnd.left, bnd.bottom);
    LevelSide(k, c, bnd.left, bnd.top);
    LevelSide(k, c, bnd.right, bnd.bottom);
    LevelSide(k, c, bnd.right, bnd.top);
  }

  /** The general branch read through the four side crossings of the line: heights
      `k*left + c`, `k*right + c` at the left and right sides, abscissas `(bottom - c)/k`,
      `(top - c)/k` at the bottom and top. */
  lemma SlopedEffectCrossings(k: real, c: real, bnd: Bounds)
    requires WellFormed(bnd) && k != 0.0
    ensures SlopedEffect(k, c, bnd) ==
      AcceptCrossings(bnd, k * bnd.left + c, k * bnd.right + c, (bnd.bottom - c) / k, (bnd.top - c) / k)
  {
    var s := SidesOf(k, c, bnd);
    var t := Sides(k * bnd.left + c, k * bnd.right + c, (bnd.bottom - c) / k, (bnd.top - c) / k);
    assert s == t;
    SlopedEffectSides(k, c, bnd);
    TopCrossingSides(k, c, bnd);
    AcceptSame(bnd, s, t);
  }

  lemma SlopedEffectSides(k: real, c: real, bnd: Bounds)
    requires WellFormed(bnd) && k != 0.0
    ensures var s := SidesOf(k, c, bnd);
      SlopedEffect(k, c, bnd) == AcceptCrossings(bnd, s.yLeft, s.yRight, s.xBottom, s.xTop)
  {
    TopCrossingSides(k, c, bnd);
  }

  lemma AcceptSame(bnd: Bounds, s: Sides, t: Sides)
    requires WellFormed(bnd) && s == t
    requires !(bnd.bottom <= s.yLeft <= bnd.top) && !(bnd.bottom <= s.yRight <= bnd.top) && bnd.left <= s.xBottom <= bnd.right
      ==> bnd.left <= s.xTop <= bnd.right
    ensures AcceptCrossings(bnd, s.yLeft, s.yRight, s.xBottom, s.xTop) == AcceptCrossings(bnd, t.yLeft, t.yRight, t.xBottom, t.xTop)
  {
  }

  /** How the four side crossings of a general line relate, as linear facts: each comparison of
      a side height with the bottom or the top is decided by the matching abscissa, in the
      direction the sign of the slope `k` gives, and the line reaches the bottom before the top
      when it rises and after it when it falls. */
  predicate SideFacts(bnd: Bounds, k: real, yLeft: real, yRight: real, xBottom: real, xTop: real) {
    && (k > 0.0 ==>
      && xBottom <= xTop
      && (yLeft <= bnd.bottom <==> bnd.left <= xBottom) && (bnd.bottom <= yLeft <==> xBottom <= bnd.left)
      && (yLeft <= bnd.top <==> bnd.left <= xTop) && (bnd.top <= yLeft <==> xTop <= bnd.left)
      && (yRight <= bnd.bottom <==> bnd.right <= xBottom) && (bnd.bottom <= yRight <==> xBottom <= bnd.right)
      && (yRight <= bnd.top <==> bnd.right <= xTop) && (bnd.top <= yRight <==> xTop <= bnd.right))
    && (k < 0.0 ==>
      && xTop <= xBottom
      && (yLeft <= bnd.bottom <==> xBottom <= bnd.left) && (bnd.bottom <= yLeft <==> bnd.left <= xBottom)
      && (yLeft <= bnd.top <==> xTop <= bnd.left) && (bnd.top <= yLeft <==> bnd.left <= xTop)
      && (yRight <= bnd.bottom <==> xBottom <= bnd.right) && (bnd.bottom <= yRight <==> bnd.right <= xBottom)
      && (yRight <= bnd.top <==> xTop <= bnd.right) && (bnd.top <= yRight <==> bnd.right <= xTop))
  }

  lemma SideFactsHold(k: real, c: real, bnd: Bounds)
    requires WellFormed(bnd) && k != 0.0
    ensures SideFacts(bnd, k, k * bnd.left + c, k * bnd.right + c, (bnd.bottom - c) / k, (bnd.top - c) / k)
  {
    CornerSides(k, c, bnd);
    LevelOrder(k, c, bnd.bottom, bnd.top);
  }

  /** A line that meets the left side inside the rectangle meets a second side inside it
      too (the right, bottom or top side); one that meets the right side but not the left
      side meets the bottom or top side. */
  lemma SecondCrossing(k: real, c: real, bnd: Bounds)
    requires WellFormed(bnd) && k != 0.0
    ensures bnd.bottom <= k * bnd.left + c <= bnd.top ==>
      || bnd.bottom <= k * bnd.right + c <= bnd.top
      || bnd.left <= (bnd.bottom - c) / k <= bnd.right
      || bnd.left <= (bnd.top - c) / k <= bnd.right
    ensures !(bnd.bottom <= k * bnd.left + c <= bnd.top) && bnd.bottom <= k * bnd.right + c <= bnd.top ==>
      || bnd.left <= (bnd.bottom - c) / k <= bnd.right
      || bnd.left <= (bnd.top - c) / k <= bnd.right
  {
    CornerSides(k, c, bnd);
  }

  /** The general branch always accepts a second crossing once it has accepted a first one,
      so `crossA` is never assigned without `crossB` and `length`. */
  lemma SlopedNeverHalf(k: real, c: real, bnd: Bounds)
    requires WellFormed(bnd) && k != 0.0
    ensures !SlopedEffect(k, c, bnd).OnlyA?
  {
    SecondCrossing(k, c, bnd);
  }

  /** The half-assigned outcome `OnlyA` cannot happen for any pair. */
  lemma HalfCrossingUnreachable(a: Vec, b: Vec, bnd: Bounds)
    requires WellFormed(bnd)
    ensures !PairEffect(a, b, bnd).OnlyA?
  {
    if a.x != b.x && LineOf(a, b).k != 0.0 {
      SlopedNeverHalf(LineOf(a, b).k, LineOf(a, b).c, bnd);
    }
  }

  /** A line whose left, right and bottom crossings all fall outside the rectangle stays
      outside it over the whole width of the rectangle. */
  lemma NoCrossingOutside(k: real, c: real, bnd: Bounds, x: real)
    requires WellFormed(bnd) && k != 0.0
    requires !(bnd.bottom <= k * bnd.left + c <= bnd.top)
    requires !(bnd.bottom <= k * bnd.right + c <= bnd.top)
    requires !(bnd.left <= (bnd.bottom - c) / k <= bnd.right)
    requires bnd.left <= x <= bnd.right
    ensures !(bnd.bottom <= k * x + c <= bnd.top)
  {
    CornerSides(k, c, bnd);
    LevelSide(k, c, x, bnd.bottom);
    LevelSide(k, c, x, bnd.top);
  }

  /** A pair that assigns nothing has a line that misses the closed rectangle entirely; with
      `HalfCrossingUnreachable` and the `Full` crossings lying inside, a pair assigns a chord
      exactly when its line meets the rectangle. */
  lemma MissIsDisjoint(a: Vec, b: Vec, bnd: Bounds, p: Vec)
    requires WellFormed(bnd)
    requires PairEffect(a, b, bnd).Untouched?
    ensures !(OnLine(LineOf(a, b), p) && Inside(bnd, p))
  {
    if a.x != b.x && LineOf(a, b).k != 0.0 && bnd.left <= p.x <= bnd.right {
      var k, c := LineOf(a, b).k, LineOf(a, b).c;
      assert SlopedEffect(k, c, bnd).Untouched?;
      NoCrossingOutside(k, c, bnd, p.x);
    }
  }

  /** A vertical pair (equal x) meets the rectangle exactly when its x lies between left and
      right; its crossings are the bottom and top points at that x, and its length is the
      rectangle's height. */
  lemma VerticalPair(a: Vec, b: Vec, bnd: Bounds)
    requires WellFormed(bnd) && a.x == b.x
    ensures PairEffect(a, b, bnd).Full? <==> bnd.left <= a.x <= bnd.right
    ensures PairEffect(a, b, bnd).Full? ==>
      && PairEffect(a, b, bnd).crossA == Vec(a.x, bnd.bottom)
      && PairEffect(a, b, bnd).crossB == Vec(a.x, bnd.top)
      && PairEffect(a, b, bnd).len == (bnd.top - bnd.bottom) * (bnd.top - bnd.bottom)
  {
  }

  /** A horizontal pair (distinct x, equal y, so slope 0) meets the rectangle exactly when its
      y lies between bottom and top; its crossings are the left and right points at that y,
      and its length is the rectangle's width. */
  lemma HorizontalPair(a: Vec, b: Vec, bnd: Bounds)
    requires WellFormed(bnd) && a.x != b.x && a.y == b.y
    ensures PairEffect(a, b, bnd).Full? <==> bnd.bottom <= a.y <= bnd.top
    ensures PairEffect(a, b, bnd).Full? ==>
      && PairEffect(a, b, bnd).crossA == Vec(bnd.left, a.y)
      && PairEffect(a, b, bnd).crossB == Vec(bnd.right, a.y)
      && PairEffect(a, b, bnd).len == (bnd.right - bnd.left) * (bnd.right - bnd.left)
  {
    assert LineOf(a, b).k == 0.0;
  }
}
