/** Geometric primitives of the solver: positions, the axis-aligned rectangle normalised from two
    opposite corners, the infinite line through two sample points, and squared distances.

    Coordinates are `real`: the program's `double` arithmetic is modelled without rounding.
    Every Euclidean length is modelled by its square, which orders non-negative lengths the same way. */
module Geometry {

  datatype Option<T> = None | Some(value: T)

  /** A position in the task's own coordinate system (the program's `Vector2d`). */
  datatype Vec = Vec(x: real, y: real)

  /** The four scalar bounds the solver derives from the two rectangle corners. */
  datatype Bounds = Bounds(left: real, right: real, bottom: real, top: real)

  /** The infinite line through two sample points: `x = x0` when the points share an x
      coordinate, otherwise `y = k*x + c` with slope `k` and intercept `c`. */
  datatype Line = Vertical(x0: real) | Sloped(k: real, c: real)

  function Max(a: real, b: real): real { if a >= b then a else b }

  function Min(a: real, b: real): real { if a <= b then a else b }

  predicate WellFormed(b: Bounds) {
    b.left <= b.right && b.bottom <= b.top
  }

  /** Bounds of the rectangle spanned by two opposite corners: the smaller and larger x become
      left and right, the smaller and larger y become bottom and top. */
  function Normalise(p: Vec, q: Vec): (b: Bounds)
    ensures WellFormed(b)
    ensures (b.left == p.x && b.right == q.x) || (b.left == q.x && b.right == p.x)
    ensures (b.bottom == p.y && b.top == q.y) || (b.bottom == q.y && b.top == p.y)
  {
    Bounds(Min(p.x, q.x), Max(p.x, q.x), Min(p.y, q.y), Max(p.y, q.y))
  }

  /** The closed rectangle contains `p`. */
  predicate Inside(b: Bounds, p: Vec) {
    b.left <= p.x <= b.right && b.bottom <= p.y <= b.top
  }

  /** `p` lies on one of the four sides of the closed rectangle. */
  predicate OnBoundary(b: Bounds, p: Vec) {
    Inside(b, p) && (p.x == b.left || p.x == b.right || p.y == b.bottom || p.y == b.top)
  }

  predicate OnLine(l: Line, p: Vec) {
    match l
    case Vertical(x0) => p.x == x0
    case Sloped(k, c) => p.y == k * p.x + c
  }

  /** The line through `a` and `b`, with slope and intercept computed the way the solver does:
      `k = (a.y - b.y) / (a.x - b.x)` and `c = a.y - a.x * k`. Coincident points give the
      vertical line through them, as the solver's `a.x == b.x` test does. */
  function LineOf(a: Vec, b: Vec): (l: Line)
    ensures OnLine(l, a) && OnLine(l, b)
    ensures l.Vertical? <==> a.x == b.x
  {
    if a.x == b.x then Vertical(a.x)
    else
      var k := (a.y - b.y) / (a.x - b.x);
      assert k * (a.x - b.x) == a.y - b.y;
      Sloped(k, a.y - a.x * k)
  }

  /** The square of the Euclidean distance between two positions. */
  function SqDist(p: Vec, q: Vec): (d: real)
    ensures d >= 0.0
  {
    var dx, dy := q.x - p.x, q.y - p.y;
    Square(dx);
    Square(dy);
    dx * dx + dy * dy
  }

  /** Squaring keeps the order of non-negative lengths, so comparing squared chord lengths
      decides every comparison the same way as comparing the lengths themselves. */
  lemma SquareMonotone(a: real, b: real)
    requires 0.0 <= a && 0.0 <= b
    ensures a < b <==> a * a < b * b
  {
    if a < b {
      MulPos(b - a, b + a);
      assert b * b - a * a == (b - a) * (b + a);
    } else {
      MulNonNeg(a - b, a + b);
      assert a * a - b * b == (a - b) * (a + b);
    }
  }

  lemma SquareLe(d: real, w: real)
    requires 0.0 <= d <= w
    ensures d * d <= w * w
  {
    MulMonotone(d, d, w);
    MulMonotone(w, d, w);
  }

  /** A line `y = k*x + c` rises with `x` when its slope is non-negative and falls when its
      slope is non-positive. */
  lemma LineMonotone(k: real, c: real, x1: real, x2: real)
    requires x1 <= x2
    ensures k >= 0.0 ==> k * x1 + c <= k * x2 + c
    ensures k <= 0.0 ==> k * x2 + c <= k * x1 + c
  {
    assert k * x2 - k * x1 == k * (x2 - x1);
  }

  /** A line `y = k*x + c` with `k != 0` reaches the level `y` at the abscissa `(y - c) / k`;
      it lies below that level on one side of this abscissa and above it on the other,
      which side depending on the sign of `k`. */
  lemma LevelSide(k: real, c: real, x: real, y: real)
    requires k != 0.0
    ensures k > 0.0 ==> (k * x + c <= y <==> x <= (y - c) / k) && (y <= k * x + c <==> (y - c) / k <= x)
    ensures k < 0.0 ==> (k * x + c <= y <==> (y - c) / k <= x) && (y <= k * x + c <==> x <= (y - c) / k)
  {
    var q := (y - c) / k;
    assert k * q == y - c;
    assert k * x + c - y == k * (x - q);
  }

  /** A general line reaches a lower level before a higher one when it rises, and after it
      when it falls. */
  lemma LevelOrder(k: real, c: real, y1: real, y2: real)
    requires k != 0.0 && y1 <= y2
    ensures k > 0.0 ==> (y1 - c) / k <= (y2 - c) / k
    ensures k < 0.0 ==> (y2 - c) / k <= (y1 - c) / k
  {
    LevelSide(k, c, (y1 - c) / k, y2);
    DivCancel(y1 - c, k);
  }

  /** Squared distance does not depend on the order of the two points. */
  lemma SqDistSymmetric(p: Vec, q: Vec)
    ensures SqDist(p, q) == SqDist(q, p)
  {
    assert (q.x - p.x) * (q.x - p.x) == (p.x - q.x) * (p.x - q.x);
    assert (q.y - p.y) * (q.y - p.y) == (p.y - q.y) * (p.y - q.y);
  }

  // Arithmetic facts about products and quotients used by the intersection proofs.

  lemma MulPos(x: real, y: real)
    requires x > 0.0 && y > 0.0
    ensures x * y > 0.0
  {
  }

  lemma MulNonNeg(x: real, y: real)
    requires x >= 0.0 && y >= 0.0
    ensures x * y >= 0.0
  {
  }

  lemma Square(d: real)
    ensures d * d >= 0.0
    ensures d != 0.0 ==> d * d > 0.0
  {
    if d > 0.0 {
      MulPos(d, d);
    } else if d < 0.0 {
      var e := -d;
      MulPos(e, e);
      assert e * e == d * d;
    }
  }

  lemma DivCancel(a: real, k: real)
    requires k != 0.0
    ensures k * (a / k) == a
  {
  }

  lemma MulMonotone(k: real, x: real, y: real)
    requires x <= y
    ensures k >= 0.0 ==> k * x <= k * y
    ensures k <= 0.0 ==> k * y <= k * x
  {
    assert k * y - k * x == k * (y - x);
  }
}
