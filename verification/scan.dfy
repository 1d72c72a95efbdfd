/** The pair scan of `Task.solve` (Task.java:338-433) as the program writes it: a fold over
    the pairs `i < j` in the order of the two nested loops, carrying the running per-pair
    `length`, `crossA` and `crossB` from one pair to the next (they are declared once, before
    the loops, and never reset), and the best-so-far `lengthMax`, winning pair and crossings.

    Two behaviours of the code are kept as written:
    - a vertical pair assigns the running values but is never compared, because the
      comparison at Task.java:424 sits in the `else` branch opened at Task.java:368;
    - a non-vertical pair that assigns nothing is compared using the values left behind by
      the previous pair (see `StaleLengthCarried`).

    The fold itself runs over `Visit`s, which record only what each pair assigns and whether
    it reaches the comparison; `Visits` computes them from the sample points, so the lemmas
    about the loop hold for any geometry. */
module Scan {
  import opened Geometry
  import opened Engine

  /** The indices of two sample points, `i` from the outer loop and `j` from the inner one. */
  datatype Pair = Pair(i: nat, j: nat)

  /** Strict lexicographic order on pairs: the order in which the nested loops visit them. */
  predicate LexLess(p: Pair, q: Pair) {
    p.i < q.i || (p.i == q.i && p.j < q.j)
  }

  /** The inner loop for a fixed `i`: the pairs `(i, j)` for `j` from `i + 1` up to `n - 1`. */
  function Row(i: nat, n: nat): seq<Pair>
  {
    if i + 1 >= n then [] else seq(n - i - 1, k requires 0 <= k < n - i - 1 => Pair(i, i + 1 + k))
  }

  /** The outer loop from `i` on. */
  function PairsFrom(i: nat, n: nat): seq<Pair>
    decreases n - i
  {
    if i >= n then [] else Row(i, n) + PairsFrom(i + 1, n)
  }

  /** Every pair `i < j < n`, in the order the solver visits them. */
  function Pairs(n: nat): seq<Pair>
  {
    PairsFrom(0, n)
  }

  lemma {:induction false} PairsFromMembers(i: nat, n: nat)
    ensures forall p :: p in PairsFrom(i, n) <==> i <= p.i < p.j < n
    decreases n - i
  {
    if i < n {
      PairsFromMembers(i + 1, n);
      forall p ensures p in Row(i, n) <==> p.i == i && i < p.j < n {
        if p.i == i && i < p.j < n {
          assert Row(i, n)[p.j - i - 1] == p;
        }
      }
    }
  }

  /** The scan visits exactly the pairs `i < j` of indices below `n`. */
  lemma PairsMembers(n: nat)
    ensures forall p :: p in Pairs(n) <==> p.i < p.j < n
  {
    PairsFromMembers(0, n);
  }

  /** Every pair `i < j < n` has a position in the visiting order. */
  lemma PairIndex(n: nat, i: nat, j: nat) returns (k: nat)
    requires i < j < n
    ensures k < |Pairs(n)| && Pairs(n)[k] == Pair(i, j)
  {
    PairsMembers(n);
    assert Pair(i, j) in Pairs(n);
    k :| 0 <= k < |Pairs(n)| && Pairs(n)[k] == Pair(i, j);
  }

  lemma {:induction false} PairsFromSorted(i: nat, n: nat)
    ensures forall a, b :: 0 <= a < b < |PairsFrom(i, n)| ==> LexLess(PairsFrom(i, n)[a], PairsFrom(i, n)[b])
    decreases n - i
  {
    if i < n {
      PairsFromSorted(i + 1, n);
      PairsFromMembers(i + 1, n);
      var r, rest := Row(i, n), PairsFrom(i + 1, n);
      assert PairsFrom(i, n) == r + rest;
      forall a, b | 0 <= a < b < |r + rest| ensures LexLess((r + rest)[a], (r + rest)[b]) {
        if b < |r| {
        } else if a < |r| {
          assert rest[b - |r|] in rest;
        } else {
          assert (r + rest)[a] == rest[a - |r|] && (r + rest)[b] == rest[b - |r|];
        }
      }
    }
  }

  /** The scan visits the pairs in strictly increasing lexicographic order, hence each once. */
  lemma PairsSorted(n: nat)
    ensures forall a, b :: 0 <= a < b < |Pairs(n)| ==> LexLess(Pairs(n)[a], Pairs(n)[b])
  {
    PairsFromSorted(0, n);
  }

  predicate ValidPairs(ps: seq<Pair>, n: nat) {
    forall k :: 0 <= k < |ps| ==> ps[k].i < ps[k].j < n
  }

  lemma PairsValid(n: nat)
    ensures ValidPairs(Pairs(n), n)
  {
    PairsMembers(n);
    forall k | 0 <= k < |Pairs(n)| ensures Pairs(n)[k].i < Pairs(n)[k].j < n {
      assert Pairs(n)[k] in Pairs(n);
    }
  }

  /** The solver's local variables across the loop. `best` is the position, in the visiting
      order, of the winning pair (`aMax`, `bMax`); `None` stands for the program's `null`. */
  datatype Acc = Acc(
    length: real, crossA: Option<Vec>, crossB: Option<Vec>,
    lengthMax: real, best: Option<nat>, crossAmax: Option<Vec>, crossBmax: Option<Vec>)

  /** Before the loops: both lengths are -1 and every reference is null (Task.java:338-351). */
  const Init := Acc(-1.0, None, None, -1.0, None, None, None)

  /** What the loop body sees of one pair: the assignments its intersection step makes, and
      whether it reaches the comparison (only non-vertical pairs do). */
  datatype Visit = Visit(e: Effect, compared: bool)

  predicate OnBoundaryOpt(bnd: Bounds, v: Option<Vec>) {
    v.Some? ==> OnBoundary(bnd, v.value)
  }

  /** An effect the intersection step can produce for the rectangle `bnd`: its crossings lie on
      the boundary and its length is a squared distance. */
  predicate Admissible(e: Effect, bnd: Bounds) {
    && (e.Full? ==> e.len >= 0.0 && OnBoundary(bnd, e.crossA) && OnBoundary(bnd, e.crossB))
    && (e.OnlyA? ==> OnBoundary(bnd, e.crossA))
  }

  /** An effect whose assigned length is the squared distance between the crossings it
      assigns, and which never assigns `crossA` alone (see `Engine.HalfCrossingUnreachable`). */
  predicate Measured(e: Effect) {
    && !e.OnlyA?
    && (e.Full? ==> e.len == SqDist(e.crossA, e.crossB))
  }

  /** The lengths the loop carries are the lengths of the crossings it carries: the running
      `length` is the sentinel -1 or the squared distance between `crossA` and `crossB`, and
      `lengthMax` is -1 or the squared distance between `crossAmax` and `crossBmax`. */
  predicate Tied(acc: Acc) {
    && (acc.length == -1.0 || (acc.crossA.Some? && acc.crossB.Some? && acc.length == SqDist(acc.crossA.value, acc.crossB.value)))
    && (acc.lengthMax == -1.0 || (acc.crossAmax.Some? && acc.crossBmax.Some? && acc.lengthMax == SqDist(acc.crossAmax.value, acc.crossBmax.value)))
  }

  /** What stays true of the accumulator after `n` pairs: the running length is the
      sentinel -1 or a (squared) length, in which case both running crossings are set; a
      winner exists exactly when `lengthMax` has left the sentinel, and then both winning
      crossings are set; every crossing lies on the rectangle's boundary. */
  predicate Sane(acc: Acc, n: nat, bnd: Bounds) {
    && (acc.length == -1.0 || acc.length >= 0.0)
    && (acc.length >= 0.0 ==> acc.crossA.Some? && acc.crossB.Some?)
    && acc.lengthMax >= -1.0
    && (acc.best.None? <==> acc.lengthMax == -1.0)
    && (acc.best.Some? ==> acc.best.value < n && acc.crossAmax.Some? && acc.crossBmax.Some?)
    && OnBoundaryOpt(bnd, acc.crossA) && OnBoundaryOpt(bnd, acc.crossB)
    && OnBoundaryOpt(bnd, acc.crossAmax) && OnBoundaryOpt(bnd, acc.crossBmax)
  }

  /** The assignments of Task.java:361-422 to the running variables. */
  function Assign(acc: Acc, e: Effect): Acc
  {
    match e
    case Untouched => acc
    case OnlyA(v) => acc.(crossA := Some(v))
    case Full(p, q, len) => acc.(length := len, crossA := Some(p), crossB := Some(q))
  }

  /** One iteration of the inner loop, at position `pos` of the visiting order: assign the
      running variables, then, for a compared pair only, replace the best-so-far when the
      running length is strictly greater (Task.java:424-430). */
  function Advance(acc: Acc, v: Visit, pos: nat): Acc
  {
    var acc1 := Assign(acc, v.e);
    if v.compared && acc1.length > acc1.lengthMax then
      acc1.(lengthMax := acc1.length, best := Some(pos), crossAmax := acc1.crossA, crossBmax := acc1.crossB)
    else acc1
  }

  /** The loop over the visits `vs`, in order. */
  function Fold(vs: seq<Visit>): Acc
    decreases |vs|
  {
    if vs == [] then Init else Advance(Fold(vs[..|vs| - 1]), vs[|vs| - 1], |vs| - 1)
  }

  /** The running `length` right after the visit at position `k` has assigned: the value the
      comparison at Task.java:424 uses for that pair. */
  function LengthAt(vs: seq<Visit>, k: nat): real
    requires k < |vs|
  {
    Fold(vs[..k + 1]).length
  }

  /** Every accumulator the loop reaches is sane when every visit's effect is admissible. */
  lemma {:induction false} FoldSane(vs: seq<Visit>, bnd: Bounds)
    requires forall k :: 0 <= k < |vs| ==> Admissible(vs[k].e, bnd)
    ensures Sane(Fold(vs), |vs|, bnd)
    decreases |vs|
  {
    if vs != [] {
      FoldSane(vs[..|vs| - 1], bnd);
    }
  }

  /** The loop keeps each length tied to its crossings when every visit's effect is measured,
      so the published winner's crossings lie `lengthMax` apart. */
  lemma {:induction false} FoldTied(vs: seq<Visit>)
    requires forall k :: 0 <= k < |vs| ==> Measured(vs[k].e)
    ensures Tied(Fold(vs))
    decreases |vs|
  {
    if vs != [] {
      FoldTied(vs[..|vs| - 1]);
    }
  }

  /** The scan of the first `m + 1` visits is one step past the scan of the first `m`. */
  lemma PrefixStep(vs: seq<Visit>, m: nat)
    requires m < |vs|
    ensures Fold(vs[..m + 1]) == Advance(Fold(vs[..m]), vs[m], m)
  {
    assert vs[..m + 1][..m] == vs[..m];
  }

  /** What one step does to the best-so-far: it keeps it, or a compared pair takes over with a
      running length strictly above the previous `lengthMax`. */
  lemma AdvanceWinner(acc: Acc, v: Visit, pos: nat)
    ensures var r := Advance(acc, v, pos);
      && acc.lengthMax <= r.lengthMax
      && (v.compared ==> r.length <= r.lengthMax)
      && (|| (r.best == acc.best && r.lengthMax == acc.lengthMax && r.crossAmax == acc.crossAmax && r.crossBmax == acc.crossBmax)
          || (r.best == Some(pos) && v.compared && r.lengthMax == r.length && r.lengthMax > acc.lengthMax
              && r.crossAmax == r.crossA && r.crossBmax == r.crossB))
  {
  }

  /** A pair that assigns a chord is compared with that chord's own length; a pair that
      assigns nothing (or only `crossA`) is compared with the length left by the pair before
      it, or with -1 when it is the first. */
  lemma StaleLengthCarried(vs: seq<Visit>, k: nat)
    requires k < |vs|
    ensures vs[k].e.Full? ==> LengthAt(vs, k) == vs[k].e.len
    ensures !vs[k].e.Full? ==> LengthAt(vs, k) == (if k == 0 then -1.0 else LengthAt(vs, k - 1))
  {
    PrefixStep(vs, k);
  }

  /** `lengthMax` never decreases from one pair to the next. */
  lemma {:induction false} MaxGrows(vs: seq<Visit>, m: nat)
    requires m <= |vs|
    ensures Fold(vs[..m]).lengthMax <= Fold(vs).lengthMax
    decreases |vs| - m
  {
    if m < |vs| {
      PrefixStep(vs, m);
      AdvanceWinner(Fold(vs[..m]), vs[m], m);
      MaxGrows(vs, m + 1);
    } else {
      assert vs[..m] == vs;
    }
  }

  /** Every compared pair among the first `m` was compared with a running length no greater
      than `lengthMax` after those `m` visits. */
  lemma {:induction false} ComparedBelowAt(vs: seq<Visit>, m: nat)
    requires m <= |vs|
    ensures forall k :: 0 <= k < m && vs[k].compared ==> LengthAt(vs, k) <= Fold(vs[..m]).lengthMax
    decreases m
  {
    if m > 0 {
      ComparedBelowAt(vs, m - 1);
      PrefixStep(vs, m - 1);
      AdvanceWinner(Fold(vs[..m - 1]), vs[m - 1], m - 1);
    }
  }

  /** Every compared pair was compared with a running length no greater than the final
      `lengthMax`. */
  lemma ComparedBelowMax(vs: seq<Visit>)
    ensures forall k :: 0 <= k < |vs| && vs[k].compared ==> LengthAt(vs, k) <= Fold(vs).lengthMax
  {
    ComparedBelowAt(vs, |vs|);
    assert vs[..|vs|] == vs;
  }

  /** Maximality as written: the final `lengthMax` is at least the freshly computed chord
      length of every compared pair whose line meets the rectangle. */
  lemma MaxCoversFreshChords(vs: seq<Visit>, k: nat)
    requires k < |vs| && vs[k].compared && vs[k].e.Full?
    ensures vs[k].e.len <= Fold(vs).lengthMax
  {
    StaleLengthCarried(vs, k);
    ComparedBelowMax(vs);
  }

  /** After the first `m` visits, a winner is a compared pair among them whose running length
      is the current `lengthMax`, and the winning crossings are the running crossings right
      after it. */
  lemma {:induction false} WinnerRecordedAt(vs: seq<Visit>, m: nat)
    requires m <= |vs|
    ensures Fold(vs[..m]).best.Some? ==>
      var w := Fold(vs[..m]).best.value;
      && w < m
      && vs[w].compared
      && LengthAt(vs, w) == Fold(vs[..m]).lengthMax
      && Fold(vs[..m]).crossAmax == Fold(vs[..w + 1]).crossA
      && Fold(vs[..m]).crossBmax == Fold(vs[..w + 1]).crossB
    decreases m
  {
    if m > 0 {
      WinnerRecordedAt(vs, m - 1);
      PrefixStep(vs, m - 1);
      AdvanceWinner(Fold(vs[..m - 1]), vs[m - 1], m - 1);
    }
  }

  /** After the first `m` visits, every compared pair before the winner was compared with a
      length strictly below the current `lengthMax`. */
  lemma {:induction false} EarlierBelowAt(vs: seq<Visit>, m: nat)
    requires m <= |vs|
    ensures Fold(vs[..m]).best.Some? ==>
      && Fold(vs[..m]).best.value < m
      && forall k :: 0 <= k < Fold(vs[..m]).best.value && vs[k].compared ==> LengthAt(vs, k) < Fold(vs[..m]).lengthMax
    decreases m
  {
    if m > 0 {
      EarlierBelowAt(vs, m - 1);
      ComparedBelowAt(vs, m - 1);
      PrefixStep(vs, m - 1);
      AdvanceWinner(Fold(vs[..m - 1]), vs[m - 1], m - 1);
    }
  }

  /** The winner is the first compared pair whose running length reached the final
      `lengthMax`: every compared pair before it was compared with a strictly smaller length,
      and the winning crossings are the running crossings right after it. */
  lemma WinnerIsFirstMaximum(vs: seq<Visit>)
    ensures Fold(vs).best.Some? ==>
      var w := Fold(vs).best.value;
      && w < |vs|
      && vs[w].compared
      && LengthAt(vs, w) == Fold(vs).lengthMax
      && Fold(vs).crossAmax == Fold(vs[..w + 1]).crossA
      && Fold(vs).crossBmax == Fold(vs[..w + 1]).crossB
      && forall k :: 0 <= k < w && vs[k].compared ==> LengthAt(vs, k) < Fold(vs).lengthMax
  {
    WinnerRecordedAt(vs, |vs|);
    EarlierBelowAt(vs, |vs|);
    assert vs[..|vs|] == vs;
  }

  /** A compared pair visited before the winner whose line meets the rectangle has a fresh
      chord strictly shorter than the winning length. */
  lemma EarlierChordShorter(vs: seq<Visit>, k: nat)
    requires k < |vs| && Fold(vs).best.Some? && k < Fold(vs).best.value
    requires vs[k].compared && vs[k].e.Full?
    ensures vs[k].e.len < Fold(vs).lengthMax
  {
    StaleLengthCarried(vs, k);
    WinnerIsFirstMaximum(vs);
  }

  /** No winner exists exactly when every compared pair was compared with the sentinel -1,
      that is, no compared pair ever left a length behind at its comparison. */
  lemma NoWinnerIffNothingCompared(vs: seq<Visit>, bnd: Bounds)
    requires forall k :: 0 <= k < |vs| ==> Admissible(vs[k].e, bnd)
    ensures Fold(vs).best.None? <==> forall k :: 0 <= k < |vs| && vs[k].compared ==> LengthAt(vs, k) == -1.0
  {
    ComparedBelowMax(vs);
    WinnerIsFirstMaximum(vs);
    FoldSane(vs, bnd);
    forall k | 0 <= k < |vs| ensures LengthAt(vs, k) >= -1.0 {
      assert forall i :: 0 <= i < k + 1 ==> vs[..k + 1][i] == vs[i];
      FoldSane(vs[..k + 1], bnd);
    }
  }

  // The scan over the sample points.

  predicate NonVertical(points: seq<Vec>, p: Pair)
    requires p.i < |points| && p.j < |points|
  {
    points[p.i].x != points[p.j].x
  }

  /** The visits of the pairs `ps`: each pair's intersection step with the rectangle, and
      whether it reaches the comparison. */
  function Visits(points: seq<Vec>, bnd: Bounds, ps: seq<Pair>): (vs: seq<Visit>)
    requires WellFormed(bnd) && ValidPairs(ps, |points|)
    ensures |vs| == |ps|
    ensures forall k :: 0 <= k < |ps| ==> Admissible(vs[k].e, bnd) && Measured(vs[k].e)
  {
    forall k | 0 <= k < |ps| ensures !PairEffect(points[ps[k].i], points[ps[k].j], bnd).OnlyA? {
      HalfCrossingUnreachable(points[ps[k].i], points[ps[k].j], bnd);
    }
    seq(|ps|, k requires 0 <= k < |ps| =>
      Visit(PairEffect(points[ps[k].i], points[ps[k].j], bnd), NonVertical(points, ps[k])))
  }

  /** One iteration of the inner loop for the pair `p` of sample points. */
  function Step(points: seq<Vec>, bnd: Bounds, acc: Acc, p: Pair, pos: nat): Acc
    requires WellFormed(bnd) && p.i < |points| && p.j < |points|
  {
    Advance(acc, Visit(PairEffect(points[p.i], points[p.j], bnd), NonVertical(points, p)), pos)
  }

  /** The loop over the pairs `ps`, visited in order. */
  function Run(points: seq<Vec>, bnd: Bounds, ps: seq<Pair>): (acc: Acc)
    requires WellFormed(bnd) && ValidPairs(ps, |points|)
    ensures Sane(acc, |ps|, bnd) && Tied(acc)
  {
    FoldSane(Visits(points, bnd, ps), bnd);
    FoldTied(Visits(points, bnd, ps));
    Fold(Visits(points, bnd, ps))
  }

  /** The position of a pair in the visiting order follows the lexicographic order. */
  lemma PositionOrder(n: nat, k: nat, w: nat)
    requires k < |Pairs(n)| && w < |Pairs(n)|
    requires LexLess(Pairs(n)[k], Pairs(n)[w])
    ensures k < w
  {
    PairsSorted(n);
  }
}
