/** The online softmax recurrence, its closed form, and the merge of partial results over split
    key ranges. The exponential is a parameter; minus infinity, the start value of the running
    maximum, is `None`. */
module OnlineSoftmax {
  import opened Sums
  import opened Tensors

  /** e(0) == 1, e(a + b) == e(a) e(b) and e > 0. */
  ghost predicate IsExp(e: real -> real) {
    && e(0.0) == 1.0
    && (forall a, b {:trigger Adds(e, a, b)} :: Adds(e, a, b))
    && (forall a {:trigger Positive(e, a)} :: Positive(e, a))
  }

  predicate Adds(e: real -> real, a: real, b: real) {
    e(a + b) == e(a) * e(b)
  }

  predicate Positive(e: real -> real, a: real) {
    e(a) > 0.0
  }

  // ---------------------------------------------------------------- the recurrence

  function Raise(m: Option<real>, s: real): real {
    if m.None? || s > m.value then s else m.value
  }

  /** exp(old max - new max), zero while there is no old max. */
  function Decay(e: real -> real, prev: Option<real>, m: real): real {
    if prev.None? then 0.0 else e(prev.value - m)
  }

  /** exp(s - max), without calling exp at the maximum. */
  function Gain(e: real -> real, s: real, m: real): real {
    if s == m then 1.0 else e(s - m)
  }

  /** Running maximum of the scores lo, ..., hi - 1. */
  function RunMax(s: int -> real, lo: nat, hi: nat): (m: Option<real>)
    ensures m.Some? <==> lo < hi
  {
    if lo >= hi then None else Some(Raise(RunMax(s, lo, hi - 1), s(hi - 1)))
  }

  /** One accumulator after the scores lo, ..., hi - 1: decay, then add the gain times `f`. The
      denominator is the case f == 1. */
  function Track(e: real -> real, s: int -> real, f: int -> real, lo: nat, hi: nat): real {
    if lo >= hi then 0.0
    else
      var prev, j := RunMax(s, lo, hi - 1), hi - 1;
      var m := Raise(prev, s(j));
      Track(e, s, f, lo, hi - 1) * Decay(e, prev, m) + Gain(e, s(j), m) * f(j)
  }

  // ---------------------------------------------------------------- the closed form

  /** Sum of exp(s_j - m) f_j. */
  function Weighted(e: real -> real, s: int -> real, f: int -> real, m: real, lo: nat, hi: nat): real {
    if lo >= hi then 0.0 else Weighted(e, s, f, m, lo, hi - 1) + e(s(hi - 1) - m) * f(hi - 1)
  }

  lemma {:induction false} RunMaxIsMax(s: int -> real, lo: nat, hi: nat)
    requires lo < hi
    ensures var m := RunMax(s, lo, hi).value;
            (forall j :: lo <= j < hi ==> s(j) <= m) && exists j :: lo <= j < hi && s(j) == m
  {
    if lo < hi - 1 { RunMaxIsMax(s, lo, hi - 1); }
    var m := RunMax(s, lo, hi).value;
    if s(hi - 1) != m {
      assert RunMax(s, lo, hi - 1) == Some(m);
    }
  }

  lemma Shift(e: real -> real, s: real, m: real, n: real)
    requires IsExp(e)
    ensures e(s - n) == e(s - m) * e(m - n)
  {
    assert Adds(e, s - m, m - n);
    assert (s - m) + (m - n) == s - n;
  }

  lemma ShiftTerm(w: real, x: real, c: real, f: real, w': real, x': real)
    requires w' == w * c && x' == x * c
    ensures w' + x' * f == (w + x * f) * c
  {
    assert x * c * f == x * f * c;
  }

  /** Changing the reference maximum rescales every sum by the same factor. */
  lemma {:induction false} Rescaled(e: real -> real, s: int -> real, f: int -> real, m: real, n: real, lo: nat, hi: nat)
    requires IsExp(e)
    ensures Weighted(e, s, f, n, lo, hi) == Weighted(e, s, f, m, lo, hi) * e(m - n)
  {
    if lo < hi {
      Rescaled(e, s, f, m, n, lo, hi - 1);
      Shift(e, s(hi - 1), m, n);
      ShiftTerm(Weighted(e, s, f, m, lo, hi - 1), e(s(hi - 1) - m), e(m - n), f(hi - 1),
                Weighted(e, s, f, n, lo, hi - 1), e(s(hi - 1) - n));
    }
  }

  lemma GainIs(e: real -> real, s: real, m: real)
    requires IsExp(e)
    ensures Gain(e, s, m) == e(s - m)
  {
  }

  /** Main result: the one-pass accumulator is the two-pass sum at the true maximum. */
  lemma {:induction false} TrackIsWeighted(e: real -> real, s: int -> real, f: int -> real, lo: nat, hi: nat)
    requires IsExp(e) && lo < hi
    ensures Track(e, s, f, lo, hi) == Weighted(e, s, f, RunMax(s, lo, hi).value, lo, hi)
  {
    var j, m := hi - 1, RunMax(s, lo, hi).value;
    GainIs(e, s(j), m);
    if lo < j {
      var prev := RunMax(s, lo, j).value;
      TrackIsWeighted(e, s, f, lo, j);
      Rescaled(e, s, f, prev, m, lo, j);
    } else {
      assert Track(e, s, f, lo, j) == 0.0 && Weighted(e, s, f, m, lo, j) == 0.0;
    }
  }

  // ---------------------------------------------------------------- splitting the range

  function HigherOf(a: Option<real>, b: Option<real>): Option<real> {
    if a.None? then b else if b.None? then a else Some(Raise(a, b.value))
  }

  lemma {:induction false} RunMaxSplits(s: int -> real, lo: nat, mid: nat, hi: nat)
    requires lo <= mid <= hi
    ensures RunMax(s, lo, hi) == HigherOf(RunMax(s, lo, mid), RunMax(s, mid, hi))
  {
    if mid < hi { RunMaxSplits(s, lo, mid, hi - 1); }
  }

  lemma {:induction false} WeightedSplits(e: real -> real, s: int -> real, f: int -> real, m: real, lo: nat, mid: nat, hi: nat)
    requires lo <= mid <= hi
    ensures Weighted(e, s, f, m, lo, hi) == Weighted(e, s, f, m, lo, mid) + Weighted(e, s, f, m, mid, hi)
  {
    if mid < hi { WeightedSplits(e, s, f, m, lo, mid, hi - 1); }
  }

  /** One accumulator of the merge. */
  function Joined(e: real -> real, a: real, ma: Option<real>, b: real, mb: Option<real>): real {
    var m := HigherOf(ma, mb);
    if m.None? then a * 0.0 + b * 0.0 else a * Decay(e, ma, m.value) + b * Decay(e, mb, m.value)
  }

  /** Accumulator `t` with maximum `mt`, seen from the maximum `m`, is `x`. */
  ghost predicate Sees(e: real -> real, t: real, mt: Option<real>, m: real, x: real) {
    t * Decay(e, mt, m) == x
  }

  lemma Substitute(t: real, w: real, c: real, w': real)
    requires t == w && w' == w * c
    ensures t * c == w'
  {
  }

  /** A range seen from a common maximum, empty or not. */
  lemma SeenFrom(e: real -> real, s: int -> real, f: int -> real, m: real, lo: nat, hi: nat)
    requires IsExp(e)
    ensures Sees(e, Track(e, s, f, lo, hi), RunMax(s, lo, hi), m, Weighted(e, s, f, m, lo, hi))
  {
    if lo < hi {
      var M := RunMax(s, lo, hi).value;
      TrackIsWeighted(e, s, f, lo, hi);
      Rescaled(e, s, f, M, m, lo, hi);
      Substitute(Track(e, s, f, lo, hi), Weighted(e, s, f, M, lo, hi), Decay(e, RunMax(s, lo, hi), m), Weighted(e, s, f, m, lo, hi));
    }
  }

  lemma JoinedIs(e: real -> real, a: real, ma: Option<real>, b: real, mb: Option<real>, m: real, x: real, y: real)
    requires HigherOf(ma, mb) == Some(m) && Sees(e, a, ma, m, x) && Sees(e, b, mb, m, y)
    ensures Joined(e, a, ma, b, mb) == x + y
  {
  }

  lemma TrackIsTwoSums(e: real -> real, s: int -> real, f: int -> real, lo: nat, mid: nat, hi: nat, m: real)
    requires IsExp(e) && lo <= mid <= hi && RunMax(s, lo, hi) == Some(m)
    ensures Track(e, s, f, lo, hi) == Weighted(e, s, f, m, lo, mid) + Weighted(e, s, f, m, mid, hi)
  {
    TrackIsWeighted(e, s, f, lo, hi);
    WeightedSplits(e, s, f, m, lo, mid, hi);
  }

  lemma TrackSplitsAt(e: real -> real, s: int -> real, f: int -> real, lo: nat, mid: nat, hi: nat, m: real)
    requires IsExp(e) && lo <= mid <= hi && RunMax(s, lo, hi) == Some(m)
    requires HigherOf(RunMax(s, lo, mid), RunMax(s, mid, hi)) == Some(m)
    ensures Joined(e, Track(e, s, f, lo, mid), RunMax(s, lo, mid), Track(e, s, f, mid, hi), RunMax(s, mid, hi)) ==
            Weighted(e, s, f, m, lo, mid) + Weighted(e, s, f, m, mid, hi)
  {
    SeenFrom(e, s, f, m, lo, mid);
    SeenFrom(e, s, f, m, mid, hi);
    JoinedIs(e, Track(e, s, f, lo, mid), RunMax(s, lo, mid), Track(e, s, f, mid, hi), RunMax(s, mid, hi), m,
             Weighted(e, s, f, m, lo, mid), Weighted(e, s, f, m, mid, hi));
  }

  lemma TrackSplits(e: real -> real, s: int -> real, f: int -> real, lo: nat, mid: nat, hi: nat)
    requires IsExp(e) && lo <= mid <= hi
    ensures Track(e, s, f, lo, hi) ==
            Joined(e, Track(e, s, f, lo, mid), RunMax(s, lo, mid), Track(e, s, f, mid, hi), RunMax(s, mid, hi))
  {
    if lo < hi {
      var m := RunMax(s, lo, hi).value;
      RunMaxSplits(s, lo, mid, hi);
      TrackSplitsAt(e, s, f, lo, mid, hi, m);
      TrackIsTwoSums(e, s, f, lo, mid, hi, m);
    }
  }

  // ---------------------------------------------------------------- partial results

  datatype Partial = Partial(max: Option<real>, sum: real, acc: seq<real>)

  function EmptyPartial(dim: nat): Partial {
    Partial(None, 0.0, seq(dim, _ => 0.0))
  }

  /** Value component `d`, as a function of the key. */
  function Component(x: (int, int) -> real, d: int): int -> real {
    j => x(j, d)
  }

  function One(): int -> real {
    j => 1.0
  }

  /** What the online loop leaves after the keys lo, ..., hi - 1. */
  function Online(e: real -> real, s: int -> real, x: (int, int) -> real, dim: nat, lo: nat, hi: nat): (p: Partial)
    ensures |p.acc| == dim
  {
    Partial(RunMax(s, lo, hi), Track(e, s, One(), lo, hi), seq(dim, d => Track(e, s, Component(x, d), lo, hi)))
  }

  /** `merge_partials`. */
  function Merge(e: real -> real, a: Partial, b: Partial): (p: Partial)
    requires |a.acc| == |b.acc|
    ensures |p.acc| == |a.acc|
  {
    Partial(HigherOf(a.max, b.max), Joined(e, a.sum, a.max, b.sum, b.max),
            seq(|a.acc|, d => Joined(e, At(a.acc, d), a.max, At(b.acc, d), b.max)))
  }

  /** Splitting the key range anywhere and merging gives the unsplit result. */
  lemma MergeOfSplit(e: real -> real, s: int -> real, x: (int, int) -> real, dim: nat, lo: nat, mid: nat, hi: nat)
    requires IsExp(e) && lo <= mid <= hi
    ensures Merge(e, Online(e, s, x, dim, lo, mid), Online(e, s, x, dim, mid, hi)) == Online(e, s, x, dim, lo, hi)
  {
    RunMaxSplits(s, lo, mid, hi);
    TrackSplits(e, s, One(), lo, mid, hi);
    var p, q := Merge(e, Online(e, s, x, dim, lo, mid), Online(e, s, x, dim, mid, hi)), Online(e, s, x, dim, lo, hi);
    forall d | 0 <= d < dim ensures p.acc[d] == q.acc[d] {
      TrackSplits(e, s, Component(x, d), lo, mid, hi);
    }
  }

  /** Partials of the consecutive ranges between the cut points. */
  function Pieces(e: real -> real, s: int -> real, x: (int, int) -> real, dim: nat, cuts: seq<nat>): (ps: seq<Partial>)
    ensures forall i :: 0 <= i < |ps| ==> |ps[i].acc| == dim
  {
    if |cuts| < 2 then []
    else Pieces(e, s, x, dim, cuts[..|cuts| - 1]) + [Online(e, s, x, dim, cuts[|cuts| - 2], cuts[|cuts| - 1])]
  }

  /** `merge_all`: left to right from the empty partial. */
  function MergeAll(e: real -> real, ps: seq<Partial>, dim: nat): (p: Partial)
    requires forall i :: 0 <= i < |ps| ==> |ps[i].acc| == dim
    ensures |p.acc| == dim
  {
    if ps == [] then EmptyPartial(dim) else Merge(e, MergeAll(e, ps[..|ps| - 1], dim), ps[|ps| - 1])
  }

  predicate Ascending(cuts: seq<nat>) {
    forall i, j :: 0 <= i < j < |cuts| ==> cuts[i] <= cuts[j]
  }

  /** Main theorem: however a key range is cut up, merging the pieces gives the whole. */
  lemma {:induction false} MergeAllOfPieces(e: real -> real, s: int -> real, x: (int, int) -> real, dim: nat, cuts: seq<nat>)
    requires IsExp(e) && Ascending(cuts) && |cuts| > 0
    ensures MergeAll(e, Pieces(e, s, x, dim, cuts), dim) == Online(e, s, x, dim, cuts[0], cuts[|cuts| - 1])
  {
    var n := |cuts| - 1;
    if n == 0 {
      EmptyIsOnline(e, s, x, dim, cuts[0]);
    } else {
      MergeAllOfPieces(e, s, x, dim, cuts[..n]);
      var ps := Pieces(e, s, x, dim, cuts);
      assert ps[..|ps| - 1] == Pieces(e, s, x, dim, cuts[..n]);
      MergeOfSplit(e, s, x, dim, cuts[0], cuts[n - 1], cuts[n]);
    }
  }

  lemma EmptyIsOnline(e: real -> real, s: int -> real, x: (int, int) -> real, dim: nat, lo: nat)
    ensures EmptyPartial(dim) == Online(e, s, x, dim, lo, lo)
  {
  }

  // ---------------------------------------------------------------- against the two-pass form

  /** `SoftmaxPartial::finalize`. */
  function Finalized(p: Partial): (r: seq<real>)
    ensures |r| == |p.acc|
  {
    var inv := if p.sum > 0.0 then 1.0 / p.sum else 0.0;
    seq(|p.acc|, d => At(p.acc, d) * inv)
  }

  /** Softmax weight of key `j`, as the two-pass kernel computes it. */
  function SoftmaxWeight(e: real -> real, s: int -> real, lo: nat, hi: nat, j: int): real
    requires lo < hi && IsPositive(Weighted(e, s, One(), RunMax(s, lo, hi).value, lo, hi))
  {
    e(s(j) - RunMax(s, lo, hi).value) / Weighted(e, s, One(), RunMax(s, lo, hi).value, lo, hi)
  }

  predicate IsPositive(x: real) {
    x > 0.0
  }

  lemma {:induction false} WeightsPositive(e: real -> real, s: int -> real, m: real, lo: nat, hi: nat)
    requires IsExp(e)
    ensures lo < hi ==> IsPositive(Weighted(e, s, One(), m, lo, hi))
  {
    if lo < hi {
      WeightsPositive(e, s, m, lo, hi - 1);
      assert Positive(e, s(hi - 1) - m);
    }
  }

  /** Weighted sum of the values with normalised weights. */
  function Averaged(w: int -> real, f: int -> real, lo: nat, hi: nat): real {
    if lo >= hi then 0.0 else Averaged(w, f, lo, hi - 1) + w(hi - 1) * f(hi - 1)
  }

  lemma DivideTerm(a: real, x: real, f: real, t: real, q: real)
    requires t > 0.0 && q == x / t
    ensures a / t + q * f == (a + x * f) / t
  {
    assert q * t == x;
    assert (a / t + q * f) * t == a + x * f;
  }

  lemma {:induction false} AveragedIsQuotient(e: real -> real, s: int -> real, f: int -> real, w: int -> real, m: real, t: real, lo: nat, hi: nat)
    requires t > 0.0 && forall j :: w(j) == e(s(j) - m) / t
    ensures Averaged(w, f, lo, hi) == Weighted(e, s, f, m, lo, hi) / t
  {
    if lo < hi {
      AveragedIsQuotient(e, s, f, w, m, t, lo, hi - 1);
      DivideTerm(Weighted(e, s, f, m, lo, hi - 1), e(s(hi - 1) - m), f(hi - 1), t, w(hi - 1));
    }
  }

  lemma TimesReciprocal(a: real, t: real)
    requires t > 0.0
    ensures a * (1.0 / t) == a / t
  {
  }

  lemma QuotientOfSums(e: real -> real, s: int -> real, f: int -> real, lo: nat, hi: nat, t: real, w: int -> real)
    requires IsExp(e) && lo < hi && t > 0.0 && t == Track(e, s, One(), lo, hi)
    requires var m := RunMax(s, lo, hi).value; forall j :: w(j) == e(s(j) - m) / t
    ensures Averaged(w, f, lo, hi) == Track(e, s, f, lo, hi) / t
  {
    var m := RunMax(s, lo, hi).value;
    TrackIsWeighted(e, s, f, lo, hi);
    AveragedIsQuotient(e, s, f, w, m, t, lo, hi);
  }

  lemma SumIsTotal(e: real -> real, s: int -> real, lo: nat, hi: nat)
    requires IsExp(e) && lo < hi
    ensures var t := Weighted(e, s, One(), RunMax(s, lo, hi).value, lo, hi);
            IsPositive(t) && Track(e, s, One(), lo, hi) == t
  {
    WeightsPositive(e, s, RunMax(s, lo, hi).value, lo, hi);
    TrackIsWeighted(e, s, One(), lo, hi);
  }

  lemma FinalizedAt(p: Partial, d: nat)
    requires d < |p.acc| && p.sum > 0.0
    ensures Finalized(p)[d] == p.acc[d] / p.sum
  {
    TimesReciprocal(p.acc[d], p.sum);
  }

  /** Main theorem: the finalised online result is the softmax-weighted average. */
  lemma OnlineIsSoftmax(e: real -> real, s: int -> real, x: (int, int) -> real, dim: nat, lo: nat, hi: nat, d: nat)
    requires IsExp(e) && lo < hi && d < dim
    ensures IsPositive(Weighted(e, s, One(), RunMax(s, lo, hi).value, lo, hi))
    ensures Finalized(Online(e, s, x, dim, lo, hi))[d] ==
            Averaged(j => SoftmaxWeight(e, s, lo, hi, j), Component(x, d), lo, hi)
  {
    SumIsTotal(e, s, lo, hi);
    FinalizedAt(Online(e, s, x, dim, lo, hi), d);
    QuotientOfSums(e, s, Component(x, d), lo, hi, Track(e, s, One(), lo, hi), j => SoftmaxWeight(e, s, lo, hi, j));
  }

  // ---------------------------------------------------------------- the merge as an algebra

  lemma HigherOfLaws(a: Option<real>, b: Option<real>, c: Option<real>)
    ensures HigherOf(a, b) == HigherOf(b, a)
    ensures HigherOf(HigherOf(a, b), c) == HigherOf(a, HigherOf(b, c))
  {
  }

  /** exp(a - b) exp(b - m) == exp(a - m), on optional maxima. */
  lemma DecayChain(e: real -> real, ma: Option<real>, b: real, m: real)
    requires IsExp(e)
    ensures Decay(e, ma, b) * e(b - m) == Decay(e, ma, m)
  {
    if ma.Some? { Shift(e, ma.value, b, m); }
  }

  lemma RescaleSum(a: real, da: real, b: real, db: real, c: real, da': real, db': real)
    requires da' == da * c && db' == db * c
    ensures (a * da + b * db) * c == a * da' + b * db'
  {
    assert a * da * c == a * (da * c) && b * db * c == b * (db * c);
  }

  /** A join, seen from any maximum, is the sum of its parts seen from there. */
  lemma JoinedSees(e: real -> real, a: real, ma: Option<real>, b: real, mb: Option<real>, m: real)
    requires IsExp(e) && HigherOf(ma, mb).Some?
    ensures Sees(e, Joined(e, a, ma, b, mb), HigherOf(ma, mb), m, a * Decay(e, ma, m) + b * Decay(e, mb, m))
  {
    var h := HigherOf(ma, mb).value;
    DecayChain(e, ma, h, m);
    DecayChain(e, mb, h, m);
    RescaleSum(a, Decay(e, ma, h), b, Decay(e, mb, h), e(h - m), Decay(e, ma, m), Decay(e, mb, m));
  }

  lemma ThreeJoined(e: real -> real, a: real, ma: Option<real>, b: real, mb: Option<real>, c: real, mc: Option<real>, m: real)
    requires IsExp(e) && HigherOf(HigherOf(ma, mb), mc) == Some(m)
    ensures Joined(e, Joined(e, a, ma, b, mb), HigherOf(ma, mb), c, mc) ==
            (a * Decay(e, ma, m) + b * Decay(e, mb, m)) + c * Decay(e, mc, m)
  {
    if HigherOf(ma, mb).Some? {
      JoinedSees(e, a, ma, b, mb, m);
      JoinedIs(e, Joined(e, a, ma, b, mb), HigherOf(ma, mb), c, mc, m,
               a * Decay(e, ma, m) + b * Decay(e, mb, m), c * Decay(e, mc, m));
    }
  }

  lemma JoinedCommutes(e: real -> real, a: real, ma: Option<real>, b: real, mb: Option<real>)
    ensures Joined(e, a, ma, b, mb) == Joined(e, b, mb, a, ma)
  {
    HigherOfLaws(ma, mb, ma);
  }

  lemma JoinedAssociates(e: real -> real, a: real, ma: Option<real>, b: real, mb: Option<real>, c: real, mc: Option<real>)
    requires IsExp(e)
    ensures Joined(e, Joined(e, a, ma, b, mb), HigherOf(ma, mb), c, mc) ==
            Joined(e, a, ma, Joined(e, b, mb, c, mc), HigherOf(mb, mc))
  {
    HigherOfLaws(ma, mb, mc);
    HigherOfLaws(mb, mc, ma);
    var h := HigherOf(HigherOf(ma, mb), mc);
    if h.Some? {
      ThreeJoined(e, a, ma, b, mb, c, mc, h.value);
      ThreeJoined(e, b, mb, c, mc, a, ma, h.value);
      JoinedCommutes(e, a, ma, Joined(e, b, mb, c, mc), HigherOf(mb, mc));
    }
  }

  /** Main theorem: the merge is commutative and associative, on any partials at all. */
  lemma MergeLaws(e: real -> real, a: Partial, b: Partial, c: Partial)
    requires IsExp(e) && |a.acc| == |b.acc| == |c.acc|
    ensures Merge(e, a, b) == Merge(e, b, a)
    ensures Merge(e, Merge(e, a, b), c) == Merge(e, a, Merge(e, b, c))
  {
    HigherOfLaws(a.max, b.max, c.max);
    JoinedCommutes(e, a.sum, a.max, b.sum, b.max);
    JoinedAssociates(e, a.sum, a.max, b.sum, b.max, c.sum, c.max);
    var l, r := Merge(e, Merge(e, a, b), c), Merge(e, a, Merge(e, b, c));
    forall d | 0 <= d < |a.acc| ensures l.acc[d] == r.acc[d] && Merge(e, a, b).acc[d] == Merge(e, b, a).acc[d] {
      JoinedCommutes(e, a.acc[d], a.max, b.acc[d], b.max);
      JoinedAssociates(e, a.acc[d], a.max, b.acc[d], b.max, c.acc[d], c.max);
    }
  }

  /** The empty partial is neutral exactly for partials that are themselves empty when their
      maximum is. */
  lemma EmptyIsNeutral(e: real -> real, p: Partial)
    requires IsExp(e)
    ensures Merge(e, EmptyPartial(|p.acc|), p) == p <==> (p.max.None? ==> p == EmptyPartial(|p.acc|))
  {
    var q := Merge(e, EmptyPartial(|p.acc|), p);
    if p.max.Some? {
      Neutral(e, p.sum, p.max.value);
      forall d | 0 <= d < |p.acc| ensures q.acc[d] == p.acc[d] {
        Neutral(e, p.acc[d], p.max.value);
      }
    }
  }

  lemma Neutral(e: real -> real, x: real, m: real)
    requires IsExp(e)
    ensures Joined(e, 0.0, None, x, Some(m)) == x
  {
    assert m - m == 0.0;
  }
}
