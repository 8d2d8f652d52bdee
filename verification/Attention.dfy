/** The two strict attention kernels: two-pass softmax attention, and the one-pass partial
    attention over a key range that split execution merges. */
module Attention {
  import opened Sums
  import opened Tensors
  import opened OnlineSoftmax

  /** Inner product of q[a..a+n] and k[b..b+n]. */
  function DotFrom(q: seq<real>, a: int, k: seq<real>, b: int, n: nat): real {
    Sum(n, d => At(q, a + d) * At(k, b + d))
  }

  lemma DotFromGrows(q: seq<real>, a: int, k: seq<real>, b: int, n: nat, x: real, y: real)
    requires At(q, a + n) == x && At(k, b + n) == y
    ensures DotFrom(q, a, k, b, n + 1) == DotFrom(q, a, k, b, n) + x * y
  {
  }

  /** What one (head, query) pair reads: the query row at `qOff`, and key or value row `j` at
      j * stride + kvOff. */
  datatype Lane = Lane(q: seq<real>, k: seq<real>, v: seq<real>, dim: nat, qOff: nat, stride: nat, kvOff: nat, scale: real)

  ghost predicate LaneFits(l: Lane, keys: nat) {
    && l.qOff + l.dim <= |l.q| && |l.k| == |l.v|
    && forall j {:trigger KeyRow(l, j)} :: 0 <= j < keys ==> 0 <= KeyRow(l, j) && KeyRow(l, j) + l.dim <= |l.k|
  }

  function KeyRow(l: Lane, j: int): int {
    j * l.stride + l.kvOff
  }

  function Scores(l: Lane): int -> real {
    j => DotFrom(l.q, l.qOff, l.k, KeyRow(l, j), l.dim) * l.scale
  }

  function Values(l: Lane): (int, int) -> real {
    (j, d) => At(l.v, KeyRow(l, j) + d)
  }

  /** score = (q . k[j]) * scale. */
  method Score(l: Lane, j: nat, ghost keys: nat) returns (s: real)
    requires LaneFits(l, keys) && j < keys
    ensures s == Scores(l)(j)
  {
    var row := j * l.stride + l.kvOff;
    assert row == KeyRow(l, j);
    var dot := DotLoop(l.q, l.qOff, l.k, row, l.dim);
    s := dot * l.scale;
  }

  method DotLoop(q: seq<real>, a: nat, k: seq<real>, b: nat, n: nat) returns (dot: real)
    requires a + n <= |q| && b + n <= |k|
    ensures dot == DotFrom(q, a, k, b, n)
  {
    dot := 0.0;
    for d := 0 to n
      invariant dot == DotFrom(q, a, k, b, d)
    {
      var x, y := q[a + d], k[b + d];
      DotFromGrows(q, a, k, b, d, x, y);
      dot := dot + x * y;
    }
  }

  // ---------------------------------------------------------------- the online kernel

  /** The running state after some keys: maximum, denominator and one sum per component. */
  datatype Running = Running(max: Option<real>, sum: real, acc: int -> real)

  function RunningAt(e: real -> real, l: Lane, lo: nat, hi: nat): Running {
    Running(RunMax(Scores(l), lo, hi), Track(e, Scores(l), One(), lo, hi), d => Track(e, Scores(l), Component(Values(l), d), lo, hi))
  }

  /** The first `n` components hold state `r`: maximum and denominator are the same in all. */
  ghost predicate Holds(r: Running, acc: seq<real>, runningMax: seq<Option<real>>, runningSum: seq<real>, n: nat)
    requires |acc| == |runningMax| == |runningSum| && n <= |acc|
  {
    && (forall d {:trigger acc[d]} :: 0 <= d < n ==> acc[d] == r.acc(d))
    && (forall d {:trigger runningMax[d]} :: 0 <= d < n ==> runningMax[d] == r.max)
    && (forall d {:trigger runningSum[d]} :: 0 <= d < n ==> runningSum[d] == r.sum)
  }

  /** `t` is `r` after one more key with score `s` and value row `v`, in component `d`. */
  ghost predicate Absorbs(e: real -> real, r: Running, t: Running, s: real, v: int -> real, d: int) {
    var m := Raise(r.max, s);
    && t.max == Some(m)
    && Grows(e, r.max, m, s, r.sum, t.sum, 1.0)
    && Grows(e, r.max, m, s, r.acc(d), t.acc(d), v(d))
  }

  /** A decayed sum gains one term of value `x`. */
  ghost predicate Grows(e: real -> real, max: Option<real>, m: real, s: real, before: real, after: real, x: real) {
    after == before * Decay(e, max, m) + Gain(e, s, m) * x
  }

  ghost predicate AbsorbsAll(e: real -> real, r: Running, t: Running, s: real, v: int -> real) {
    forall d {:trigger Absorbs(e, r, t, s, v, d)} :: Absorbs(e, r, t, s, v, d)
  }

  function ValueRow(l: Lane, j: int): int -> real {
    d => Values(l)(j, d)
  }

  lemma ValueIs(l: Lane, j: int, d: int)
    ensures ValueRow(l, j)(d) == At(l.v, KeyRow(l, j) + d)
  {
    var g := Values(l);
    assert g(j, d) == At(l.v, KeyRow(l, j) + d);
    assert ValueRow(l, j)(d) == g(j, d);
  }

  lemma RunningAbsorbs(e: real -> real, l: Lane, lo: nat, j: nat)
    requires lo <= j
    ensures AbsorbsAll(e, RunningAt(e, l, lo, j), RunningAt(e, l, lo, j + 1), Scores(l)(j), ValueRow(l, j))
  {
    var r, t, f, s := RunningAt(e, l, lo, j), RunningAt(e, l, lo, j + 1), ValueRow(l, j), Scores(l)(j);
    forall d ensures Absorbs(e, r, t, s, f, d) {
      AbsorbsOne(e, l, lo, j, d);
    }
  }

  lemma AbsorbsOne(e: real -> real, l: Lane, lo: nat, j: nat, d: int)
    requires lo <= j
    ensures Absorbs(e, RunningAt(e, l, lo, j), RunningAt(e, l, lo, j + 1), Scores(l)(j), ValueRow(l, j), d)
  {
    TrackStep(e, Scores(l), Component(Values(l), d), lo, j);
    TrackStep(e, Scores(l), One(), lo, j);
  }

  lemma TrackStep(e: real -> real, s: int -> real, f: int -> real, lo: nat, j: nat)
    requires lo <= j
    ensures var m := Raise(RunMax(s, lo, j), s(j));
            && RunMax(s, lo, j + 1) == Some(m)
            && Grows(e, RunMax(s, lo, j), m, s(j), Track(e, s, f, lo, j), Track(e, s, f, lo, j + 1), f(j))
  {
  }

  /** One component's update for one score. */
  method Update(e: real -> real, prevM: Option<real>, s: real, acc: real, sum: real, v: real) returns (newM: real, acc': real, sum': real)
    ensures newM == Raise(prevM, s)
    ensures acc' == acc * Decay(e, prevM, newM) + Gain(e, s, newM) * v
    ensures sum' == sum * Decay(e, prevM, newM) + Gain(e, s, newM) * 1.0
  {
    newM := if prevM.None? || s > prevM.value then s else prevM.value;
    var scalePrev := if prevM.None? then 0.0 else e(prevM.value - newM);
    sum' := sum * scalePrev;
    acc' := acc * scalePrev;
    var w := if s == newM then 1.0 else e(s - newM);
    sum' := sum' + w;
    acc' := acc' + w * v;
  }

  method UpdateTo(e: real -> real, prevM: Option<real>, s: real, acc: real, sum: real, v: real,
                  ghost r: Running, ghost t: Running, ghost row: int -> real, ghost d: int) returns (newM: Option<real>, acc': real, sum': real)
    requires prevM == r.max && sum == r.sum && acc == r.acc(d) && v == row(d) && Absorbs(e, r, t, s, row, d)
    ensures newM == t.max && sum' == t.sum && acc' == t.acc(d)
  {
    var m;
    m, acc', sum' := Update(e, prevM, s, acc, sum, v);
    newM := Some(m);
  }

  /** The inner loop over the components. */
  method Absorb(e: real -> real, v: seq<real>, row: nat, s: real, acc: array<real>, runningMax: array<Option<real>>, runningSum: array<real>,
                ghost r: Running, ghost t: Running, ghost f: int -> real)
    requires acc.Length == runningMax.Length == runningSum.Length && acc != runningSum && row + acc.Length <= |v|
    requires forall d :: 0 <= d < acc.Length ==> v[row + d] == f(d)
    requires Holds(r, acc[..], runningMax[..], runningSum[..], acc.Length) && AbsorbsAll(e, r, t, s, f)
    modifies acc, runningMax, runningSum
    ensures Holds(t, acc[..], runningMax[..], runningSum[..], acc.Length)
  {
    for d := 0 to acc.Length
      invariant forall c {:trigger acc[c]} :: 0 <= c < acc.Length ==> acc[c] == if c < d then t.acc(c) else r.acc(c)
      invariant forall c {:trigger runningMax[c]} :: 0 <= c < acc.Length ==> runningMax[c] == if c < d then t.max else r.max
      invariant forall c {:trigger runningSum[c]} :: 0 <= c < acc.Length ==> runningSum[c] == if c < d then t.sum else r.sum
    {
      assert Absorbs(e, r, t, s, f, d);
      var newM, a, sum := UpdateTo(e, runningMax[d], s, acc[d], runningSum[d], v[row + d], r, t, f, d);
      acc[d], runningMax[d], runningSum[d] := a, newM, sum;
    }
  }

  /** The key loop for one (head, query) pair. */
  method OnlineLane(e: real -> real, l: Lane, lo: nat, hi: nat) returns (p: Partial)
    requires LaneFits(l, hi) && l.dim > 0
    ensures p == Online(e, Scores(l), Values(l), l.dim, lo, if lo <= hi then hi else lo)
  {
    var acc := new real[l.dim](_ => 0.0);
    var runningMax := new Option<real>[l.dim](_ => None);
    var runningSum := new real[l.dim](_ => 0.0);
    NothingHeld(e, l, lo, acc[..], runningMax[..], runningSum[..]);
    OnlineKeys(e, l, lo, hi, acc, runningMax, runningSum);
    p := Partial(runningMax[0], runningSum[0], acc[..]);
    HeldIsOnline(e, l, lo, if lo <= hi then hi else lo, acc[..], runningMax[..], runningSum[..]);
  }

  method OnlineKeys(e: real -> real, l: Lane, lo: nat, hi: nat, acc: array<real>, runningMax: array<Option<real>>, runningSum: array<real>)
    requires LaneFits(l, hi) && acc.Length == runningMax.Length == runningSum.Length == l.dim && acc != runningSum
    requires Holds(RunningAt(e, l, lo, lo), acc[..], runningMax[..], runningSum[..], l.dim)
    modifies acc, runningMax, runningSum
    ensures Holds(RunningAt(e, l, lo, if lo <= hi then hi else lo), acc[..], runningMax[..], runningSum[..], l.dim)
  {
    var j := lo;
    while j < hi
      invariant lo <= j && (j <= hi || j == lo)
      invariant Holds(RunningAt(e, l, lo, j), acc[..], runningMax[..], runningSum[..], l.dim)
    {
      OnlineKey(e, l, lo, j, hi, acc, runningMax, runningSum);
      j := j + 1;
    }
  }

  lemma HeldIsOnline(e: real -> real, l: Lane, lo: nat, hi: nat, acc: seq<real>, runningMax: seq<Option<real>>, runningSum: seq<real>)
    requires |acc| == |runningMax| == |runningSum| == l.dim > 0
    requires Holds(RunningAt(e, l, lo, hi), acc, runningMax, runningSum, l.dim)
    ensures Partial(runningMax[0], runningSum[0], acc) == Online(e, Scores(l), Values(l), l.dim, lo, hi)
  {
    var p := Online(e, Scores(l), Values(l), l.dim, lo, hi);
    forall d | 0 <= d < l.dim ensures acc[d] == p.acc[d] {
    }
  }

  lemma NothingHeld(e: real -> real, l: Lane, lo: nat, acc: seq<real>, runningMax: seq<Option<real>>, runningSum: seq<real>)
    requires |acc| == |runningMax| == |runningSum| == l.dim
    requires forall d :: 0 <= d < l.dim ==> acc[d] == runningSum[d] == 0.0 && runningMax[d] == None
    ensures Holds(RunningAt(e, l, lo, lo), acc, runningMax, runningSum, l.dim)
  {
  }

  /** One key: its score, then every component. */
  method OnlineKey(e: real -> real, l: Lane, lo: nat, j: nat, ghost keys: nat, acc: array<real>, runningMax: array<Option<real>>, runningSum: array<real>)
    requires LaneFits(l, keys) && lo <= j < keys
    requires acc.Length == runningMax.Length == runningSum.Length == l.dim && acc != runningSum
    requires Holds(RunningAt(e, l, lo, j), acc[..], runningMax[..], runningSum[..], l.dim)
    modifies acc, runningMax, runningSum
    ensures Holds(RunningAt(e, l, lo, j + 1), acc[..], runningMax[..], runningSum[..], l.dim)
  {
    var s := Score(l, j, keys);
    var row := j * l.stride + l.kvOff;
    assert row == KeyRow(l, j);
    RunningAbsorbs(e, l, lo, j);
    ghost var f := ValueRow(l, j);
    forall d | 0 <= d < l.dim ensures l.v[row + d] == f(d) {
      ValueIs(l, j, d);
    }
    Absorb(e, l.v, row, s, acc, runningMax, runningSum, RunningAt(e, l, lo, j), RunningAt(e, l, lo, j + 1), f);
  }

  // ---------------------------------------------------------------- the two-pass kernel, one lane

  function WeightOf(e: real -> real, s: int -> real, n: nat): int -> real
    requires n > 0 && IsPositive(Weighted(e, s, One(), RunMax(s, 0, n).value, 0, n))
  {
    j => SoftmaxWeight(e, s, 0, n, j)
  }

  /** Component `d` of the softmax-weighted average of the values of the keys 0, ..., n - 1. */
  function Attended(e: real -> real, l: Lane, n: nat): int -> real
    requires n > 0 && IsPositive(Weighted(e, Scores(l), One(), RunMax(Scores(l), 0, n).value, 0, n))
  {
    d => Averaged(WeightOf(e, Scores(l), n), Component(Values(l), d), 0, n)
  }

  method AllScores(l: Lane, n: nat) returns (scores: array<real>)
    requires LaneFits(l, n)
    ensures fresh(scores) && scores.Length == n && forall j :: 0 <= j < n ==> scores[j] == Scores(l)(j)
  {
    scores := new real[n](_ => 0.0);
    for j := 0 to n
      invariant forall i :: 0 <= i < j ==> scores[i] == Scores(l)(i)
    {
      var s := Score(l, j, n);
      scores[j] := s;
    }
  }

  method GreatestScore(scores: array<real>, ghost s: int -> real) returns (max: real)
    requires scores.Length > 0 && forall j :: 0 <= j < scores.Length ==> scores[j] == s(j)
    ensures Some(max) == RunMax(s, 0, scores.Length)
  {
    max := scores[0];
    assert RunMax(s, 0, 1) == Some(s(0));
    for j := 1 to scores.Length
      invariant Some(max) == RunMax(s, 0, j)
    {
      if scores[j] > max { max := scores[j]; }
    }
  }

  method ExpInPlace(e: real -> real, scores: array<real>, max: real, ghost s: int -> real) returns (sum: real)
    requires forall j :: 0 <= j < scores.Length ==> scores[j] == s(j)
    modifies scores
    ensures forall j :: 0 <= j < scores.Length ==> scores[j] == e(s(j) - max)
    ensures sum == Weighted(e, s, One(), max, 0, scores.Length)
  {
    sum := 0.0;
    for j := 0 to scores.Length
      invariant forall i :: 0 <= i < scores.Length ==> scores[i] == if i < j then e(s(i) - max) else s(i)
      invariant sum == Weighted(e, s, One(), max, 0, j)
    {
      scores[j] := e(scores[j] - max);
      sum := sum + scores[j];
    }
  }

  method DivideInPlace(scores: array<real>, sum: real)
    requires sum != 0.0
    modifies scores
    ensures forall j :: 0 <= j < scores.Length ==> scores[j] == old(scores[j]) / sum
  {
    for j := 0 to scores.Length
      invariant forall i :: 0 <= i < scores.Length ==> scores[i] == if i < j then old(scores[i]) / sum else old(scores[i])
    {
      scores[j] := scores[j] / sum;
    }
  }

  /** The scores of one lane, turned into softmax weights in place. */
  method SoftmaxInPlace(e: real -> real, scores: array<real>, ghost s: int -> real)
    requires IsExp(e) && scores.Length > 0 && forall j :: 0 <= j < scores.Length ==> scores[j] == s(j)
    modifies scores
    ensures IsPositive(Weighted(e, s, One(), RunMax(s, 0, scores.Length).value, 0, scores.Length))
    ensures forall j :: 0 <= j < scores.Length ==> scores[j] == WeightOf(e, s, scores.Length)(j)
  {
    var max := GreatestScore(scores, s);
    WeightsPositive(e, s, max, 0, scores.Length);
    var sum := ExpInPlace(e, scores, max, s);
    DivideInPlace(scores, sum);
    forall j | 0 <= j < scores.Length ensures scores[j] == WeightOf(e, s, scores.Length)(j) {
      WeightIs(e, s, scores.Length, j, max, sum, scores[j]);
    }
  }

  lemma WeightIs(e: real -> real, s: int -> real, n: nat, j: int, max: real, sum: real, x: real)
    requires n > 0 && RunMax(s, 0, n) == Some(max) && sum == Weighted(e, s, One(), max, 0, n) && IsPositive(sum)
    requires x == e(s(j) - max) / sum
    ensures x == WeightOf(e, s, n)(j)
  {
  }

  /** acc = sum over keys of weight times value component `d`. */
  method WeightedComponent(l: Lane, scores: array<real>, d: nat, ghost w: int -> real) returns (acc: real)
    requires LaneFits(l, scores.Length) && d < l.dim && forall j :: 0 <= j < scores.Length ==> scores[j] == w(j)
    ensures acc == Averaged(w, Component(Values(l), d), 0, scores.Length)
  {
    acc := 0.0;
    for j := 0 to scores.Length
      invariant acc == Averaged(w, Component(Values(l), d), 0, j)
    {
      var row := j * l.stride + l.kvOff;
      assert row == KeyRow(l, j);
      ComponentIs(l, j, d);
      var x, y := scores[j], l.v[row + d];
      AveragedStep(w, Component(Values(l), d), j, x, y);
      acc := acc + x * y;
    }
  }

  lemma ComponentIs(l: Lane, j: int, d: int)
    ensures Component(Values(l), d)(j) == At(l.v, KeyRow(l, j) + d)
  {
    var g := Values(l);
    assert g(j, d) == At(l.v, KeyRow(l, j) + d);
  }

  lemma AveragedStep(w: int -> real, f: int -> real, j: nat, x: real, y: real)
    requires x == w(j) && y == f(j)
    ensures Averaged(w, f, 0, j + 1) == Averaged(w, f, 0, j) + x * y
  {
  }

  method WeightedRow(l: Lane, scores: array<real>, ghost w: int -> real) returns (out: seq<real>)
    requires LaneFits(l, scores.Length) && forall j :: 0 <= j < scores.Length ==> scores[j] == w(j)
    ensures |out| == l.dim && forall d :: 0 <= d < l.dim ==> out[d] == Averaged(w, Component(Values(l), d), 0, scores.Length)
  {
    out := [];
    for d := 0 to l.dim
      invariant |out| == d && forall c :: 0 <= c < d ==> out[c] == Averaged(w, Component(Values(l), c), 0, scores.Length)
    {
      var acc := WeightedComponent(l, scores, d, w);
      out := out + [acc];
    }
  }

  /** The body of the two-pass kernel for one (head, query) pair. */
  method TwoPassLane(e: real -> real, l: Lane, n: nat) returns (out: seq<real>)
    requires IsExp(e) && LaneFits(l, n) && n > 0
    ensures IsPositive(Weighted(e, Scores(l), One(), RunMax(Scores(l), 0, n).value, 0, n))
    ensures |out| == l.dim && forall d :: 0 <= d < l.dim ==> out[d] == Attended(e, l, n)(d)
  {
    var scores := AllScores(l, n);
    SoftmaxInPlace(e, scores, Scores(l));
    out := WeightedRow(l, scores, WeightOf(e, Scores(l), n));
  }

  /** Main theorem: one pass then normalise is the two-pass kernel, lane by lane; so is merging
      any pieces of the key range first. */
  lemma OnePassIsTwoPass(e: real -> real, l: Lane, n: nat, cuts: seq<nat>, d: nat)
    requires IsExp(e) && n > 0 && d < l.dim
    requires Ascending(cuts) && |cuts| > 0 && cuts[0] == 0 && cuts[|cuts| - 1] == n
    ensures IsPositive(Weighted(e, Scores(l), One(), RunMax(Scores(l), 0, n).value, 0, n))
    ensures Finalized(MergeAll(e, Pieces(e, Scores(l), Values(l), l.dim, cuts), l.dim))[d] == Attended(e, l, n)(d)
  {
    MergeAllOfPieces(e, Scores(l), Values(l), l.dim, cuts);
    OnlineIsSoftmax(e, Scores(l), Values(l), l.dim, 0, n, d);
    SameWeights(e, l, n, d, j => SoftmaxWeight(e, Scores(l), 0, n, j));
  }

  lemma {:induction false} AveragedExt(v: int -> real, w: int -> real, f: int -> real, n: nat)
    requires forall j :: v(j) == w(j)
    ensures Averaged(v, f, 0, n) == Averaged(w, f, 0, n)
  {
    if n > 0 { AveragedExt(v, w, f, n - 1); }
  }

  lemma SameWeights(e: real -> real, l: Lane, n: nat, d: nat, w: int -> real)
    requires IsExp(e) && n > 0 && IsPositive(Weighted(e, Scores(l), One(), RunMax(Scores(l), 0, n).value, 0, n))
    requires forall j :: w(j) == SoftmaxWeight(e, Scores(l), 0, n, j)
    ensures Averaged(w, Component(Values(l), d), 0, n) == Attended(e, l, n)(d)
  {
    AveragedExt(w, WeightOf(e, Scores(l), n), Component(Values(l), d), n);
  }
}
