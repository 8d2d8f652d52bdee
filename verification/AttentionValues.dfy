/** What the attention kernels compute, in the buffers' own indices: the softmax average of the values,
    with scaled inner products as scores, and nothing about maxima. */
module AttentionValues {
  import opened Sums
  import opened Grids
  import opened Places
  import opened Tensors
  import opened OnlineSoftmax
  import opened Attention
  import opened AttentionKernels

  /** The query row of head `h` at position `qt`. */
  function QueryAt(x: Heads, h: nat, qt: nat): int -> real {
    c => At(x.q, qt * (x.heads * x.dim) + h * x.dim + c)
  }

  /** Key row `j` of key head `kvh`. */
  function KeyAt(x: Heads, kvh: nat, j: int): int -> real {
    c => At(x.k, j * (x.kvHeads * x.dim) + kvh * x.dim + c)
  }

  function ScoreAt(x: Heads, h: nat, kvh: nat, qt: nat, j: int): real {
    x.scale * Pairs(x.dim, QueryAt(x, h, qt), KeyAt(x, kvh, j))
  }

  function ValueAt(x: Heads, kvh: nat, j: int, d: int): real {
    At(x.v, j * (x.kvHeads * x.dim) + kvh * x.dim + d)
  }

  /** Sum of exp(score) over the keys lo, ..., lo + n - 1. */
  function MassOf(e: real -> real, x: Heads, h: nat, kvh: nat, qt: nat, lo: nat, n: nat): real {
    Sum(n, i => e(ScoreAt(x, h, kvh, qt, lo + i)))
  }

  /** Sum of exp(score) times value component `d` over the same keys. */
  function MomentOf(e: real -> real, x: Heads, h: nat, kvh: nat, qt: nat, lo: nat, n: nat, d: int): real {
    Sum(n, i => e(ScoreAt(x, h, kvh, qt, lo + i)) * ValueAt(x, kvh, lo + i, d))
  }

  lemma ScoresAre(x: Heads, h: nat, kvh: nat, qt: nat, j: int)
    ensures Scores(LaneOf(x, h, kvh, qt))(j) == ScoreAt(x, h, kvh, qt, j)
  {
    var l := LaneOf(x, h, kvh, qt);
    var dot := DotFrom(l.q, l.qOff, l.k, KeyRow(l, j), l.dim);
    var u, v := (c: int) => At(l.q, l.qOff + c), (c: int) => At(l.k, KeyRow(l, j) + c);
    SumExt(x.dim, d => At(l.q, l.qOff + d) * At(l.k, KeyRow(l, j) + d), c => u(c) * v(c));
    PairsExt(x.dim, u, v, QueryAt(x, h, qt), KeyAt(x, kvh, j));
    Commutes(dot, x.scale);
  }

  // ---------------------------------------------------------------- weighted sums, at maximum 0

  ghost predicate TermIs(e: real -> real, s: real, f: real, g: real) {
    g == e(s) * f
  }

  lemma {:induction false} WeightedIsSum(e: real -> real, s: int -> real, f: int -> real, lo: nat, n: nat, g: int -> real)
    requires forall i {:trigger g(i)} :: 0 <= i < n ==> TermIs(e, s(lo + i), f(lo + i), g(i))
    ensures Weighted(e, s, f, 0.0, lo, lo + n) == Sum(n, g)
  {
    if n > 0 {
      WeightedIsSum(e, s, f, lo, n - 1, g);
      LastTerm(e, s, f, lo + n - 1, g(n - 1));
    }
  }

  lemma LastTerm(e: real -> real, s: int -> real, f: int -> real, j: int, g: real)
    requires TermIs(e, s(j), f(j), g)
    ensures e(s(j) - 0.0) * f(j) == g
  {
    assert s(j) - 0.0 == s(j);
  }

  lemma MassIs(e: real -> real, x: Heads, h: nat, kvh: nat, qt: nat, lo: nat, n: nat)
    ensures Weighted(e, Scores(LaneOf(x, h, kvh, qt)), One(), 0.0, lo, lo + n) == MassOf(e, x, h, kvh, qt, lo, n)
  {
    var s, g := Scores(LaneOf(x, h, kvh, qt)), (i: int) => e(ScoreAt(x, h, kvh, qt, lo + i));
    forall i | 0 <= i < n ensures TermIs(e, s(lo + i), One()(lo + i), g(i)) {
      ScoresAre(x, h, kvh, qt, lo + i);
      TimesOne(e(s(lo + i)), One()(lo + i));
    }
    WeightedIsSum(e, s, One(), lo, n, g);
  }

  lemma TimesOne(a: real, b: real)
    requires b == 1.0
    ensures a * b == a
  {
  }

  lemma MomentIs(e: real -> real, x: Heads, h: nat, kvh: nat, qt: nat, lo: nat, n: nat, d: int)
    ensures Weighted(e, Scores(LaneOf(x, h, kvh, qt)), Component(Values(LaneOf(x, h, kvh, qt)), d), 0.0, lo, lo + n) == MomentOf(e, x, h, kvh, qt, lo, n, d)
  {
    var l := LaneOf(x, h, kvh, qt);
    var s, f, g := Scores(l), Component(Values(l), d), (i: int) => e(ScoreAt(x, h, kvh, qt, lo + i)) * ValueAt(x, kvh, lo + i, d);
    forall i | 0 <= i < n ensures TermIs(e, s(lo + i), f(lo + i), g(i)) {
      ScoresAre(x, h, kvh, qt, lo + i);
      ComponentIs(l, lo + i, d);
      SameProduct(e(s(lo + i)), f(lo + i), e(ScoreAt(x, h, kvh, qt, lo + i)), ValueAt(x, kvh, lo + i, d));
    }
    WeightedIsSum(e, s, f, lo, n, g);
  }

  // ---------------------------------------------------------------- one row

  /** `y` is the average: y * mass == moment. */
  predicate Balances(y: real, mass: real, moment: real) {
    y * mass == moment
  }

  /** The row averages the values of the keys lo, ..., lo + n - 1 with weights exp(score). */
  ghost predicate IsSoftmaxRow(e: real -> real, x: Heads, h: nat, kvh: nat, qt: nat, lo: nat, n: nat, row: seq<real>) {
    && |row| == x.dim && MassOf(e, x, h, kvh, qt, lo, n) > 0.0
    && forall d {:trigger row[d]} :: 0 <= d < x.dim ==> Balances(row[d], MassOf(e, x, h, kvh, qt, lo, n), MomentOf(e, x, h, kvh, qt, lo, n, d))
  }

  lemma MassPositive(e: real -> real, x: Heads, h: nat, kvh: nat, qt: nat, lo: nat, n: nat)
    requires IsExp(e) && n > 0
    ensures MassOf(e, x, h, kvh, qt, lo, n) > 0.0
  {
    MassIs(e, x, h, kvh, qt, lo, n);
    WeightsPositive(e, Scores(LaneOf(x, h, kvh, qt)), 0.0, lo, lo + n);
  }

  predicate TimesTo(a: real, c: real, a': real) {
    a' == a * c
  }

  lemma RescaledTo(e: real -> real, s: int -> real, f: int -> real, m: real, lo: nat, hi: nat, c: real)
    requires IsExp(e) && c == e(m - 0.0)
    ensures c > 0.0 && TimesTo(Weighted(e, s, f, m, lo, hi), c, Weighted(e, s, f, 0.0, lo, hi))
  {
    Rescaled(e, s, f, m, 0.0, lo, hi);
    assert Positive(e, m - 0.0);
  }

  lemma CommonFactor(y: real, a: real, b: real, c: real, a': real, b': real)
    requires c > 0.0 && TimesTo(a, c, a') && TimesTo(b, c, b')
    ensures Balances(y, a', b') <==> Balances(y, a, b)
  {
    assert y * (a * c) == (y * a) * c;
    if (y * a) * c == b * c { assert (y * a - b) * c == 0.0; }
  }

  /** A quotient of sums taken at any maximum is the quotient of the plain sums. */
  lemma AtAnyMaximum(e: real -> real, s: int -> real, f: int -> real, m: real, lo: nat, hi: nat, y: real)
    requires IsExp(e)
    ensures Balances(y, Weighted(e, s, One(), 0.0, lo, hi), Weighted(e, s, f, 0.0, lo, hi)) <==>
            Balances(y, Weighted(e, s, One(), m, lo, hi), Weighted(e, s, f, m, lo, hi))
  {
    var c := e(m - 0.0);
    RescaledTo(e, s, f, m, lo, hi, c);
    RescaledTo(e, s, One(), m, lo, hi, c);
    CommonFactor(y, Weighted(e, s, One(), m, lo, hi), Weighted(e, s, f, m, lo, hi), c,
                 Weighted(e, s, One(), 0.0, lo, hi), Weighted(e, s, f, 0.0, lo, hi));
  }

  lemma QuotientIff(y: real, q: real, a: real, b: real)
    requires b > 0.0 && q == a / b
    ensures y == q <==> Balances(y, b, a)
  {
    assert q * b == a;
    if y * b == a { assert (y - q) * b == 0.0; }
  }

  lemma AttendedIsQuotient(e: real -> real, l: Lane, n: nat, d: int, m: real, t: real) returns (q: real)
    requires n > 0 && RunMax(Scores(l), 0, n) == Some(m) && t == Weighted(e, Scores(l), One(), m, 0, n) && IsPositive(t)
    ensures q == Attended(e, l, n)(d) && t > 0.0 && q == Weighted(e, Scores(l), Component(Values(l), d), m, 0, n) / t
  {
    var s := Scores(l);
    var w := WeightOf(e, s, n);
    forall j ensures w(j) == e(s(j) - m) / t { WeightIs(e, s, n, j, m, t, e(s(j) - m) / t); }
    AveragedIsQuotient(e, s, Component(Values(l), d), w, m, t, 0, n);
    q := Attended(e, l, n)(d);
  }

  /** A component of the two-pass row. */
  lemma AttendedIff(e: real -> real, l: Lane, n: nat, d: int, y: real, m: real, t: real)
    requires IsExp(e) && n > 0 && RunMax(Scores(l), 0, n) == Some(m) && t == Weighted(e, Scores(l), One(), m, 0, n) && IsPositive(t)
    ensures y == Attended(e, l, n)(d) <==>
            Balances(y, Weighted(e, Scores(l), One(), 0.0, 0, n), Weighted(e, Scores(l), Component(Values(l), d), 0.0, 0, n))
  {
    var q := AttendedIsQuotient(e, l, n, d, m, t);
    QuotientIff(y, q, Weighted(e, Scores(l), Component(Values(l), d), m, 0, n), t);
    AtAnyMaximum(e, Scores(l), Component(Values(l), d), m, 0, n, y);
  }

  lemma AttendedAt(e: real -> real, x: Heads, n: nat, h: nat, kvh: nat, qt: nat, d: int, y: real)
    requires IsExp(e) && n > 0
    ensures var l := LaneOf(x, h, kvh, qt);
            && IsPositive(Weighted(e, Scores(l), One(), RunMax(Scores(l), 0, n).value, 0, n))
            && (y == Attended(e, l, n)(d) <==> Balances(y, MassOf(e, x, h, kvh, qt, 0, n), MomentOf(e, x, h, kvh, qt, 0, n, d)))
  {
    var l := LaneOf(x, h, kvh, qt);
    var m := RunMax(Scores(l), 0, n).value;
    WeightsPositive(e, Scores(l), m, 0, n);
    MassIs(e, x, h, kvh, qt, 0, n);
    MomentIs(e, x, h, kvh, qt, 0, n, d);
    AttendedIff(e, l, n, d, y, m, Weighted(e, Scores(l), One(), m, 0, n));
  }

  /** Main theorem, two passes. The row of (h, qt) is attended if and only if it is the softmax average
      over the keys 0, ..., n - 1 of key head h * kvHeads / heads. */
  lemma AttendedIsSoftmax(e: real -> real, x: Heads, n: nat, h: nat, qt: nat, row: seq<real>)
    requires IsExp(e) && n > 0 && h < x.heads
    ensures IsAttended(e, x, n, h, qt, row) <==> IsSoftmaxRow(e, x, h, h * x.kvHeads / x.heads, qt, 0, n, row)
  {
    var kvh := h * x.kvHeads / x.heads;
    assert KeyHead(x, h) == kvh;
    var l := LaneOf(x, h, kvh, qt);
    MassPositive(e, x, h, kvh, qt, 0, n);
    AttendedAt(e, x, n, h, kvh, qt, 0, 0.0);
    if |row| == x.dim {
      forall d | 0 <= d < x.dim
        ensures row[d] == Attended(e, l, n)(d) <==> Balances(row[d], MassOf(e, x, h, kvh, qt, 0, n), MomentOf(e, x, h, kvh, qt, 0, n, d))
      {
        AttendedAt(e, x, n, h, kvh, qt, d, row[d]);
      }
    }
  }

  /** Every cell of the two-pass kernel's output, in place. */
  lemma StrictCell(e: real -> real, x: Heads, n: nat, out: seq<real>, h: nat, qt: nat, d: nat)
    requires IsExp(e) && |out| == n * (x.heads * x.dim) && RowsDone(e, x, n, out, x.heads, 0) && h < x.heads && qt < n && d < x.dim
    ensures 0 <= qt * (x.heads * x.dim) + h * x.dim + d < |out|
    ensures var kvh := h * x.kvHeads / x.heads;
            && MassOf(e, x, h, kvh, qt, 0, n) > 0.0
            && Balances(out[qt * (x.heads * x.dim) + h * x.dim + d], MassOf(e, x, h, kvh, qt, 0, n), MomentOf(e, x, h, kvh, qt, 0, n, d))
  {
    var at := RowStart(x.heads, x.dim, h, qt);
    RowStartIs(x.heads, x.dim, n, h, qt);
    var row := RowFrom(out, x.dim, at);
    assert IsAttended(e, x, n, h, qt, row);
    AttendedIsSoftmax(e, x, n, h, qt, row);
    assert row[d] == out[at + d];
  }

  // ---------------------------------------------------------------- partial results

  lemma PartialSums(e: real -> real, s: int -> real, f: int -> real, lo: nat, hi: nat, m: real)
    requires IsExp(e) && lo < hi && RunMax(s, lo, hi) == Some(m)
    ensures TimesTo(Track(e, s, f, lo, hi), e(m), Weighted(e, s, f, 0.0, lo, hi))
  {
    TrackIsWeighted(e, s, f, lo, hi);
    RescaledTo(e, s, f, m, lo, hi, e(m - 0.0));
    assert m - 0.0 == m;
  }

  ghost predicate IsLargestScore(x: Heads, h: nat, kvh: nat, qt: nat, lo: nat, n: nat, m: real) {
    && (exists j {:trigger ScoreAt(x, h, kvh, qt, j)} :: lo <= j < lo + n && ScoreAt(x, h, kvh, qt, j) == m)
    && forall j {:trigger ScoreAt(x, h, kvh, qt, j)} :: lo <= j < lo + n ==> ScoreAt(x, h, kvh, qt, j) <= m
  }

  lemma MaximumIs(x: Heads, h: nat, kvh: nat, qt: nat, lo: nat, n: nat, m: real)
    requires n > 0 && RunMax(Scores(LaneOf(x, h, kvh, qt)), lo, lo + n) == Some(m)
    ensures IsLargestScore(x, h, kvh, qt, lo, n, m)
  {
    var s := Scores(LaneOf(x, h, kvh, qt));
    RunMaxIsMax(s, lo, lo + n);
    forall j | lo <= j < lo + n ensures ScoreAt(x, h, kvh, qt, j) == s(j) { ScoresAre(x, h, kvh, qt, j); }
    var j :| lo <= j < lo + n && s(j) == m;
    assert ScoreAt(x, h, kvh, qt, j) == m;
  }

  /** A partial result over the keys lo, ..., lo + n - 1: the largest score M, and the mass and the moments
      divided by exp(M). */
  ghost predicate IsPartialOf(e: real -> real, x: Heads, h: nat, kvh: nat, qt: nat, lo: nat, n: nat, p: Partial) {
    && |p.acc| == x.dim
    && if n == 0 then p.max == None && p.sum == 0.0 && forall d :: 0 <= d < x.dim ==> p.acc[d] == 0.0
       else
         && p.max.Some?
         && IsLargestScore(x, h, kvh, qt, lo, n, p.max.value)
         && TimesTo(p.sum, e(p.max.value), MassOf(e, x, h, kvh, qt, lo, n))
         && forall d {:trigger p.acc[d]} :: 0 <= d < x.dim ==> TimesTo(p.acc[d], e(p.max.value), MomentOf(e, x, h, kvh, qt, lo, n, d))
  }

  lemma ComponentSum(e: real -> real, x: Heads, h: nat, kvh: nat, qt: nat, lo: nat, n: nat, m: real, d: int)
    requires IsExp(e) && n > 0 && RunMax(Scores(LaneOf(x, h, kvh, qt)), lo, lo + n) == Some(m)
    ensures var l := LaneOf(x, h, kvh, qt);
            TimesTo(Track(e, Scores(l), Component(Values(l), d), lo, lo + n), e(m), MomentOf(e, x, h, kvh, qt, lo, n, d))
  {
    var l := LaneOf(x, h, kvh, qt);
    PartialSums(e, Scores(l), Component(Values(l), d), lo, lo + n, m);
    MomentIs(e, x, h, kvh, qt, lo, n, d);
  }

  lemma OnlineIsPartial(e: real -> real, x: Heads, h: nat, kvh: nat, qt: nat, lo: nat, n: nat)
    requires IsExp(e)
    ensures var l := LaneOf(x, h, kvh, qt); IsPartialOf(e, x, h, kvh, qt, lo, n, Online(e, Scores(l), Values(l), x.dim, lo, lo + n))
  {
    var l := LaneOf(x, h, kvh, qt);
    var p := Online(e, Scores(l), Values(l), x.dim, lo, lo + n);
    if n > 0 {
      var m := RunMax(Scores(l), lo, lo + n).value;
      MaximumIs(x, h, kvh, qt, lo, n, m);
      PartialSums(e, Scores(l), One(), lo, lo + n, m);
      MassIs(e, x, h, kvh, qt, lo, n);
      forall d | 0 <= d < x.dim ensures TimesTo(p.acc[d], e(m), MomentOf(e, x, h, kvh, qt, lo, n, d)) {
        ComponentSum(e, x, h, kvh, qt, lo, n, m, d);
      }
    }
  }

  /** The keys of a call that lie below the causal bound: the first one and how many. */
  function RangeOf(keys: nat, offset: nat, jStart: nat, jEnd: nat, qt: nat): (r: (nat, nat)) {
    var hi := Least(offset + qt + 1, keys);
    var lo, end := Least(jStart, hi), Least(jEnd, hi);
    (lo, if lo < end then end - lo else 0)
  }

  lemma ExpectedIsPartial(e: real -> real, x: Heads, keys: nat, offset: nat, jStart: nat, jEnd: nat, h: nat, qt: nat)
    requires IsExp(e) && x.kvHeads > 0
    ensures var (lo, n) := RangeOf(keys, offset, jStart, jEnd, qt);
            IsPartialOf(e, x, h, GroupOf(x, h), qt, lo, n, Expected(e, x, keys, offset, jStart, jEnd, h, qt))
  {
    var (lo, n) := RangeOf(keys, offset, jStart, jEnd, qt);
    OnlineIsPartial(e, x, h, GroupOf(x, h), qt, lo, n);
  }

  lemma ResultAt(e: real -> real, x: Heads, queries: nat, keys: nat, offset: nat, jStart: nat, jEnd: nat, h: nat, qt: nat) returns (at: nat)
    requires x.kvHeads > 0 && h < x.heads && qt < queries
    ensures at == h * queries + qt
    ensures var results := Pushed(ExpectedAt(e, x, keys, offset, jStart, jEnd), queries, x.heads, 0);
            at < |results| && results[at] == Expected(e, x, keys, offset, jStart, jEnd, h, qt)
  {
    PushedAt(ExpectedAt(e, x, keys, offset, jStart, jEnd), queries, x.heads, 0, h, qt);
    at := h * queries + qt;
  }

  /** Main theorem, one pass. Result h * queries + qt of a call over the keys jStart..jEnd is the partial
      result of head `h`, query `qt` and key head h / (heads / kvHeads), over the keys of the range that
      lie below the causal bound offset + qt + 1. */
  lemma PartialCell(e: real -> real, x: Heads, queries: nat, keys: nat, offset: nat, jStart: nat, jEnd: nat, results: seq<Partial>, h: nat, qt: nat, at: nat)
    requires IsExp(e) && x.kvHeads > 0 && x.heads % x.kvHeads == 0 && h < x.heads && qt < queries && at == h * queries + qt
    requires results == Pushed(ExpectedAt(e, x, keys, offset, jStart, jEnd), queries, x.heads, 0)
    ensures x.heads / x.kvHeads > 0 && at < |results|
    ensures var hi := Least(offset + qt + 1, keys);
            var (lo, end) := (Least(jStart, hi), Least(jEnd, hi));
            IsPartialOf(e, x, h, h / (x.heads / x.kvHeads), qt, lo, if lo < end then end - lo else 0, results[at])
  {
    GroupsAgree(x.heads, x.kvHeads, h);
    var i := ResultAt(e, x, queries, keys, offset, jStart, jEnd, h, qt);
    ExpectedIsPartial(e, x, keys, offset, jStart, jEnd, h, qt);
  }

  /** Main theorem, split execution: merged and normalised, the pieces give the softmax average over the
      keys below the causal bound. */
  lemma SplitRowIsSoftmax(e: real -> real, x: Heads, n: nat, offset: nat, cuts: seq<nat>, h: nat, qt: nat)
    requires IsExp(e) && x.kvHeads > 0 && x.heads % x.kvHeads == 0 && h < x.heads && n > 0
    requires Ascending(cuts) && |cuts| > 0 && cuts[0] == 0 && cuts[|cuts| - 1] >= Least(offset + qt + 1, n)
    ensures IsSoftmaxRow(e, x, h, h * x.kvHeads / x.heads, qt, 0, Least(offset + qt + 1, n),
                         Finalized(MergeAll(e, ExpectedPieces(e, x, n, offset, cuts, h, qt), x.dim)))
  {
    SplitAttentionIsAttention(e, x, n, offset, cuts, h, qt);
    AttendedIsSoftmax(e, x, Least(offset + qt + 1, n), h, qt, Finalized(MergeAll(e, ExpectedPieces(e, x, n, offset, cuts, h, qt), x.dim)));
  }

  // ---------------------------------------------------------------- the scale and the queries

  function Unscaled(x: Heads): Heads {
    x.(q := ScaleSeq(x.scale, x.q), scale := 1.0)
  }

  lemma ScaledQuery(s: real, q: seq<real>, i: int)
    ensures ScaledBy(s, At(q, i), At(ScaleSeq(s, q), i))
  {
    if !(0 <= i < |q|) { assert s * 0.0 == 0.0; }
  }

  lemma OneTimes(s: real, a: real, b: real)
    requires ScaledBy(s, a, b)
    ensures 1.0 * b == s * a
  {
  }

  /** Scaling the scores is scaling the queries. */
  lemma ScaleMovesToQueries(x: Heads, h: nat, kvh: nat, qt: nat, j: int)
    ensures ScoreAt(Unscaled(x), h, kvh, qt, j) == ScoreAt(x, h, kvh, qt, j)
  {
    var y := Unscaled(x);
    forall c | 0 <= c < x.dim ensures ScaledBy(x.scale, QueryAt(x, h, qt)(c), QueryAt(y, h, qt)(c)) {
      ScaledQuery(x.scale, x.q, qt * (x.heads * x.dim) + h * x.dim + c);
    }
    SameKeys(x, kvh, j);
    ScaledPairs(x.scale, x.dim, QueryAt(x, h, qt), QueryAt(y, h, qt), KeyAt(x, kvh, j), KeyAt(y, kvh, j));
  }

  lemma SameKeys(x: Heads, kvh: nat, j: int)
    ensures forall c :: KeyAt(Unscaled(x), kvh, j)(c) == KeyAt(x, kvh, j)(c)
  {
  }

  lemma ScaledPairs(s: real, n: nat, u: int -> real, u': int -> real, k: int -> real, k': int -> real)
    requires forall c {:trigger u'(c)} :: 0 <= c < n ==> ScaledBy(s, u(c), u'(c))
    requires forall c :: k'(c) == k(c)
    ensures 1.0 * Pairs(n, u', k') == s * Pairs(n, u, k)
  {
    PairsExt(n, u', k', u', k);
    PairsScale(n, s, u, u', k);
    OneTimes(s, Pairs(n, u, k), Pairs(n, u', k));
  }

  /** The two-pass kernel: the rows for scale s are the rows for scale 1 and queries multiplied by s. */
  lemma ScaledTwoPass(e: real -> real, x: Heads, n: nat, h: nat, qt: nat, row: seq<real>)
    requires IsExp(e) && n > 0 && h < x.heads
    ensures IsAttended(e, Unscaled(x), n, h, qt, row) <==> IsAttended(e, x, n, h, qt, row)
  {
    var kvh := h * x.kvHeads / x.heads;
    AttendedIsSoftmax(e, x, n, h, qt, row);
    AttendedIsSoftmax(e, Unscaled(x), n, h, qt, row);
    SameMass(e, x, h, kvh, qt, 0, n);
    forall d | 0 <= d < x.dim ensures MomentOf(e, Unscaled(x), h, kvh, qt, 0, n, d) == MomentOf(e, x, h, kvh, qt, 0, n, d) {
      SameMoment(e, x, h, kvh, qt, 0, n, d);
    }
  }

  lemma SameMass(e: real -> real, x: Heads, h: nat, kvh: nat, qt: nat, lo: nat, n: nat)
    ensures MassOf(e, Unscaled(x), h, kvh, qt, lo, n) == MassOf(e, x, h, kvh, qt, lo, n)
  {
    var f, g := (i: int) => e(ScoreAt(Unscaled(x), h, kvh, qt, lo + i)), (i: int) => e(ScoreAt(x, h, kvh, qt, lo + i));
    forall i | 0 <= i < n ensures f(i) == g(i) { ScaleMovesToQueries(x, h, kvh, qt, lo + i); }
    SumExt(n, f, g);
  }

  lemma SameMoment(e: real -> real, x: Heads, h: nat, kvh: nat, qt: nat, lo: nat, n: nat, d: int)
    ensures MomentOf(e, Unscaled(x), h, kvh, qt, lo, n, d) == MomentOf(e, x, h, kvh, qt, lo, n, d)
  {
    var y := Unscaled(x);
    var f, g := (i: int) => e(ScoreAt(y, h, kvh, qt, lo + i)) * ValueAt(y, kvh, lo + i, d), (i: int) => e(ScoreAt(x, h, kvh, qt, lo + i)) * ValueAt(x, kvh, lo + i, d);
    forall i | 0 <= i < n ensures f(i) == g(i) {
      ScaleMovesToQueries(x, h, kvh, qt, lo + i);
      SameProduct(e(ScoreAt(y, h, kvh, qt, lo + i)), ValueAt(y, kvh, lo + i, d), e(ScoreAt(x, h, kvh, qt, lo + i)), ValueAt(x, kvh, lo + i, d));
    }
    SumExt(n, f, g);
  }

  lemma {:induction false} MaximumExt(s: int -> real, r: int -> real, lo: nat, hi: nat)
    requires forall j :: lo <= j < hi ==> s(j) == r(j)
    ensures RunMax(s, lo, hi) == RunMax(r, lo, hi)
  {
    if lo < hi { MaximumExt(s, r, lo, hi - 1); }
  }

  lemma GrowsOnce(e: real -> real, max: Option<real>, m: real, s: real, before: real, after: real, other: real, x: real)
    requires Grows(e, max, m, s, before, after, x) && Grows(e, max, m, s, before, other, x)
    ensures after == other
  {
  }

  /** Keys `lo`, ..., `lo + n - 1`: the sums of a recurrence depend only on their scores and values. */
  lemma {:induction false} TrackExt(e: real -> real, s: int -> real, r: int -> real, f: int -> real, g: int -> real, lo: nat, n: nat)
    requires forall j :: lo <= j < lo + n ==> s(j) == r(j) && f(j) == g(j)
    ensures Track(e, s, f, lo, lo + n) == Track(e, r, g, lo, lo + n)
  {
    if n == 0 {
      assert Track(e, s, f, lo, lo) == 0.0 == Track(e, r, g, lo, lo);
    } else {
      TrackExt(e, s, r, f, g, lo, n - 1);
      OneMoreKey(e, s, r, f, g, lo, lo + (n - 1));
    }
  }

  lemma OneMoreKey(e: real -> real, s: int -> real, r: int -> real, f: int -> real, g: int -> real, lo: nat, j: nat)
    requires lo <= j && (forall i :: lo <= i <= j ==> s(i) == r(i) && f(i) == g(i)) && Track(e, s, f, lo, j) == Track(e, r, g, lo, j)
    ensures Track(e, s, f, lo, j + 1) == Track(e, r, g, lo, j + 1)
  {
    MaximumExt(s, r, lo, j);
    TrackStep(e, s, f, lo, j);
    TrackStep(e, r, g, lo, j);
    GrowsOnce(e, RunMax(s, lo, j), Raise(RunMax(s, lo, j), s(j)), s(j), Track(e, s, f, lo, j), Track(e, s, f, lo, j + 1), Track(e, r, g, lo, j + 1), f(j));
  }

  /** The one-pass kernel: the same partial results. */
  lemma ScaledOnePass(e: real -> real, x: Heads, keys: nat, offset: nat, jStart: nat, jEnd: nat, h: nat, qt: nat)
    requires x.kvHeads > 0
    ensures Expected(e, Unscaled(x), keys, offset, jStart, jEnd, h, qt) == Expected(e, x, keys, offset, jStart, jEnd, h, qt)
  {
    var kvh := GroupOf(x, h);
    var (lo, n) := RangeOf(keys, offset, jStart, jEnd, qt);
    var l, l' := LaneOf(x, h, kvh, qt), LaneOf(Unscaled(x), h, kvh, qt);
    var s, s' := Scores(l), Scores(l');
    forall j | lo <= j < lo + n ensures s(j) == s'(j) {
      ScoresAre(x, h, kvh, qt, j);
      ScoresAre(Unscaled(x), h, kvh, qt, j);
      ScaleMovesToQueries(x, h, kvh, qt, j);
    }
    SameOnline(e, s, s', Values(l), Values(l'), x.dim, lo, n);
  }

  lemma SameOnline(e: real -> real, s: int -> real, s': int -> real, v: (int, int) -> real, v': (int, int) -> real, dim: nat, lo: nat, n: nat)
    requires (forall j :: lo <= j < lo + n ==> s(j) == s'(j)) && forall j, d :: v(j, d) == v'(j, d)
    ensures Online(e, s', v', dim, lo, lo + n) == Online(e, s, v, dim, lo, lo + n)
  {
    MaximumExt(s, s', lo, lo + n);
    TrackExt(e, s, s', One(), One(), lo, n);
    var p, q := Online(e, s, v, dim, lo, lo + n), Online(e, s', v', dim, lo, lo + n);
    forall d | 0 <= d < dim ensures p.acc[d] == q.acc[d] {
      TrackExt(e, s, s', Component(v, d), Component(v', d), lo, n);
    }
  }

  /** With scale 1 and a query row that is 1 in component `c` and 0 elsewhere, each key is scored by its
      component `c` in the key head's own columns. */
  lemma OneHotScores(x: Heads, h: nat, kvh: nat, qt: nat, c: nat, j: int)
    requires x.scale == 1.0 && c < x.dim
    requires forall b {:trigger QueryAt(x, h, qt)(b)} :: 0 <= b < x.dim ==> QueryAt(x, h, qt)(b) == if b == c then 1.0 else 0.0
    ensures ScoreAt(x, h, kvh, qt, j) == At(x.k, j * (x.kvHeads * x.dim) + kvh * x.dim + c)
  {
    PickOne(x.dim, QueryAt(x, h, qt), KeyAt(x, kvh, j), c);
    assert KeyAt(x, kvh, j)(c) == At(x.k, j * (x.kvHeads * x.dim) + kvh * x.dim + c);
  }

  lemma PickOne(n: nat, u: int -> real, v: int -> real, c: nat)
    requires c < n && forall b :: 0 <= b < n ==> u(b) == if b == c then 1.0 else 0.0
    ensures 1.0 * Pairs(n, u, v) == v(c)
  {
    SumSingle(n, l => u(l) * v(l), c);
    SumExt(n, l => u(l) * v(l), l => u(l) * v(l));
  }
}
