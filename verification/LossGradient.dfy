/** The cross-entropy gradients are the gradients of the cross-entropy losses: the loss lies above its
    tangent everywhere, and the gradient that is returned is the slope of that tangent. */
module LossGradient {
  import opened Sums
  import opened Grids
  import opened Tensors
  import opened MatMulKernel
  import opened LoraKernel
  import opened OnlineSoftmax
  import opened CrossEntropy

  /** The exponential lies above its tangent at 0. */
  ghost predicate AboveTangent(e: real -> real) {
    forall a {:trigger TangentAt(e, a)} :: TangentAt(e, a)
  }

  predicate TangentAt(e: real -> real, a: real) {
    e(a) >= 1.0 + a
  }

  ghost predicate Increasing(ln: real -> real) {
    forall x, y {:trigger ln(x), ln(y)} :: 0.0 < x <= y ==> ln(x) <= ln(y)
  }

  /** The laws of the natural exponential and logarithm that are used. */
  ghost predicate Natural(e: real -> real, ln: real -> real) {
    IsExp(e) && AboveTangent(e) && IsLog(e, ln) && Increasing(ln)
  }

  // ---------------------------------------------------------------- sums of exponentials

  function Exps(e: real -> real, s: int -> real): int -> real {
    v => e(s(v))
  }

  /** Sum of exp(s_v). */
  function Total(e: real -> real, s: int -> real, n: nat): real {
    Sum(n, Exps(e, s))
  }

  lemma {:induction false} TotalIs(e: real -> real, s: int -> real, n: nat)
    ensures Weighted(e, s, One(), 0.0, 0, n) == Total(e, s, n)
  {
    if n > 0 {
      TotalIs(e, s, n - 1);
      assert s(n - 1) - 0.0 == s(n - 1);
      assert e(s(n - 1)) * One()(n - 1) == e(s(n - 1));
    }
  }

  lemma TotalPositive(e: real -> real, s: int -> real, n: nat)
    requires IsExp(e) && n > 0
    ensures Total(e, s, n) > 0.0
  {
    WeightsPositive(e, s, 0.0, 0, n);
    TotalIs(e, s, n);
  }

  lemma {:induction false} SumLe(n: nat, f: int -> real, g: int -> real)
    requires forall i :: 0 <= i < n ==> f(i) <= g(i)
    ensures Sum(n, f) <= Sum(n, g)
  {
    if n > 0 { SumLe(n - 1, f, g); }
  }

  /** exp(s + u) >= exp(c) exp(s) (1 + u - c). */
  lemma TermAbove(e: real -> real, s: real, u: real, c: real, s': real)
    requires IsExp(e) && AboveTangent(e) && s' == s + u
    ensures e(s') >= e(c) * (e(s) * (1.0 - c) + e(s) * u)
  {
    assert Adds(e, s, u) && Adds(e, c, u - c) && c + (u - c) == u;
    assert TangentAt(e, u - c) && Positive(e, s) && Positive(e, c);
    var p, q, x, y := e(s), e(c), e(u - c), 1.0 + (u - c);
    ProductPositive(q, p);
    assert p * (q * x) == (q * p) * x;
    assert (q * p) * x >= (q * p) * y by { ProductNotNegative(q * p, x - y); }
    assert (q * p) * y == q * (p * (1.0 - c) + p * u);
  }

  /** The terms exp(s_v) u_v. */
  function Moves(e: real -> real, s: int -> real, u: int -> real): int -> real {
    v => e(s(v)) * u(v)
  }

  /** Softmax-weighted mean of `u`, without dividing: mean * total == sum of exp(s_v) u_v. */
  ghost predicate IsWeightedMean(e: real -> real, s: int -> real, u: int -> real, n: nat, mean: real) {
    ScaledBy(mean, Total(e, s, n), Sum(n, Moves(e, s, u)))
  }

  lemma SumScaled(n: nat, s: real, f: int -> real, h: int -> real)
    requires forall i {:trigger h(i)} :: 0 <= i < n ==> ScaledBy(s, f(i), h(i))
    ensures ScaledBy(s, Sum(n, f), Sum(n, h))
  {
    SumScale(n, s, f, h);
  }

  /** `h` is (1 - c) f + g. */
  ghost predicate BlendAt(c: real, f: real, g: real, h: real) {
    h == f * (1.0 - c) + g
  }

  lemma SumBlend(n: nat, c: real, f: int -> real, g: int -> real, h: int -> real)
    requires forall i {:trigger h(i)} :: 0 <= i < n ==> BlendAt(c, f(i), g(i), h(i))
    ensures BlendAt(c, Sum(n, f), Sum(n, g), Sum(n, h))
  {
    var k := 1.0 - c;
    var f' := (v: int) => k * f(v);
    forall v | 0 <= v < n ensures h(v) == f'(v) + g(v) {
      assert BlendAt(c, f(v), g(v), h(v));
      Commutes(k, f(v));
    }
    SumAdd(n, f', g, h);
    SumScale(n, k, f, f');
    Commutes(k, Sum(n, f));
  }

  lemma BlendOfTotals(c: real, z: real, w: real, total: real)
    requires ScaledBy(c, z, w) && BlendAt(c, z, w, total)
    ensures total == z
  {
  }

  /** The inequality of Jensen for exp, on the values f = exp(s), g = exp(s) u, low = exp(c) (f (1 - c) + g)
      and top = exp(s + u). */
  lemma JensenSums(n: nat, c: real, k: real, f: int -> real, g: int -> real, h: int -> real, low: int -> real, top: int -> real)
    requires forall v {:trigger h(v)} :: 0 <= v < n ==> BlendAt(c, f(v), g(v), h(v))
    requires forall v {:trigger low(v)} :: 0 <= v < n ==> ScaledBy(k, h(v), low(v)) && low(v) <= top(v)
    requires ScaledBy(c, Sum(n, f), Sum(n, g))
    ensures Sum(n, top) >= k * Sum(n, f)
  {
    SumBlend(n, c, f, g, h);
    BlendOfTotals(c, Sum(n, f), Sum(n, g), Sum(n, h));
    SumScaled(n, k, h, low);
    SumLe(n, low, top);
  }

  lemma TermFits(e: real -> real, s: real, u: real, c: real, s': real, f: real, g: real, h: real, low: real)
    requires IsExp(e) && AboveTangent(e) && s' == s + u && f == e(s) && g == e(s) * u && h == f * (1.0 - c) + g && low == e(c) * h
    ensures BlendAt(c, f, g, h) && ScaledBy(e(c), h, low) && low <= e(s')
  {
    TermAbove(e, s, u, c, s');
  }

  function Blends(e: real -> real, s: int -> real, u: int -> real, c: real): int -> real {
    v => e(s(v)) * (1.0 - c) + e(s(v)) * u(v)
  }

  function Lows(e: real -> real, s: int -> real, u: int -> real, c: real): int -> real {
    v => e(c) * Blends(e, s, u, c)(v)
  }

  lemma TermsAt(e: real -> real, s: int -> real, u: int -> real, s': int -> real, c: real, v: int)
    requires IsExp(e) && AboveTangent(e) && s'(v) == s(v) + u(v)
    ensures BlendAt(c, Exps(e, s)(v), Moves(e, s, u)(v), Blends(e, s, u, c)(v))
    ensures ScaledBy(e(c), Blends(e, s, u, c)(v), Lows(e, s, u, c)(v)) && Lows(e, s, u, c)(v) <= Exps(e, s')(v)
  {
    TermFits(e, s(v), u(v), c, s'(v), Exps(e, s)(v), Moves(e, s, u)(v), Blends(e, s, u, c)(v), Lows(e, s, u, c)(v));
  }

  lemma TermsFit(e: real -> real, s: int -> real, u: int -> real, s': int -> real, n: nat, c: real)
    requires IsExp(e) && AboveTangent(e) && (forall v :: 0 <= v < n ==> s'(v) == s(v) + u(v))
    ensures forall v {:trigger Blends(e, s, u, c)(v)} :: 0 <= v < n ==> BlendAt(c, Exps(e, s)(v), Moves(e, s, u)(v), Blends(e, s, u, c)(v))
    ensures forall v {:trigger Lows(e, s, u, c)(v)} :: 0 <= v < n ==>
              ScaledBy(e(c), Blends(e, s, u, c)(v), Lows(e, s, u, c)(v)) && Lows(e, s, u, c)(v) <= Exps(e, s')(v)
  {
    forall v | 0 <= v < n ensures BlendAt(c, Exps(e, s)(v), Moves(e, s, u)(v), Blends(e, s, u, c)(v)) {
      TermsAt(e, s, u, s', c, v);
    }
    forall v | 0 <= v < n ensures ScaledBy(e(c), Blends(e, s, u, c)(v), Lows(e, s, u, c)(v)) && Lows(e, s, u, c)(v) <= Exps(e, s')(v) {
      TermsAt(e, s, u, s', c, v);
    }
  }

  /** Moving the scores by `u` multiplies the total at least by the exponential of the mean move. */
  lemma TotalAbove(e: real -> real, s: int -> real, u: int -> real, s': int -> real, n: nat, c: real)
    requires IsExp(e) && AboveTangent(e) && (forall v :: 0 <= v < n ==> s'(v) == s(v) + u(v)) && IsWeightedMean(e, s, u, n, c)
    ensures Total(e, s', n) >= e(c) * Total(e, s, n)
  {
    TermsFit(e, s, u, s', n, c);
    JensenSums(n, c, e(c), Exps(e, s), Moves(e, s, u), Blends(e, s, u, c), Lows(e, s, u, c), Exps(e, s'));
  }

  // ---------------------------------------------------------------- one sample

  /** The loss of a sample: log of the sum of exp(logit), minus the target's logit. */
  lemma LossIs(e: real -> real, ln: real -> real, s: int -> real, vocab: nat, t: nat)
    requires IsExp(e) && IsLog(e, ln) && t < vocab
    ensures SampleLoss(e, ln, s, vocab, t) == ln(Total(e, s, vocab)) - s(t)
  {
    LossIsLogSumExp(e, ln, s, vocab, t);
    TotalIs(e, s, vocab);
  }

  function Probability(e: real -> real, s: int -> real, vocab: nat): int -> real {
    v => Ratio(e(s(v) - TopOf(s, vocab)), Mass(e, s, vocab))
  }

  /** The probability that the gradient is computed from is exp(s_v) over the sum, the maximum aside. */
  lemma ProbabilityIs(e: real -> real, s: int -> real, vocab: nat, v: int)
    requires IsExp(e) && vocab > 0
    ensures ScaledBy(Probability(e, s, vocab)(v), Total(e, s, vocab), e(s(v)))
  {
    var m := TopOf(s, vocab);
    var mass := Mass(e, s, vocab);
    WeightsPositive(e, s, m, 0, vocab);
    Rescaled(e, s, One(), m, 0.0, 0, vocab);
    TotalIs(e, s, vocab);
    Shift(e, s(v), m, 0.0);
    assert s(v) - 0.0 == s(v) && m - 0.0 == m;
    ProbabilityTimes(e(s(v) - m), mass, e(m), Ratio(e(s(v) - m), mass), Total(e, s, vocab), e(s(v)));
  }

  lemma ProbabilityTimes(x: real, mass: real, k: real, p: real, total: real, y: real)
    requires mass > 0.0 && p == x / mass && total == mass * k && y == x * k
    ensures ScaledBy(p, total, y)
  {
    assert p * mass == x;
    assert p * (mass * k) == (p * mass) * k;
  }

  lemma MoveIs(p: real, total: real, x: real, u: real, y: real, w: real)
    requires ScaledBy(p, total, x) && y == x * u && w == p * u
    ensures ScaledBy(total, w, y)
  {
    assert p * total * u == total * (p * u);
  }

  /** The mean of `u` under the probabilities is its softmax-weighted mean. */
  lemma MeanIs(e: real -> real, s: int -> real, u: int -> real, vocab: nat)
    requires IsExp(e) && vocab > 0
    ensures IsWeightedMean(e, s, u, vocab, Pairs(vocab, Probability(e, s, vocab), u))
  {
    var p := Probability(e, s, vocab);
    var f := (v: int) => p(v) * u(v);
    forall v | 0 <= v < vocab ensures ScaledBy(Total(e, s, vocab), f(v), Moves(e, s, u)(v)) {
      ProbabilityIs(e, s, vocab, v);
      MoveIs(p(v), Total(e, s, vocab), e(s(v)), u(v), Moves(e, s, u)(v), f(v));
    }
    SumScaled(vocab, Total(e, s, vocab), f, Moves(e, s, u));
    TurnAround(Total(e, s, vocab), Sum(vocab, f), Sum(vocab, Moves(e, s, u)));
    SumExt(vocab, f, l => p(l) * u(l));
  }

  lemma TurnAround(a: real, b: real, c: real)
    requires ScaledBy(a, b, c)
    ensures ScaledBy(b, a, c)
  {
  }

  /** The gradient row of a sample. */
  function GradRow(e: real -> real, s: int -> real, vocab: nat, t: nat, invB: real): int -> real {
    v => LogitGrad(e, s, vocab, t, invB, v)
  }

  lemma GradTermIs(p: real, i: real, k: real, u: real, w: real, d: real)
    requires w == p * u && d == i * u
    ensures (p - i) * k * u == k * (w - d)
  {
    assert (p - i) * k * u == k * ((p - i) * u);
    assert (p - i) * u == p * u - i * u;
  }

  function Timed(p: int -> real, u: int -> real): int -> real {
    v => p(v) * u(v)
  }

  /** The move of the target alone. */
  function Picked(t: int, u: int -> real): int -> real {
    v => Indicator(v, t) * u(v)
  }

  function Less(w: int -> real, d: int -> real): int -> real {
    v => w(v) - d(v)
  }

  lemma RowTermAt(e: real -> real, s: int -> real, u: int -> real, vocab: nat, t: nat, invB: real, v: int)
    ensures ScaledBy(invB, Less(Timed(Probability(e, s, vocab), u), Picked(t, u))(v), Timed(GradRow(e, s, vocab, t, invB), u)(v))
  {
    GradTermIs(Probability(e, s, vocab)(v), Indicator(v, t), invB, u(v), Timed(Probability(e, s, vocab), u)(v), Picked(t, u)(v));
  }

  lemma {:induction false} SumLess(n: nat, w: int -> real, d: int -> real)
    ensures Sum(n, Less(w, d)) == Sum(n, w) - Sum(n, d)
  {
    if n > 0 { SumLess(n - 1, w, d); }
  }

  lemma NothingTimes(x: real)
    ensures 0.0 * x == 0.0
  {
  }

  lemma SumPicked(n: nat, t: nat, u: int -> real)
    requires t < n
    ensures Sum(n, Picked(t, u)) == u(t)
  {
    forall v | 0 <= v < n && v != t ensures Picked(t, u)(v) == 0.0 { NothingTimes(u(v)); }
    SumSingle(n, Picked(t, u), t);
  }

  /** Pairing a gradient row with a move: the mean move minus the target's move, over the batch. */
  lemma RowPairing(e: real -> real, s: int -> real, u: int -> real, vocab: nat, t: nat, invB: real)
    requires t < vocab
    ensures ScaledBy(invB, Pairs(vocab, Probability(e, s, vocab), u) - u(t), Pairs(vocab, GradRow(e, s, vocab, t, invB), u))
  {
    var w, d, x := Timed(Probability(e, s, vocab), u), Picked(t, u), Timed(GradRow(e, s, vocab, t, invB), u);
    forall v | 0 <= v < vocab ensures ScaledBy(invB, Less(w, d)(v), x(v)) {
      RowTermAt(e, s, u, vocab, t, invB, v);
    }
    SumScaled(vocab, invB, Less(w, d), x);
    SumLess(vocab, w, d);
    SumPicked(vocab, t, u);
    TimedPairs(vocab, Probability(e, s, vocab), u);
    TimedPairs(vocab, GradRow(e, s, vocab, t, invB), u);
  }

  lemma TimedPairs(n: nat, p: int -> real, u: int -> real)
    ensures Sum(n, Timed(p, u)) == Pairs(n, p, u)
  {
    SumExt(n, Timed(p, u), l => p(l) * u(l));
  }

  /** A sample's loss lies above its tangent. */
  lemma SampleAbove(e: real -> real, ln: real -> real, s: int -> real, u: int -> real, s': int -> real, vocab: nat, t: nat)
    requires Natural(e, ln) && t < vocab && forall v :: 0 <= v < vocab ==> s'(v) == s(v) + u(v)
    ensures SampleLoss(e, ln, s', vocab, t) >= SampleLoss(e, ln, s, vocab, t) + (Pairs(vocab, Probability(e, s, vocab), u) - u(t))
  {
    var c := Pairs(vocab, Probability(e, s, vocab), u);
    MeanIs(e, s, u, vocab);
    TotalAbove(e, s, u, s', vocab, c);
    LossIs(e, ln, s, vocab, t);
    LossIs(e, ln, s', vocab, t);
    TotalPositive(e, s, vocab);
    LogAbove(e, ln, Total(e, s, vocab), c, Total(e, s', vocab));
  }

  lemma LogAbove(e: real -> real, ln: real -> real, z: real, c: real, z': real)
    requires Natural(e, ln) && z > 0.0 && z' >= e(c) * z
    ensures ln(z') >= ln(z) + c
  {
    assert LogShift(e, ln, z, c) && Positive(e, c);
    ProductPositive(z, e(c));
    assert ln(z * e(c)) <= ln(z');
  }

  // ---------------------------------------------------------------- a batch

  /** The gain of sample `b` along the move, before it is divided by the batch size. */
  function SlopeOf(e: real -> real, S: (int, int) -> real, U: (int, int) -> real, vocab: nat, targets: seq<nat>): int -> real {
    b => if 0 <= b < |targets| then Pairs(vocab, Probability(e, RowOf(S, b), vocab), RowOf(U, b)) - U(b, targets[b]) else 0.0
  }

  lemma RowSumIs(e: real -> real, S: (int, int) -> real, U: (int, int) -> real, vocab: nat, targets: seq<nat>, invB: real, b: nat)
    requires b < |targets| && targets[b] < vocab
    ensures ScaledBy(invB, SlopeOf(e, S, U, vocab, targets)(b), RowSum(vocab, Times(GradMatrix(e, S, vocab, targets, invB), U), b))
  {
    var g, u := GradRow(e, RowOf(S, b), vocab, targets[b], invB), RowOf(U, b);
    RowPairing(e, RowOf(S, b), u, vocab, targets[b], invB);
    assert u(targets[b]) == U(b, targets[b]);
    var G := Times(GradMatrix(e, S, vocab, targets, invB), U);
    forall v | 0 <= v < vocab ensures G(b, v) == Timed(g, u)(v) {
      SameProduct(GradMatrix(e, S, vocab, targets, invB)(b, v), U(b, v), g(v), u(v));
    }
    SumExt(vocab, v => G(b, v), Timed(g, u));
    TimedPairs(vocab, g, u);
  }

  lemma SlopesSum(e: real -> real, S: (int, int) -> real, U: (int, int) -> real, vocab: nat, targets: seq<nat>, invB: real)
    requires TargetsInRange(targets, vocab)
    ensures ScaledBy(invB, Sum(|targets|, SlopeOf(e, S, U, vocab, targets)),
                     Inner(|targets|, vocab, GradMatrix(e, S, vocab, targets, invB), U))
  {
    var G := Times(GradMatrix(e, S, vocab, targets, invB), U);
    var rows := (b: int) => RowSum(vocab, G, b);
    forall b | 0 <= b < |targets| ensures ScaledBy(invB, SlopeOf(e, S, U, vocab, targets)(b), rows(b)) {
      RowSumIs(e, S, U, vocab, targets, invB, b);
    }
    SumScaled(|targets|, invB, SlopeOf(e, S, U, vocab, targets), rows);
    SumExt(|targets|, rows, b => RowSum(vocab, G, b));
  }

  lemma LossesAbove(e: real -> real, ln: real -> real, S: (int, int) -> real, U: (int, int) -> real, S': (int, int) -> real, vocab: nat, targets: seq<nat>)
    requires Natural(e, ln) && TargetsInRange(targets, vocab)
    requires forall b, v :: 0 <= b < |targets| && 0 <= v < vocab ==> S'(b, v) == S(b, v) + U(b, v)
    ensures Sum(|targets|, Losses(e, ln, S', vocab, targets)) >=
            Sum(|targets|, Losses(e, ln, S, vocab, targets)) + Sum(|targets|, SlopeOf(e, S, U, vocab, targets))
  {
    var f, x := Losses(e, ln, S, vocab, targets), SlopeOf(e, S, U, vocab, targets);
    var h := (b: int) => f(b) + x(b);
    forall b | 0 <= b < |targets| ensures h(b) <= Losses(e, ln, S', vocab, targets)(b) {
      SampleAbove(e, ln, RowOf(S, b), RowOf(U, b), RowOf(S', b), vocab, targets[b]);
    }
    SumLe(|targets|, h, Losses(e, ln, S', vocab, targets));
    SumAdd(|targets|, f, x, h);
  }

  lemma MeanAbove(n: nat, total': real, total: real, slope: real, gain: real)
    requires n > 0 && total' >= total + slope && ScaledBy(1.0 / n as real, slope, gain)
    ensures total' / n as real >= total / n as real + gain
  {
    var k := 1.0 / n as real;
    assert k > 0.0;
    assert total' / n as real == k * total' && total / n as real == k * total;
    assert k * total' - k * total - k * slope == k * (total' - total - slope);
    ProductNotNegative(k, total' - total - slope);
  }

  /** Main theorem, logits. Whatever is added to the logits, the mean loss rises by at least the inner
      product of the returned gradient with it: the gradient is that of the (convex) mean loss. */
  lemma ReferenceAboveTangent(e: real -> real, ln: real -> real, batch: nat, vocab: nat, logits: seq<real>, u: seq<real>, targets: seq<nat>)
    requires Natural(e, ln) && |logits| == |u| == batch * vocab && ReferenceOf(e, ln, batch, vocab, logits, targets).Some?
    ensures var (was, now) := (ReferenceOf(e, ln, batch, vocab, logits, targets), ReferenceOf(e, ln, batch, vocab, AddSeq(logits, u), targets));
            now.Some? && |was.value.1| == batch * vocab && now.value.0 >= was.value.0 + Dot(was.value.1, u)
  {
    var S, U, S' := View(logits, vocab, 1), View(u, vocab, 1), View(AddSeq(logits, u), vocab, 1);
    forall b, v | 0 <= b < batch && 0 <= v < vocab ensures S'(b, v) == S(b, v) + U(b, v) {
      FlatIndex(batch, vocab, b, v);
      assert b * vocab + v * 1 == b * vocab + v;
    }
    LossesAbove(e, ln, S, U, S', vocab, targets);
    SlopesSum(e, S, U, vocab, targets, 1.0 / batch as real);
    GridPairing(batch, vocab, GradMatrix(e, S, vocab, targets, 1.0 / batch as real), u);
    MeanAbove(batch, Sum(batch, Losses(e, ln, S', vocab, targets)), Sum(batch, Losses(e, ln, S, vocab, targets)),
              Sum(batch, SlopeOf(e, S, U, vocab, targets)), Inner(batch, vocab, GradMatrix(e, S, vocab, targets, 1.0 / batch as real), U));
  }

  lemma ScaleByOne(u: seq<real>)
    ensures ScaleSeq(1.0, u) == u
  {
  }

  /** Moving the hidden states moves the logits linearly. */
  lemma LogitsMove(batch: nat, dim: nat, vocab: nat, h: seq<real>, u: seq<real>, w: seq<real>)
    requires |h| == |u| == batch * dim && |w| == vocab * dim
    ensures MatMulOf(false, true, batch, dim, vocab, AddSeq(h, u), w) ==
            AddSeq(MatMulOf(false, true, batch, dim, vocab, h, w), MatMulOf(false, true, batch, dim, vocab, u, w))
  {
    var d := LoraDims(batch, 0, dim, vocab);
    var x, y := MatMulOf(false, true, batch, dim, vocab, AddSeq(h, u), w), AddSeq(Up(d, h, w), Up(d, u, w));
    ScaleByOne(u);
    forall p | 0 <= p < batch * vocab ensures x[p] == y[p] {
      var c := UpAlongLine(d, h, u, w, 1.0, p);
      assert 1.0 * c == c;
    }
  }

  /** Main theorem, hidden states. Without storing the logits, the fused form returns the gradient of its
      mean loss in the hidden states. */
  lemma FusedAboveTangent(e: real -> real, ln: real -> real, batch: nat, dim: nat, vocab: nat, h: seq<real>, u: seq<real>, w: seq<real>, targets: seq<nat>)
    requires Natural(e, ln) && |h| == |u| == batch * dim && |w| == vocab * dim && FusedOf(e, ln, batch, dim, vocab, h, w, targets).Some?
    ensures var (was, now) := (FusedOf(e, ln, batch, dim, vocab, h, w, targets), FusedOf(e, ln, batch, dim, vocab, AddSeq(h, u), w, targets));
            now.Some? && |was.value.1| == batch * dim && now.value.0 >= was.value.0 + Dot(was.value.1, u)
  {
    var logits, move := MatMulOf(false, true, batch, dim, vocab, h, w), MatMulOf(false, true, batch, dim, vocab, u, w);
    FusedIsReference(e, ln, batch, dim, vocab, h, w, targets);
    FusedIsReference(e, ln, batch, dim, vocab, AddSeq(h, u), w, targets);
    LogitsMove(batch, dim, vocab, h, u, w);
    ReferenceAboveTangent(e, ln, batch, vocab, logits, move, targets);
    var g := ReferenceOf(e, ln, batch, vocab, logits, targets).value.1;
    assert vocab * dim == dim * vocab;
    LeftAdjoint(true, batch, dim, vocab, w, g, u);
    assert GradLeft(false, true, batch, dim, vocab, dim, w, g) == MatMulOf(false, false, batch, vocab, dim, g, w);
  }

  // ---------------------------------------------------------------- the value of the loss

  function LogitRow(logits: seq<real>, vocab: nat, b: int): int -> real {
    v => At(logits, b * vocab + v)
  }

  /** log of the sum of exp over row `b`, minus the target's logit. */
  function NegativeLogLikelihood(e: real -> real, ln: real -> real, vocab: nat, logits: seq<real>, targets: seq<nat>): int -> real {
    b => if 0 <= b < |targets| then ln(Total(e, LogitRow(logits, vocab, b), vocab)) - At(logits, b * vocab + targets[b]) else 0.0
  }

  lemma SampleIs(e: real -> real, ln: real -> real, vocab: nat, logits: seq<real>, targets: seq<nat>, b: nat)
    requires IsExp(e) && IsLog(e, ln) && b < |targets| && targets[b] < vocab
    ensures Losses(e, ln, View(logits, vocab, 1), vocab, targets)(b) == NegativeLogLikelihood(e, ln, vocab, logits, targets)(b)
  {
    var s, r := RowOf(View(logits, vocab, 1), b), LogitRow(logits, vocab, b);
    forall v ensures s(v) == r(v) {
      assert View(logits, vocab, 1)(b, v) == At(logits, b * vocab + v * 1);
    }
    LossIs(e, ln, s, vocab, targets[b]);
    SumExt(vocab, Exps(e, s), Exps(e, r));
    assert s(targets[b]) == r(targets[b]);
    assert Total(e, s, vocab) == Total(e, r, vocab);
  }

  lemma SumOfSamples(e: real -> real, ln: real -> real, vocab: nat, logits: seq<real>, targets: seq<nat>)
    requires IsExp(e) && IsLog(e, ln) && TargetsInRange(targets, vocab)
    ensures Sum(|targets|, Losses(e, ln, View(logits, vocab, 1), vocab, targets)) ==
            Sum(|targets|, NegativeLogLikelihood(e, ln, vocab, logits, targets))
  {
    var f := Losses(e, ln, View(logits, vocab, 1), vocab, targets);
    forall b | 0 <= b < |targets| ensures f(b) == NegativeLogLikelihood(e, ln, vocab, logits, targets)(b) {
      SampleIs(e, ln, vocab, logits, targets, b);
    }
    SumExt(|targets|, f, NegativeLogLikelihood(e, ln, vocab, logits, targets));
  }

  /** Both forms fail exactly on an empty batch, a wrong number of targets or a target outside the
      vocabulary. */
  lemma FailsExactly(e: real -> real, ln: real -> real, batch: nat, dim: nat, vocab: nat, h: seq<real>, w: seq<real>, logits: seq<real>, targets: seq<nat>)
    ensures var bad := batch == 0 || |targets| != batch || exists b :: 0 <= b < |targets| && targets[b] >= vocab;
            (ReferenceOf(e, ln, batch, vocab, logits, targets).None? <==> bad) && (FusedOf(e, ln, batch, dim, vocab, h, w, targets).None? <==> bad)
  {
  }

  /** The batch size times the loss is the sum of the negative log-likelihoods of the samples. */
  lemma LossIsMean(e: real -> real, ln: real -> real, batch: nat, vocab: nat, logits: seq<real>, targets: seq<nat>)
    requires IsExp(e) && IsLog(e, ln) && ReferenceOf(e, ln, batch, vocab, logits, targets).Some?
    ensures ScaledBy(batch as real, ReferenceOf(e, ln, batch, vocab, logits, targets).value.0,
                     Sum(batch, NegativeLogLikelihood(e, ln, vocab, logits, targets)))
  {
    SumOfSamples(e, ln, vocab, logits, targets);
    MeanTimes(Sum(batch, Losses(e, ln, View(logits, vocab, 1), vocab, targets)), batch, ReferenceOf(e, ln, batch, vocab, logits, targets).value.0);
  }

  lemma MeanTimes(total: real, n: nat, mean: real)
    requires n > 0 && mean == total / n as real
    ensures ScaledBy(n as real, mean, total)
  {
  }
}
