/** Cross-entropy on logits, and its fused form that never stores them: an online log-sum-exp over
    vocabulary tiles, then a second pass that accumulates the hidden gradient. */
module CrossEntropy {
  import opened Sums
  import opened Grids
  import opened Rows
  import opened Tensors
  import opened MatMulKernel
  import opened OnlineSoftmax

  /** ln turns the scaling by e(a) into adding a. */
  ghost predicate IsLog(e: real -> real, ln: real -> real) {
    forall x, a {:trigger LogShift(e, ln, x, a)} :: LogShift(e, ln, x, a)
  }

  predicate LogShift(e: real -> real, ln: real -> real, x: real, a: real) {
    x > 0.0 ==> ln(x * e(a)) == ln(x) + a
  }

  // ---------------------------------------------------------------- one sample

  /** The logits of sample `b`. */
  function RowOf(S: (int, int) -> real, b: int): int -> real {
    v => S(b, v)
  }

  function TopOf(s: int -> real, vocab: nat): real {
    if vocab == 0 then 0.0 else RunMax(s, 0, vocab).value
  }

  /** Sum of exp(s_v - max). */
  function Mass(e: real -> real, s: int -> real, vocab: nat): real {
    Weighted(e, s, One(), TopOf(s, vocab), 0, vocab)
  }

  function Ratio(x: real, y: real): real {
    if y == 0.0 then 0.0 else x / y
  }

  function Indicator(v: int, t: int): real {
    if v == t then 1.0 else 0.0
  }

  function SampleLoss(e: real -> real, ln: real -> real, s: int -> real, vocab: nat, t: nat): real {
    TopOf(s, vocab) + ln(Mass(e, s, vocab)) - s(t)
  }

  /** Softmax minus one-hot, over the batch size. */
  function LogitGrad(e: real -> real, s: int -> real, vocab: nat, t: nat, invB: real, v: int): real {
    (Ratio(e(s(v) - TopOf(s, vocab)), Mass(e, s, vocab)) - Indicator(v, t)) * invB
  }

  // ---------------------------------------------------------------- whole batches

  /** The loss of every sample. */
  function Losses(e: real -> real, ln: real -> real, S: (int, int) -> real, vocab: nat, targets: seq<nat>): int -> real {
    b => if 0 <= b < |targets| then SampleLoss(e, ln, RowOf(S, b), vocab, targets[b]) else 0.0
  }

  function GradMatrix(e: real -> real, S: (int, int) -> real, vocab: nat, targets: seq<nat>, invB: real): (int, int) -> real {
    (b, v) => if 0 <= b < |targets| then LogitGrad(e, RowOf(S, b), vocab, targets[b], invB, v) else 0.0
  }

  predicate TargetsInRange(targets: seq<nat>, vocab: nat) {
    forall b :: 0 <= b < |targets| ==> targets[b] < vocab
  }

  /** `cross_entropy_loss`: mean loss and logit gradient, or an error. */
  function ReferenceOf(e: real -> real, ln: real -> real, batch: nat, vocab: nat, logits: seq<real>, targets: seq<nat>): Option<(real, seq<real>)> {
    if batch == 0 || |targets| != batch || !TargetsInRange(targets, vocab) then None
    else
      var S := View(logits, vocab, 1);
      Some((Sum(batch, Losses(e, ln, S, vocab, targets)) / batch as real,
            Grid(batch, vocab, GradMatrix(e, S, vocab, targets, 1.0 / batch as real))))
  }

  /** The logits the fused form works with: hidden times the transposed head. */
  function HiddenLogits(dim: nat, h: seq<real>, w: seq<real>): (int, int) -> real {
    ProductOf(dim, View(h, dim, 1), View(w, 1, dim))
  }

  /** `fused_linear_cross_entropy_loss`: mean loss and hidden gradient, or an error. */
  function FusedOf(e: real -> real, ln: real -> real, batch: nat, dim: nat, vocab: nat, h: seq<real>, w: seq<real>, targets: seq<nat>): Option<(real, seq<real>)> {
    if batch == 0 || |targets| != batch || !TargetsInRange(targets, vocab) then None
    else
      var S := HiddenLogits(dim, h, w);
      Some((Sum(batch, Losses(e, ln, S, vocab, targets)) / batch as real,
            Grid(batch, dim, ProductOf(vocab, GradMatrix(e, S, vocab, targets, 1.0 / batch as real), View(w, dim, 1)))))
  }

  // ---------------------------------------------------------------- the fused form is the reference

  lemma {:induction false} RunMaxExt(s: int -> real, r: int -> real, n: nat)
    requires forall v :: 0 <= v < n ==> s(v) == r(v)
    ensures RunMax(s, 0, n) == RunMax(r, 0, n)
  {
    if n > 0 { RunMaxExt(s, r, n - 1); }
  }

  lemma {:induction false} WeightedExt(e: real -> real, s: int -> real, r: int -> real, m: real, n: nat)
    requires forall v :: 0 <= v < n ==> s(v) == r(v)
    ensures Weighted(e, s, One(), m, 0, n) == Weighted(e, r, One(), m, 0, n)
  {
    if n > 0 { WeightedExt(e, s, r, m, n - 1); }
  }

  lemma SampleExt(e: real -> real, ln: real -> real, s: int -> real, r: int -> real, vocab: nat, t: nat)
    requires t < vocab && forall v :: 0 <= v < vocab ==> s(v) == r(v)
    ensures SampleLoss(e, ln, s, vocab, t) == SampleLoss(e, ln, r, vocab, t)
    ensures TopOf(s, vocab) == TopOf(r, vocab) && Mass(e, s, vocab) == Mass(e, r, vocab)
  {
    RunMaxExt(s, r, vocab);
    WeightedExt(e, s, r, TopOf(s, vocab), vocab);
  }

  lemma LossesExt(e: real -> real, ln: real -> real, S: (int, int) -> real, R: (int, int) -> real, vocab: nat, targets: seq<nat>)
    requires TargetsInRange(targets, vocab) && Agree(|targets|, vocab, S, R)
    ensures Sum(|targets|, Losses(e, ln, S, vocab, targets)) == Sum(|targets|, Losses(e, ln, R, vocab, targets))
  {
    forall b | 0 <= b < |targets| ensures Losses(e, ln, S, vocab, targets)(b) == Losses(e, ln, R, vocab, targets)(b) {
      SampleExt(e, ln, RowOf(S, b), RowOf(R, b), vocab, targets[b]);
    }
    SumExt(|targets|, Losses(e, ln, S, vocab, targets), Losses(e, ln, R, vocab, targets));
  }

  lemma GradMatrixExt(e: real -> real, S: (int, int) -> real, R: (int, int) -> real, vocab: nat, targets: seq<nat>, invB: real)
    requires TargetsInRange(targets, vocab) && Agree(|targets|, vocab, S, R)
    ensures Agree(|targets|, vocab, GradMatrix(e, S, vocab, targets, invB), GradMatrix(e, R, vocab, targets, invB))
  {
    forall b, v | 0 <= b < |targets| && 0 <= v < vocab
      ensures GradMatrix(e, S, vocab, targets, invB)(b, v) == GradMatrix(e, R, vocab, targets, invB)(b, v)
    {
      SampleExt(e, x => x, RowOf(S, b), RowOf(R, b), vocab, targets[b]);
    }
  }

  lemma GridView(m: nat, n: nat, f: (int, int) -> real)
    ensures Agree(m, n, View(Grid(m, n, f), n, 1), f)
  {
    forall i, j | 0 <= i < m && 0 <= j < n ensures View(Grid(m, n, f), n, 1)(i, j) == f(i, j) {
      GridCell(m, n, f, i, j);
    }
  }

  /** Main theorem: without ever storing the logits, the fused form returns the loss of
      cross-entropy on hidden times head transposed, and as hidden gradient the logit gradient
      times the head; and it fails exactly when the reference does. */
  lemma FusedIsReference(e: real -> real, ln: real -> real, batch: nat, dim: nat, vocab: nat, h: seq<real>, w: seq<real>, targets: seq<nat>)
    ensures FusedOf(e, ln, batch, dim, vocab, h, w, targets) ==
            match ReferenceOf(e, ln, batch, vocab, MatMulOf(false, true, batch, dim, vocab, h, w), targets)
            case None => None
            case Some((loss, g)) => Some((loss, MatMulOf(false, false, batch, vocab, dim, g, w)))
  {
    if batch > 0 && |targets| == batch && TargetsInRange(targets, vocab) {
      var S, logits := HiddenLogits(dim, h, w), MatMulOf(false, true, batch, dim, vocab, h, w);
      var R, invB := View(logits, vocab, 1), 1.0 / batch as real;
      GridView(batch, vocab, S);
      LossesExt(e, ln, R, S, vocab, targets);
      GradMatrixExt(e, R, S, vocab, targets, invB);
      GradientsAgree(e, S, R, batch, dim, vocab, w, targets, invB);
    }
  }

  lemma GradientsAgree(e: real -> real, S: (int, int) -> real, R: (int, int) -> real, batch: nat, dim: nat, vocab: nat, w: seq<real>, targets: seq<nat>, invB: real)
    requires |targets| == batch
    requires Agree(batch, vocab, GradMatrix(e, R, vocab, targets, invB), GradMatrix(e, S, vocab, targets, invB))
    ensures MatMulOf(false, false, batch, vocab, dim, Grid(batch, vocab, GradMatrix(e, R, vocab, targets, invB)), w) ==
            Grid(batch, dim, ProductOf(vocab, GradMatrix(e, S, vocab, targets, invB), View(w, dim, 1)))
  {
    var G, G' := GradMatrix(e, R, vocab, targets, invB), GradMatrix(e, S, vocab, targets, invB);
    var g := Grid(batch, vocab, G);
    GridView(batch, vocab, G);
    ProductExt(batch, dim, vocab, View(g, vocab, 1), G', View(w, dim, 1), View(w, dim, 1));
    GridExt(batch, dim, ProductOf(vocab, View(g, vocab, 1), View(w, dim, 1)), ProductOf(vocab, G', View(w, dim, 1)));
  }

  lemma GridExt(m: nat, n: nat, f: (int, int) -> real, g: (int, int) -> real)
    requires Agree(m, n, f, g)
    ensures Grid(m, n, f) == Grid(m, n, g)
  {
    forall p | 0 <= p < m * n ensures Grid(m, n, f)[p] == Grid(m, n, g)[p] {
      FlatSplit(m, n, p);
    }
  }

  // ---------------------------------------------------------------- what the loss is

  /** The loss is the plain log-sum-exp minus the target logit: the maximum cancels. */
  lemma LossIsLogSumExp(e: real -> real, ln: real -> real, s: int -> real, vocab: nat, t: nat)
    requires IsExp(e) && IsLog(e, ln) && t < vocab
    ensures SampleLoss(e, ln, s, vocab, t) == ln(Weighted(e, s, One(), 0.0, 0, vocab)) - s(t)
  {
    var m := TopOf(s, vocab);
    Rescaled(e, s, One(), m, 0.0, 0, vocab);
    WeightsPositive(e, s, m, 0, vocab);
    MassFromZero(e, ln, Mass(e, s, vocab), m, m - 0.0, Weighted(e, s, One(), 0.0, 0, vocab));
  }

  lemma MassFromZero(e: real -> real, ln: real -> real, mass: real, m: real, d: real, total: real)
    requires IsLog(e, ln) && IsPositive(mass) && d == m && total == mass * e(d)
    ensures ln(total) == ln(mass) + m
  {
    assert LogShift(e, ln, mass, d);
    LogOfShifted(e, ln, mass, d, total);
  }

  lemma LogOfShifted(e: real -> real, ln: real -> real, x: real, a: real, y: real)
    requires LogShift(e, ln, x, a) && IsPositive(x) && y == x * e(a)
    ensures ln(y) == ln(x) + a
  {
  }

  lemma {:induction false} GradPrefix(e: real -> real, s: int -> real, vocab: nat, t: nat, invB: real, n: nat)
    requires IsExp(e) && t < vocab && n <= vocab && Mass(e, s, vocab) > 0.0
    ensures Sum(n, v => LogitGrad(e, s, vocab, t, invB, v)) ==
            (Weighted(e, s, One(), TopOf(s, vocab), 0, n) / Mass(e, s, vocab) - (if t < n then 1.0 else 0.0)) * invB
  {
    if n > 0 {
      GradPrefix(e, s, vocab, t, invB, n - 1);
      GradTerm(Weighted(e, s, One(), TopOf(s, vocab), 0, n - 1), e(s(n - 1) - TopOf(s, vocab)), Mass(e, s, vocab),
               if t < n - 1 then 1.0 else 0.0, Indicator(n - 1, t), invB);
    }
  }

  lemma GradTerm(a: real, x: real, m: real, i: real, j: real, c: real)
    requires m > 0.0
    ensures (a / m - i) * c + (x / m - j) * c == ((a + x * 1.0) / m - (i + j)) * c
  {
    var p, q, r := a / m, x / m, (a + x * 1.0) / m;
    assert p * m == a && q * m == x && r * m == a + x;
    assert (p + q - r) * m == 0.0;
    assert p + q == r;
  }

  /** The logit gradient of every sample sums to zero. */
  lemma LogitGradSumsToZero(e: real -> real, s: int -> real, vocab: nat, t: nat, invB: real)
    requires IsExp(e) && t < vocab
    ensures Sum(vocab, v => LogitGrad(e, s, vocab, t, invB, v)) == 0.0
  {
    WeightsPositive(e, s, TopOf(s, vocab), 0, vocab);
    GradPrefix(e, s, vocab, t, invB, vocab);
    Whole(Mass(e, s, vocab), invB);
  }

  lemma Whole(m: real, c: real)
    requires m > 0.0
    ensures (m / m - 1.0) * c == 0.0
  {
  }

  // ---------------------------------------------------------------- the fused loops

  /** The running state of the first pass: maximum, scaled sum, and the target's logit once seen. */
  datatype Pass = Pass(max: Option<real>, sum: real, target: real)

  ghost predicate PassAt(e: real -> real, s: int -> real, t: nat, p: Pass, n: nat) {
    && p.max == RunMax(s, 0, n) && p.sum == Track(e, s, One(), 0, n)
    && (t < n ==> p.target == s(t))
  }

  /** One logit of the online log-sum-exp. */
  method AddLogit(e: real -> real, p: Pass, logit: real, v: nat, t: nat, ghost s: int -> real) returns (q: Pass)
    requires IsExp(e) && logit == s(v) && PassAt(e, s, t, p, v)
    ensures PassAt(e, s, t, q, v + 1)
  {
    var target := if v == t then logit else p.target;
    NextSum(e, s, v);
    if p.max.None? || logit > p.max.value {
      var scale := if p.max.None? then 0.0 else e(p.max.value - logit);
      q := Pass(Some(logit), p.sum * scale + 1.0, target);
    } else {
      q := Pass(p.max, p.sum + e(logit - p.max.value), target);
    }
  }

  lemma NextSum(e: real -> real, s: int -> real, v: nat)
    requires IsExp(e)
    ensures var (m, x, t) := (RunMax(s, 0, v), s(v), Track(e, s, One(), 0, v));
            && (m.None? || x > m.value ==> RunMax(s, 0, v + 1) == Some(x) && Track(e, s, One(), 0, v + 1) == t * Decay(e, m, x) + 1.0)
            && (m.Some? && x <= m.value ==> RunMax(s, 0, v + 1) == m && Track(e, s, One(), 0, v + 1) == t + e(x - m.value))
  {
    var m, x := RunMax(s, 0, v), s(v);
    if m.Some? && x <= m.value {
      assert m.value - m.value == 0.0;
      GainIs(e, x, m.value);
    }
  }

  /** First pass, tile by tile. */
  method FirstPass(e: real -> real, b: nat, dim: nat, vocab: nat, h: seq<real>, w: seq<real>, t: nat, tile: nat) returns (p: Pass)
    requires IsExp(e) && tile > 0 && forall v {:trigger LogitFits(h, w, dim, b, v)} :: 0 <= v < vocab ==> LogitFits(h, w, dim, b, v)
    ensures PassAt(e, RowOf(HiddenLogits(dim, h, w), b), t, p, vocab)
  {
    ghost var s := RowOf(HiddenLogits(dim, h, w), b);
    p := Pass(None, 0.0, 0.0);
    var vStart := 0;
    while vStart < vocab
      invariant PassAt(e, s, t, p, Least(vStart, vocab))
    {
      var vEnd := Least(vStart + tile, vocab);
      for v := vStart to vEnd
        invariant PassAt(e, s, t, p, v)
      {
        assert LogitFits(h, w, dim, b, v);
        var logit := InnerSum(b, v, dim, h, dim, 1, w, 1, dim);
        p := AddLogit(e, p, logit, v, t, s);
      }
      vStart := vStart + tile;
    }
  }

  /** The cells read for logit (b, v) exist. */
  ghost predicate LogitFits(h: seq<real>, w: seq<real>, dim: nat, b: nat, v: nat) {
    forall l :: 0 <= l < dim ==> InRange(h, dim, 1, b, l) && InRange(w, 1, dim, l, v)
  }

  lemma LogitsFit(h: seq<real>, w: seq<real>, batch: nat, dim: nat, vocab: nat, b: nat)
    requires |h| == batch * dim && |w| == vocab * dim && b < batch
    ensures forall v {:trigger LogitFits(h, w, dim, b, v)} :: 0 <= v < vocab ==> LogitFits(h, w, dim, b, v)
  {
    RowMajorFits(h, batch, dim);
    RowMajorFits(w, vocab, dim);
  }
}
