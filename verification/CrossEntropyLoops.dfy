/** The two cross-entropy routines as loops. */
module CrossEntropyLoops {
  import opened Sums
  import opened Grids
  import opened Rows
  import opened Tensors
  import opened OnlineSoftmax
  import opened CrossEntropy

  // ---------------------------------------------------------------- the fused form

  /** What a first pass hands to the second. */
  lemma PassDone(e: real -> real, s: int -> real, t: nat, p: Pass, vocab: nat)
    requires IsExp(e) && t < vocab && PassAt(e, s, t, p, vocab)
    ensures p.max == Some(TopOf(s, vocab)) && p.sum == Mass(e, s, vocab) && p.sum > 0.0 && p.target == s(t)
  {
    TrackIsWeighted(e, s, One(), 0, vocab);
    WeightsPositive(e, s, TopOf(s, vocab), 0, vocab);
  }

  /** The gradient of one logit, from the row's maximum and sum. */
  function GradEntry(e: real -> real, logit: real, max: real, sum: real, v: int, t: int, invB: real): real {
    (Ratio(e(logit - max), sum) - Indicator(v, t)) * invB
  }

  /** d_logits for one logit. */
  method LogitGradient(e: real -> real, logit: real, max: real, sum: real, v: nat, t: nat, invB: real) returns (d: real)
    requires sum > 0.0
    ensures d == GradEntry(e, logit, max, sum, v, t, invB)
  {
    var p := e(logit - max) / sum;
    var targetInd := if v == t then 1.0 else 0.0;
    d := (p - targetInd) * invB;
  }

  /** Row `b` of the hidden gradient holds the contributions of the first `n` logits. */
  ghost predicate GradAt(grad: seq<real>, batch: nat, dim: nat, vocab: nat, X: (int, int) -> real, w: seq<real>, b: nat, n: nat) {
    PartialProduct(Zeros(batch * dim), grad, batch, dim, X, View(w, dim, 1), RowTerms(vocab, b, n))
  }

  /** One logit of the second pass. */
  method AddGradient(e: real -> real, batch: nat, dim: nat, vocab: nat, h: seq<real>, w: seq<real>, b: nat, v: nat, t: nat,
                     max: real, sum: real, invB: real, grad: array<real>, ghost X: (int, int) -> real)
    requires b < batch && v < vocab && LogitFits(h, w, dim, b, v) && Fits(w, vocab, dim, dim, 1) && grad.Length == batch * dim && sum > 0.0
    requires X(b, v) == GradEntry(e, RowOf(HiddenLogits(dim, h, w), b)(v), max, sum, v, t, invB)
    requires GradAt(grad[..], batch, dim, vocab, X, w, b, v)
    modifies grad
    ensures GradAt(grad[..], batch, dim, vocab, X, w, b, v + 1)
  {
    var logit := InnerSum(b, v, dim, h, dim, 1, w, 1, dim);
    var d := LogitGradient(e, logit, max, sum, v, t, invB);
    ghost var before := grad[..];
    MulMonotone(b + 1, batch, dim);
    assert (b + 1) * dim == b * dim + dim;
    Axpy(grad, dim, b, d, w, dim, 1, v);
    PartialAdvances(Zeros(batch * dim), before, grad[..], batch, dim, X, View(w, dim, 1), b, v,
                    RowTerms(vocab, b, v), RowTerms(vocab, b, v + 1));
  }

  /** Row `b` of `X` is the gradient the second pass computes from a maximum and a sum. */
  ghost predicate SecondPassRow(e: real -> real, s: int -> real, max: real, sum: real, vocab: nat, t: nat, invB: real, X: (int, int) -> real, b: int) {
    forall v {:trigger X(b, v)} :: 0 <= v < vocab ==> X(b, v) == GradEntry(e, s(v), max, sum, v, t, invB)
  }

  ghost predicate LogitsReady(h: seq<real>, w: seq<real>, dim: nat, vocab: nat, b: nat) {
    Fits(w, vocab, dim, dim, 1) && forall v: nat {:trigger LogitFits(h, w, dim, b, v)} :: v < vocab ==> LogitFits(h, w, dim, b, v)
  }

  lemma NextLogit(e: real -> real, s: int -> real, h: seq<real>, w: seq<real>, dim: nat, vocab: nat, b: nat, t: nat, v: nat,
                  max: real, sum: real, invB: real, X: (int, int) -> real)
    requires LogitsReady(h, w, dim, vocab, b) && SecondPassRow(e, s, max, sum, vocab, t, invB, X, b) && v < vocab
    ensures LogitFits(h, w, dim, b, v) && Fits(w, vocab, dim, dim, 1) && X(b, v) == GradEntry(e, s(v), max, sum, v, t, invB)
  {
    assert LogitFits(h, w, dim, b, v);
  }

  /** One tile of the second pass. */
  method AddLogit(e: real -> real, batch: nat, dim: nat, vocab: nat, h: seq<real>, w: seq<real>, b: nat, t: nat, v: nat,
                  max: real, sum: real, invB: real, grad: array<real>, ghost X: (int, int) -> real)
    requires b < batch && grad.Length == batch * dim && sum > 0.0 && v < vocab && LogitsReady(h, w, dim, vocab, b)
    requires SecondPassRow(e, RowOf(HiddenLogits(dim, h, w), b), max, sum, vocab, t, invB, X, b)
    requires GradAt(grad[..], batch, dim, vocab, X, w, b, v)
    modifies grad
    ensures GradAt(grad[..], batch, dim, vocab, X, w, b, v + 1)
  {
    NextLogit(e, RowOf(HiddenLogits(dim, h, w), b), h, w, dim, vocab, b, t, v, max, sum, invB, X);
    AddGradient(e, batch, dim, vocab, h, w, b, v, t, max, sum, invB, grad, X);
  }

  method AddTile(e: real -> real, batch: nat, dim: nat, vocab: nat, h: seq<real>, w: seq<real>, b: nat, t: nat, vStart: nat, vEnd: nat,
                 max: real, sum: real, invB: real, grad: array<real>, ghost X: (int, int) -> real)
    requires b < batch && grad.Length == batch * dim && sum > 0.0 && vStart <= vEnd <= vocab && LogitsReady(h, w, dim, vocab, b)
    requires SecondPassRow(e, RowOf(HiddenLogits(dim, h, w), b), max, sum, vocab, t, invB, X, b)
    requires GradAt(grad[..], batch, dim, vocab, X, w, b, vStart)
    modifies grad
    ensures GradAt(grad[..], batch, dim, vocab, X, w, b, vEnd)
  {
    for v := vStart to vEnd
      invariant GradAt(grad[..], batch, dim, vocab, X, w, b, v)
    {
      AddLogit(e, batch, dim, vocab, h, w, b, t, v, max, sum, invB, grad, X);
    }
  }

  /** Second pass, tile by tile. */
  method SecondPass(e: real -> real, batch: nat, dim: nat, vocab: nat, h: seq<real>, w: seq<real>, b: nat, t: nat, tile: nat,
                    max: real, sum: real, invB: real, grad: array<real>, ghost X: (int, int) -> real)
    requires b < batch && |h| == batch * dim && |w| == vocab * dim && grad.Length == batch * dim && tile > 0 && sum > 0.0
    requires SecondPassRow(e, RowOf(HiddenLogits(dim, h, w), b), max, sum, vocab, t, invB, X, b)
    requires GradAt(grad[..], batch, dim, vocab, X, w, b, 0)
    modifies grad
    ensures GradAt(grad[..], batch, dim, vocab, X, w, b, vocab)
  {
    LogitsFit(h, w, batch, dim, vocab, b);
    RowMajorFits(w, vocab, dim);
    var vStart := 0;
    while vStart < vocab
      invariant GradAt(grad[..], batch, dim, vocab, X, w, b, Least(vStart, vocab))
    {
      var vEnd := Least(vStart + tile, vocab);
      AddTile(e, batch, dim, vocab, h, w, b, t, vStart, vEnd, max, sum, invB, grad, X);
      vStart := vStart + tile;
    }
  }

  /** The gradient matrix of `X`, row `b`. */
  ghost predicate GradRowIs(e: real -> real, s: int -> real, vocab: nat, t: nat, invB: real, X: (int, int) -> real, b: int) {
    forall v {:trigger X(b, v)} :: 0 <= v < vocab ==> X(b, v) == LogitGrad(e, s, vocab, t, invB, v)
  }

  lemma RowForSecondPass(e: real -> real, s: int -> real, vocab: nat, t: nat, invB: real, X: (int, int) -> real, b: int, max: real, sum: real)
    requires GradRowIs(e, s, vocab, t, invB, X, b) && max == TopOf(s, vocab) && sum == Mass(e, s, vocab)
    ensures SecondPassRow(e, s, max, sum, vocab, t, invB, X, b)
  {
  }

  lemma NextRow(grad: seq<real>, batch: nat, dim: nat, vocab: nat, X: (int, int) -> real, w: seq<real>, b: nat)
    requires GradAt(grad, batch, dim, vocab, X, w, b, vocab)
    ensures GradAt(grad, batch, dim, vocab, X, w, b + 1, 0)
  {
    PartialSame(Zeros(batch * dim), grad, batch, dim, X, View(w, dim, 1), RowTerms(vocab, b, vocab), RowTerms(vocab, b + 1, 0));
  }

  /** Both passes over one sample. */
  method FusedSample(e: real -> real, ln: real -> real, batch: nat, dim: nat, vocab: nat, h: seq<real>, w: seq<real>, t: nat, b: nat,
                     invB: real, grad: array<real>, ghost s: int -> real, ghost X: (int, int) -> real) returns (loss: real)
    requires IsExp(e) && b < batch && t < vocab && |h| == batch * dim && |w| == vocab * dim && grad.Length == batch * dim
    requires s == RowOf(HiddenLogits(dim, h, w), b) && GradRowIs(e, s, vocab, t, invB, X, b)
    requires GradAt(grad[..], batch, dim, vocab, X, w, b, 0)
    modifies grad
    ensures loss == SampleLoss(e, ln, s, vocab, t)
    ensures GradAt(grad[..], batch, dim, vocab, X, w, b + 1, 0)
  {
    var tile := Least(4096, vocab);
    LogitsFit(h, w, batch, dim, vocab, b);
    var p := FirstPass(e, b, dim, vocab, h, w, t, tile);
    PassDone(e, s, t, p, vocab);
    loss := p.max.value + ln(p.sum) - p.target;
    RowForSecondPass(e, s, vocab, t, invB, X, b, p.max.value, p.sum);
    SecondPass(e, batch, dim, vocab, h, w, b, t, tile, p.max.value, p.sum, invB, grad, X);
    NextRow(grad[..], batch, dim, vocab, X, w, b);
  }

  ghost predicate GradRowsAre(e: real -> real, S: (int, int) -> real, vocab: nat, targets: seq<nat>, invB: real, X: (int, int) -> real) {
    forall b {:trigger targets[b]} :: 0 <= b < |targets| ==> GradRowIs(e, RowOf(S, b), vocab, targets[b], invB, X, b)
  }

  lemma GradMatrixRows(e: real -> real, S: (int, int) -> real, vocab: nat, targets: seq<nat>, invB: real)
    ensures GradRowsAre(e, S, vocab, targets, invB, GradMatrix(e, S, vocab, targets, invB))
  {
  }

  /** The first `n` targets are in the vocabulary. */
  predicate FirstInRange(targets: seq<nat>, vocab: nat, n: nat)
    requires n <= |targets|
  {
    if n == 0 then true else FirstInRange(targets, vocab, n - 1) && targets[n - 1] < vocab
  }

  lemma {:induction false} FirstInRangeIs(targets: seq<nat>, vocab: nat, n: nat)
    requires n <= |targets|
    ensures FirstInRange(targets, vocab, n) <==> forall k :: 0 <= k < n ==> targets[k] < vocab
  {
    if n > 0 { FirstInRangeIs(targets, vocab, n - 1); }
  }

  /** Everything fixed during a call. */
  datatype Job = Job(batch: nat, dim: nat, vocab: nat, h: seq<real>, w: seq<real>, targets: seq<nat>, invB: real)

  ghost predicate JobFits(e: real -> real, j: Job, S: (int, int) -> real, X: (int, int) -> real) {
    && j.batch == |j.targets| && |j.h| == j.batch * j.dim && |j.w| == j.vocab * j.dim
    && S == HiddenLogits(j.dim, j.h, j.w) && GradRowsAre(e, S, j.vocab, j.targets, j.invB, X)
  }

  /** What the call computes: the loss of every sample and the gradient matrix. */
  datatype Goal = Goal(losses: int -> real, X: (int, int) -> real)

  ghost predicate GoalIs(e: real -> real, ln: real -> real, j: Job, g: Goal) {
    && JobFits(e, j, HiddenLogits(j.dim, j.h, j.w), g.X)
    && g.losses == Losses(e, ln, HiddenLogits(j.dim, j.h, j.w), j.vocab, j.targets)
  }

  /** The first `n` samples are done. */
  ghost predicate Progress(j: Job, g: Goal, n: nat, total: real, grad: seq<real>) {
    && n <= |j.targets| && FirstInRange(j.targets, j.vocab, n) && total == Sum(n, g.losses)
    && |grad| == j.batch * j.dim && GradAt(grad, j.batch, j.dim, j.vocab, g.X, j.w, n, 0)
  }

  lemma NextLoss(f: int -> real, b: nat, total: real, loss: real)
    requires total == Sum(b, f) && loss == f(b)
    ensures total + loss == Sum(b + 1, f)
  {
  }

  /** One sample of a chunk. */
  method NextSample(e: real -> real, ln: real -> real, j: Job, b: nat, before: real, grad: array<real>, ghost g: Goal) returns (total: real)
    requires IsExp(e) && GoalIs(e, ln, j, g) && b < |j.targets| && j.targets[b] < j.vocab && Progress(j, g, b, before, grad[..])
    modifies grad
    ensures Progress(j, g, b + 1, total, grad[..])
  {
    ghost var s := RowOf(HiddenLogits(j.dim, j.h, j.w), b);
    var loss := FusedSample(e, ln, j.batch, j.dim, j.vocab, j.h, j.w, j.targets[b], b, j.invB, grad, s, g.X);
    NextLoss(g.losses, b, before, loss);
    total := before + loss;
  }

  method FusedChunk(e: real -> real, ln: real -> real, j: Job, lo: nat, hi: nat, before: real, grad: array<real>, ghost g: Goal) returns (ok: bool, total: real)
    requires IsExp(e) && GoalIs(e, ln, j, g) && lo <= hi <= |j.targets| && Progress(j, g, lo, before, grad[..])
    modifies grad
    ensures !ok ==> !TargetsInRange(j.targets, j.vocab)
    ensures ok ==> Progress(j, g, hi, total, grad[..])
  {
    total := before;
    for b := lo to hi
      invariant Progress(j, g, b, total, grad[..])
    {
      if j.targets[b] >= j.vocab { return false, total; }
      total := NextSample(e, ln, j, b, total, grad, g);
    }
    ok := true;
  }

  lemma GradStarts(grad: seq<real>, batch: nat, dim: nat, vocab: nat, X: (int, int) -> real, w: seq<real>)
    requires grad == Zeros(batch * dim)
    ensures GradAt(grad, batch, dim, vocab, X, w, 0, 0)
  {
    PartialStarts(grad, batch, dim, X, View(w, dim, 1), RowTerms(vocab, 0, 0));
  }

  lemma GradDone(grad: seq<real>, batch: nat, dim: nat, vocab: nat, X: (int, int) -> real, w: seq<real>)
    requires GradAt(grad, batch, dim, vocab, X, w, batch, 0)
    ensures grad == Grid(batch, dim, ProductOf(vocab, X, View(w, dim, 1)))
  {
    PartialDone(Zeros(batch * dim), grad, batch, dim, vocab, X, View(w, dim, 1), RowTerms(vocab, batch, 0));
    AddZeros(Grid(batch, dim, ProductOf(vocab, X, View(w, dim, 1))));
  }

  /** `fused_linear_cross_entropy_loss`, for every chunk size. `wDim` is the head's own width. */
  method FusedLoss(e: real -> real, ln: real -> real, batch: nat, dim: nat, vocab: nat, wDim: nat, h: seq<real>, w: seq<real>, targets: seq<nat>, chunkSize: nat)
    returns (r: Option<(real, seq<real>)>)
    requires IsExp(e) && |h| == batch * dim && |w| == vocab * wDim
    ensures r == if wDim != dim then None else FusedOf(e, ln, batch, dim, vocab, h, w, targets)
  {
    if wDim != dim || batch == 0 || |targets| != batch { return None; }
    var grad := new real[batch * dim](_ => 0.0);
    var total, invB := 0.0, 1.0 / batch as real;
    var chunk := if chunkSize > 1 then chunkSize else 1;
    var j := Job(batch, dim, vocab, h, w, targets, invB);
    ghost var S := HiddenLogits(dim, h, w);
    ghost var g := Goal(Losses(e, ln, S, vocab, targets), GradMatrix(e, S, vocab, targets, invB));
    GradMatrixRows(e, S, vocab, targets, invB);
    GradStarts(grad[..], batch, dim, vocab, g.X, w);
    var chunkStart := 0;
    ghost var done: nat := 0;
    while chunkStart < batch
      invariant done == Least(chunkStart, batch) && Progress(j, g, done, total, grad[..])
    {
      var chunkEnd := Least(chunkStart + chunk, batch);
      var ok;
      ok, total := FusedChunk(e, ln, j, chunkStart, chunkEnd, total, grad, g);
      if !ok { return None; }
      chunkStart := chunkStart + chunk;
      done := chunkEnd;
    }
    GradDone(grad[..], batch, dim, vocab, g.X, w);
    FirstInRangeIs(targets, vocab, batch);
    r := Some((total / batch as real, grad[..]));
  }

  // ---------------------------------------------------------------- the reference

  /** The reference's passes over one row of logits: maximum, exponentials and their sum. */
  method RowMax(logits: seq<real>, off: nat, vocab: nat, ghost s: int -> real) returns (max: real)
    requires vocab > 0 && off + vocab <= |logits| && forall v :: 0 <= v < vocab ==> logits[off + v] == s(v)
    ensures max == TopOf(s, vocab)
  {
    max := logits[off];
    assert logits[off + 0] == s(0) && RunMax(s, 0, 1) == Some(s(0));
    for v := 1 to vocab
      invariant Some(max) == RunMax(s, 0, v)
    {
      if logits[off + v] > max { max := logits[off + v]; }
    }
  }

  lemma MassGrows(e: real -> real, s: int -> real, max: real, v: nat)
    ensures Weighted(e, s, One(), max, 0, v + 1) == Weighted(e, s, One(), max, 0, v) + e(s(v) - max)
  {
    assert e(s(v) - max) * One()(v) == e(s(v) - max);
  }

  method RowExps(e: real -> real, logits: seq<real>, off: nat, vocab: nat, max: real, ghost s: int -> real) returns (exps: array<real>, sum: real)
    requires off + vocab <= |logits| && forall v :: 0 <= v < vocab ==> logits[off + v] == s(v)
    ensures fresh(exps) && exps.Length == vocab && forall v :: 0 <= v < vocab ==> exps[v] == e(s(v) - max)
    ensures sum == Weighted(e, s, One(), max, 0, vocab)
  {
    exps := new real[vocab](_ => 0.0);
    sum := 0.0;
    for v := 0 to vocab
      invariant forall i :: 0 <= i < v ==> exps[i] == e(s(i) - max)
      invariant sum == Weighted(e, s, One(), max, 0, v)
    {
      var expVal := e(logits[off + v] - max);
      MassGrows(e, s, max, v);
      exps[v] := expVal;
      sum := sum + expVal;
    }
  }

  ghost predicate RowGradIs(exps: seq<real>, sum: real, t: nat, invB: real, g: int -> real) {
    forall v {:trigger g(v)} {:trigger exps[v]} :: 0 <= v < |exps| ==> g(v) == (Ratio(exps[v], sum) - Indicator(v, t)) * invB
  }

  lemma ExpsGiveGrad(e: real -> real, s: int -> real, vocab: nat, t: nat, invB: real, max: real, sum: real, exps: seq<real>, g: int -> real)
    requires |exps| == vocab && max == TopOf(s, vocab) && sum == Mass(e, s, vocab)
    requires forall v {:trigger exps[v]} :: 0 <= v < vocab ==> exps[v] == e(s(v) - max)
    requires forall v {:trigger g(v)} :: 0 <= v < vocab ==> g(v) == LogitGrad(e, s, vocab, t, invB, v)
    ensures RowGradIs(exps, sum, t, invB, g)
  {
    forall v | 0 <= v < vocab ensures g(v) == (Ratio(exps[v], sum) - Indicator(v, t)) * invB {
      assert g(v) == LogitGrad(e, s, vocab, t, invB, v);
    }
  }

  method RowGrad(exps: array<real>, sum: real, t: nat, invB: real, off: nat, grad: array<real>, ghost g: int -> real)
    requires off + exps.Length <= grad.Length && sum > 0.0 && exps != grad && RowGradIs(exps[..], sum, t, invB, g)
    modifies grad
    ensures forall p :: 0 <= p < grad.Length ==> grad[p] == if off <= p < off + exps.Length then g(p - off) else old(grad[p])
  {
    for v := 0 to exps.Length
      invariant forall p :: 0 <= p < grad.Length ==> grad[p] == if off <= p < off + v then g(p - off) else old(grad[p])
    {
      var prob := exps[v] / sum;
      var targetIndicator := if v == t then 1.0 else 0.0;
      grad[off + v] := (prob - targetIndicator) * invB;
    }
  }

  /** Rows before `b` of the gradient hold `G`. */
  ghost predicate GradRowsDone(grad: seq<real>, vocab: nat, G: (int, int) -> real, b: nat) {
    forall k {:trigger GridRow(G, k)} :: 0 <= k < b ==> RowIs(grad, vocab, k, GridRow(G, k))
  }

  function GridRow(G: (int, int) -> real, b: int): int -> real {
    v => G(b, v)
  }

  lemma RowWritten(before: seq<real>, grad: seq<real>, batch: nat, vocab: nat, G: (int, int) -> real, b: nat)
    requires b < batch && |before| == |grad| == batch * vocab && GradRowsDone(before, vocab, G, b)
    requires forall p :: 0 <= p < |grad| ==> grad[p] == if b * vocab <= p < b * vocab + vocab then G(b, p - b * vocab) else before[p]
    ensures GradRowsDone(grad, vocab, G, b + 1)
  {
    forall k | 0 <= k < b + 1 ensures RowIs(grad, vocab, k, GridRow(G, k)) {
      if k == b {
        forall q | 0 <= q < vocab ensures Cell(grad, vocab, b, q) == G(b, q) {
          FlatIndex(batch, vocab, b, q);
        }
      } else {
        RowSurvives(before, grad, vocab, b, k, GridRow(G, k));
      }
    }
  }

  lemma AllRowsDone(grad: seq<real>, batch: nat, vocab: nat, G: (int, int) -> real)
    requires |grad| == batch * vocab && GradRowsDone(grad, vocab, G, batch)
    ensures grad == Grid(batch, vocab, G)
  {
    forall i, j | 0 <= i < batch && 0 <= j < vocab ensures Cell(grad, vocab, i, j) == G(i, j) {
      assert RowIs(grad, vocab, i, GridRow(G, i));
      assert GridRow(G, i)(j) == G(i, j);
    }
    GridsEqual(batch, vocab, grad, G);
  }

  /** The reference on one row: its loss, and its gradient written into row `b`. */
  method ReferenceSample(e: real -> real, ln: real -> real, logits: seq<real>, vocab: nat, off: nat, t: nat, invB: real, grad: array<real>,
                         ghost s: int -> real, ghost g: int -> real) returns (loss: real)
    requires IsExp(e) && t < vocab && off + vocab <= |logits| && off + vocab <= grad.Length
    requires forall v :: 0 <= v < vocab ==> logits[off + v] == s(v)
    requires forall v {:trigger g(v)} :: 0 <= v < vocab ==> g(v) == LogitGrad(e, s, vocab, t, invB, v)
    modifies grad
    ensures loss == SampleLoss(e, ln, s, vocab, t)
    ensures forall p :: 0 <= p < grad.Length ==> grad[p] == if off <= p < off + vocab then g(p - off) else old(grad[p])
  {
    var max := RowMax(logits, off, vocab, s);
    var exps, sum := RowExps(e, logits, off, vocab, max, s);
    WeightsPositive(e, s, max, 0, vocab);
    assert logits[off + t] == s(t);
    loss := max + ln(sum) - logits[off + t];
    ExpsGiveGrad(e, s, vocab, t, invB, max, sum, exps[..], g);
    RowGrad(exps, sum, t, invB, off, grad, g);
  }

  /** The first `n` rows of the reference are done. */
  ghost predicate ReferenceProgress(batch: nat, vocab: nat, targets: seq<nat>, losses: int -> real, G: (int, int) -> real, n: nat, total: real, grad: seq<real>) {
    && n <= |targets| && FirstInRange(targets, vocab, n) && total == Sum(n, losses)
    && |grad| == batch * vocab && GradRowsDone(grad, vocab, G, n)
  }

  /** What the reference computes. */
  ghost predicate ReferenceGoal(e: real -> real, ln: real -> real, vocab: nat, logits: seq<real>, targets: seq<nat>, invB: real, losses: int -> real, G: (int, int) -> real) {
    && GradRowsAre(e, View(logits, vocab, 1), vocab, targets, invB, G)
    && forall b {:trigger targets[b]} :: 0 <= b < |targets| ==> losses(b) == SampleLoss(e, ln, RowOf(View(logits, vocab, 1), b), vocab, targets[b])
  }

  lemma ReferenceGoalHolds(e: real -> real, ln: real -> real, vocab: nat, logits: seq<real>, targets: seq<nat>, invB: real)
    ensures var S := View(logits, vocab, 1);
            ReferenceGoal(e, ln, vocab, logits, targets, invB, Losses(e, ln, S, vocab, targets), GradMatrix(e, S, vocab, targets, invB))
  {
    GradMatrixRows(e, View(logits, vocab, 1), vocab, targets, invB);
  }

  /** Row `b` of the logits lies at `off`. */
  lemma LogitsRow(batch: nat, vocab: nat, size: nat, logits: seq<real>, b: nat, off: nat, s: int -> real)
    requires |logits| >= size == batch * vocab && b < batch && off == b * vocab && s == RowOf(View(logits, vocab, 1), b)
    ensures off + vocab <= size <= |logits| && forall v :: 0 <= v < vocab ==> logits[off + v] == s(v)
  {
    MulMonotone(b + 1, batch, vocab);
    assert (b + 1) * vocab == off + vocab;
    forall v | 0 <= v < vocab ensures logits[off + v] == s(v) {
      CellOfRow(logits, vocab, b, v);
    }
  }

  lemma ReferenceAdvances(batch: nat, vocab: nat, targets: seq<nat>, losses: int -> real, G: (int, int) -> real, b: nat, before: real, total: real,
                          was: seq<real>, now: seq<real>, off: nat)
    requires ReferenceProgress(batch, vocab, targets, losses, G, b, before, was) && b < |targets| == batch && targets[b] < vocab
    requires total == before + losses(b) && off == b * vocab && |now| == |was|
    requires forall p :: 0 <= p < |now| ==> now[p] == if off <= p < off + vocab then G(b, p - off) else was[p]
    ensures ReferenceProgress(batch, vocab, targets, losses, G, b + 1, total, now)
  {
    RowWritten(was, now, batch, vocab, G, b);
    NextLoss(losses, b, before, losses(b));
  }

  /** What the sample of row `b` is computed from and what it should yield. */
  lemma SampleGoal(e: real -> real, ln: real -> real, vocab: nat, logits: seq<real>, targets: seq<nat>, invB: real, losses: int -> real, G: (int, int) -> real, b: nat)
    requires ReferenceGoal(e, ln, vocab, logits, targets, invB, losses, G) && b < |targets|
    ensures var s := RowOf(View(logits, vocab, 1), b);
            && losses(b) == SampleLoss(e, ln, s, vocab, targets[b])
            && forall v {:trigger GridRow(G, b)(v)} :: 0 <= v < vocab ==> GridRow(G, b)(v) == LogitGrad(e, s, vocab, targets[b], invB, v)
  {
  }

  method ReferenceRow(e: real -> real, ln: real -> real, batch: nat, vocab: nat, logits: seq<real>, targets: seq<nat>, invB: real, b: nat, before: real,
                      grad: array<real>, ghost losses: int -> real, ghost G: (int, int) -> real) returns (total: real)
    requires IsExp(e) && |logits| >= batch * vocab && b < batch == |targets| && targets[b] < vocab
    requires ReferenceGoal(e, ln, vocab, logits, targets, invB, losses, G)
    requires ReferenceProgress(batch, vocab, targets, losses, G, b, before, grad[..])
    modifies grad
    ensures ReferenceProgress(batch, vocab, targets, losses, G, b + 1, total, grad[..])
  {
    ghost var was, s := grad[..], RowOf(View(logits, vocab, 1), b);
    var off := b * vocab;
    LogitsRow(batch, vocab, grad.Length, logits, b, off, s);
    SampleGoal(e, ln, vocab, logits, targets, invB, losses, G, b);
    var loss := ReferenceSample(e, ln, logits, vocab, off, targets[b], invB, grad, s, GridRow(G, b));
    total := before + loss;
    ReferenceAdvances(batch, vocab, targets, losses, G, b, before, total, was, grad[..], off);
  }

  lemma CellOfRow(logits: seq<real>, vocab: nat, b: nat, v: int)
    ensures RowOf(View(logits, vocab, 1), b)(v) == At(logits, b * vocab + v)
  {
    var S := View(logits, vocab, 1);
    assert S(b, v) == At(logits, b * vocab + v * 1);
  }

  /** `cross_entropy_loss`. */
  method CrossEntropyLoss(e: real -> real, ln: real -> real, batch: nat, vocab: nat, logits: seq<real>, targets: seq<nat>) returns (r: Option<(real, seq<real>)>)
    requires IsExp(e)
    ensures r == if |logits| < batch * vocab then None else ReferenceOf(e, ln, batch, vocab, logits, targets)
  {
    if batch == 0 || |targets| != batch || |logits| < batch * vocab { return None; }
    var grad := new real[batch * vocab](_ => 0.0);
    var total, invB := 0.0, 1.0 / batch as real;
    ghost var S := View(logits, vocab, 1);
    ghost var losses, G := Losses(e, ln, S, vocab, targets), GradMatrix(e, S, vocab, targets, invB);
    ReferenceGoalHolds(e, ln, vocab, logits, targets, invB);
    var ok;
    ok, total := ReferenceRows(e, ln, batch, vocab, logits, targets, invB, grad, losses, G);
    if !ok { return None; }
    AllRowsDone(grad[..], batch, vocab, G);
    FirstInRangeIs(targets, vocab, batch);
    r := Some((total / batch as real, grad[..]));
  }

  /** The batch loop; stops at a target outside the vocabulary. */
  method ReferenceRows(e: real -> real, ln: real -> real, batch: nat, vocab: nat, logits: seq<real>, targets: seq<nat>, invB: real,
                       grad: array<real>, ghost losses: int -> real, ghost G: (int, int) -> real) returns (ok: bool, total: real)
    requires IsExp(e) && |logits| >= batch * vocab && batch == |targets| && grad.Length == batch * vocab
    requires ReferenceGoal(e, ln, vocab, logits, targets, invB, losses, G)
    modifies grad
    ensures !ok ==> !TargetsInRange(targets, vocab)
    ensures ok ==> ReferenceProgress(batch, vocab, targets, losses, G, batch, total, grad[..])
  {
    total := 0.0;
    for b := 0 to batch
      invariant ReferenceProgress(batch, vocab, targets, losses, G, b, total, grad[..])
    {
      if targets[b] >= vocab { return false, total; }
      total := ReferenceRow(e, ln, batch, vocab, logits, targets, invB, b, total, grad, losses, G);
    }
    ok := true;
  }
}
