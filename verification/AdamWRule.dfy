/** What AdamW's step means: its bias-corrected moments are the exponentially weighted means of the
    gradients seen so far, and LoRA+ speeds up the B matrices only. */
module AdamWRule {
  import opened Sums
  import opened Tensors
  import opened PagedAdamW
  import opened AdamWRuns
  import opened OptimizerLoops

  // ---------------------------------------------------------------- exponential weights

  /** The terms beta^(n-1-k) x(k). */
  function Aged(beta: real, n: nat, x: int -> real): int -> real {
    k => if 0 <= k < n then Power(beta, n - 1 - k) * x(k) else 0.0
  }

  /** beta^(n-1) x(0) + beta^(n-2) x(1) + ... + x(n-1). */
  function Decayed(beta: real, n: nat, x: int -> real): real {
    Sum(n, Aged(beta, n, x))
  }

  lemma OnePower(beta: real, e: nat, x: real, f: real, g: real)
    requires f == Power(beta, e + 1) * x && g == Power(beta, e) * x
    ensures f == beta * g
  {
    assert Power(beta, e + 1) == Power(beta, e) * beta;
  }

  lemma AgedAt(beta: real, n: nat, x: int -> real, k: nat)
    requires k < n
    ensures Aged(beta, n + 1, x)(k) == beta * Aged(beta, n, x)(k)
  {
    OnePower(beta, n - 1 - k, x(k), Aged(beta, n + 1, x)(k), Aged(beta, n, x)(k));
  }

  lemma LastIsNew(beta: real, n: nat, x: int -> real)
    ensures Aged(beta, n + 1, x)(n) == x(n)
  {
    assert Power(beta, 0) == 1.0;
  }

  /** One more term: the old ones age by one step. */
  lemma DecayedNext(beta: real, n: nat, x: int -> real)
    ensures Decayed(beta, n + 1, x) == beta * Decayed(beta, n, x) + x(n)
  {
    var f, g := Aged(beta, n + 1, x), Aged(beta, n, x);
    forall k | 0 <= k < n ensures f(k) == beta * g(k) {
      AgedAt(beta, n, x, k);
    }
    SumScale(n, beta, g, f);
    LastIsNew(beta, n, x);
  }

  function Ones(): int -> real {
    k => 1.0
  }

  /** (1 - beta) times the weights is the bias correction. */
  lemma {:induction false} WeightsTotal(beta: real, n: nat)
    ensures (1.0 - beta) * Decayed(beta, n, Ones()) == 1.0 - Power(beta, n)
  {
    if n > 0 {
      WeightsTotal(beta, n - 1);
      DecayedNext(beta, n - 1, Ones());
      var w, p := Decayed(beta, n - 1, Ones()), Power(beta, n - 1);
      assert (1.0 - beta) * (beta * w + 1.0) == beta * ((1.0 - beta) * w) + (1.0 - beta);
      assert beta * (1.0 - p) == beta - p * beta;
    }
  }

  // ---------------------------------------------------------------- one parameter, many steps

  function WithGrad(p: TrainableParam, g: seq<real>): TrainableParam {
    p.(grad := Tensor(p.grad.shape, g))
  }

  /** One parameter stepped on the gradients `gs`, one after the other. */
  function SteppedWith(c: Config, ratio: real, root: real -> real, st: Flat, id: ParamId, p: TrainableParam, gs: seq<seq<real>>): (Flat, TrainableParam)
    requires ConfigOk(c)
  {
    if gs == [] then (st, p)
    else
      var r := SteppedWith(c, ratio, root, st, id, p, gs[..|gs| - 1]);
      FlatParam(c, ratio, root, r.0, id, WithGrad(r.1, gs[|gs| - 1]))
  }

  function Component(gs: seq<seq<real>>, i: int): int -> real {
    k => if 0 <= k < |gs| then At(gs[k], i) else 0.0
  }

  function Squared(x: int -> real): int -> real {
    k => x(k) * x(k)
  }

  ghost predicate Shaped(gs: seq<seq<real>>, n: nat) {
    forall k {:trigger gs[k]} :: 0 <= k < |gs| ==> |gs[k]| == n
  }

  /** Nothing is known of `id` yet. */
  predicate Fresh(st: Flat, id: ParamId) {
    id !in st.moments && id !in st.paramSteps
  }

  lemma {:induction false} DecayedExt(beta: real, n: nat, x: int -> real, y: int -> real)
    requires forall k :: 0 <= k < n ==> x(k) == y(k)
    ensures Decayed(beta, n, x) == Decayed(beta, n, y)
  {
    if n > 0 {
      DecayedExt(beta, n - 1, x, y);
      DecayedNext(beta, n - 1, x);
      DecayedNext(beta, n - 1, y);
    }
  }

  /** Component `i` of the moments after the gradients `gs`. */
  ghost predicate MomentsAt(c: Config, s: Moments, gs: seq<seq<real>>, i: nat)
    requires i < |s.m| && i < |s.v|
  {
    && s.m[i] == (1.0 - c.beta1) * Decayed(c.beta1, |gs|, Component(gs, i))
    && s.v[i] == (1.0 - c.beta2) * Decayed(c.beta2, |gs|, Squared(Component(gs, i)))
  }

  ghost predicate MomentsAre(c: Config, s: Moments, gs: seq<seq<real>>, n: nat) {
    |s.m| == |s.v| == n && forall i: nat {:trigger MomentsAt(c, s, gs, i)} :: i < n ==> MomentsAt(c, s, gs, i)
  }

  /** One step of a moving average, on the sums. */
  lemma AverageNext(beta: real, d: real, x: real, d': real, m: real)
    requires m == (1.0 - beta) * d && d' == beta * d + x
    ensures beta * m + (1.0 - beta) * x == (1.0 - beta) * d'
  {
    var k := 1.0 - beta;
    assert beta * (k * d) == k * (beta * d);
    assert k * (beta * d + x) == k * (beta * d) + k * x;
  }

  lemma SquareAverageNext(beta: real, d: real, x: real, d': real, v: real)
    requires v == (1.0 - beta) * d && d' == beta * d + x * x
    ensures beta * v + (1.0 - beta) * x * x == (1.0 - beta) * d'
  {
    AverageNext(beta, d, x * x, d', v);
    assert (1.0 - beta) * x * x == (1.0 - beta) * (x * x);
  }

  lemma NextMoment(c: Config, gs: seq<seq<real>>, i: nat, m: real, v: real)
    requires |gs| > 0
    requires var before := gs[..|gs| - 1];
             && m == (1.0 - c.beta1) * Decayed(c.beta1, |before|, Component(before, i))
             && v == (1.0 - c.beta2) * Decayed(c.beta2, |before|, Squared(Component(before, i)))
    ensures var x := At(gs[|gs| - 1], i);
            && NewM(c, m, x) == (1.0 - c.beta1) * Decayed(c.beta1, |gs|, Component(gs, i))
            && NewV(c, v, x) == (1.0 - c.beta2) * Decayed(c.beta2, |gs|, Squared(Component(gs, i)))
  {
    var n, before := |gs| - 1, gs[..|gs| - 1];
    var x := At(gs[n], i);
    var f, g := Component(gs, i), Component(before, i);
    assert f(n) == x && Squared(f)(n) == x * x;
    forall k | 0 <= k < n ensures f(k) == g(k) && Squared(f)(k) == Squared(g)(k) {
      assert before[k] == gs[k];
    }
    DecayedExt(c.beta1, n, f, g);
    DecayedExt(c.beta2, n, Squared(f), Squared(g));
    DecayedNext(c.beta1, n, f);
    DecayedNext(c.beta2, n, Squared(f));
    AverageNext(c.beta1, Decayed(c.beta1, n, f), x, Decayed(c.beta1, n + 1, f), m);
    SquareAverageNext(c.beta2, Decayed(c.beta2, n, Squared(f)), x, Decayed(c.beta2, n + 1, Squared(f)), v);
  }

  /** The optimizer has seen exactly the gradients `gs` of `id`. */
  ghost predicate History(c: Config, st: Flat, id: ParamId, gs: seq<seq<real>>, n: nat) {
    if gs == [] then Fresh(st, id)
    else id in st.paramSteps && st.paramSteps[id] == |gs| && id in st.moments && MomentsAre(c, st.moments[id], gs, n)
  }

  lemma HistoryMoments(c: Config, st: Flat, id: ParamId, gs: seq<seq<real>>, n: nat)
    requires History(c, st, id, gs, n)
    ensures MomentsAre(c, MomentsOf(st.moments, id, n), gs, n) && StepsOf(st.paramSteps, id) == |gs| + 1
  {
    if gs == [] {
      forall i: nat | i < n ensures MomentsAt(c, ZeroMoments(n), gs, i) {
        assert Decayed(c.beta1, 0, Component(gs, i)) == 0.0 && Decayed(c.beta2, 0, Squared(Component(gs, i))) == 0.0;
      }
    }
  }

  lemma AdvancedAt(c: Config, root: real -> real, t: nat, s: Moments, g: seq<real>, i: nat) returns (m: real, v: real)
    requires ConfigOk(c) && t > 0 && |s.m| == |s.v| == |g| && i < |g|
    ensures var r := Advanced(RuleOf(c, root, t), s, g);
            |r.m| == |r.v| == |g| && r.m[i] == m == NewM(c, s.m[i], g[i]) && r.v[i] == v == NewV(c, s.v[i], g[i])
  {
    m, v := NewM(c, s.m[i], g[i]), NewV(c, s.v[i], g[i]);
  }

  lemma AdvancedMomentsAt(c: Config, c': Config, root: real -> real, t: nat, s: Moments, gs: seq<seq<real>>, n: nat, i: nat)
    requires ConfigOk(c) && ConfigOk(c') && t > 0 && c'.beta1 == c.beta1 && c'.beta2 == c.beta2
    requires |gs| > 0 && |gs[|gs| - 1]| == n && MomentsAre(c, s, gs[..|gs| - 1], n) && i < n
    ensures var r := Advanced(RuleOf(c', root, t), s, gs[|gs| - 1]); |r.m| == |r.v| == n && MomentsAt(c, r, gs, i)
  {
    assert MomentsAt(c, s, gs[..|gs| - 1], i);
    var m, v := AdvancedAt(c', root, t, s, gs[|gs| - 1], i);
    NextMoment(c, gs, i, s.m[i], s.v[i]);
    SameBetas(c, c', s.m[i], s.v[i], gs[|gs| - 1][i]);
  }

  lemma AdvancedMoments(c: Config, c': Config, root: real -> real, t: nat, s: Moments, gs: seq<seq<real>>, n: nat)
    requires ConfigOk(c) && ConfigOk(c') && t > 0 && c'.beta1 == c.beta1 && c'.beta2 == c.beta2
    requires |gs| > 0 && |gs[|gs| - 1]| == n && MomentsAre(c, s, gs[..|gs| - 1], n)
    ensures MomentsAre(c, Advanced(RuleOf(c', root, t), s, gs[|gs| - 1]), gs, n)
  {
    var r := Advanced(RuleOf(c', root, t), s, gs[|gs| - 1]);
    forall i: nat | i < n ensures MomentsAt(c, r, gs, i) {
      AdvancedMomentsAt(c, c', root, t, s, gs, n, i);
    }
  }

  /** One step of a parameter that can move. */
  lemma OneMoreStep(c: Config, ratio: real, root: real -> real, st: Flat, id: ParamId, p: TrainableParam, gs: seq<seq<real>>)
    requires ConfigOk(c) && !p.frozen && |gs| > 0 && p.grad.data == gs[|gs| - 1] && GradFits(p)
    requires History(c, st, id, gs[..|gs| - 1], |p.data.data|)
    ensures var r := FlatParam(c, ratio, root, st, id, p);
            History(c, r.0, id, gs, |p.data.data|) && !r.1.frozen && |r.1.data.data| == |p.data.data|
  {
    var n := |p.data.data|;
    HistoryMoments(c, st, id, gs[..|gs| - 1], n);
    AdvancedMoments(c, RateFor(c, ratio, id), root, |gs|, MomentsOf(st.moments, id, n), gs, n);
  }

  lemma {:induction false} StepsKeepHistory(c: Config, ratio: real, root: real -> real, st: Flat, id: ParamId, p: TrainableParam, gs: seq<seq<real>>)
    requires ConfigOk(c) && !p.frozen && Fresh(st, id) && Shaped(gs, |p.data.data|)
    ensures var r := SteppedWith(c, ratio, root, st, id, p, gs);
            History(c, r.0, id, gs, |p.data.data|) && !r.1.frozen && |r.1.data.data| == |p.data.data|
  {
    if gs != [] {
      var before := gs[..|gs| - 1];
      StepsKeepHistory(c, ratio, root, st, id, p, before);
      var r := SteppedWith(c, ratio, root, st, id, p, before);
      OneMoreStep(c, ratio, root, r.0, id, WithGrad(r.1, gs[|gs| - 1]), gs);
    }
  }

  // ---------------------------------------------------------------- the step is taken on weighted means

  /** `mean` is the average of x(0), ..., x(n-1) with weights beta^(n-1), ..., 1. */
  ghost predicate IsMean(beta: real, n: nat, x: int -> real, mean: real) {
    mean * Decayed(beta, n, Ones()) == Decayed(beta, n, x)
  }

  lemma CorrectedIsMean(beta: real, n: nat, x: int -> real, m: real)
    requires 0.0 <= beta < 1.0 && n > 0 && m == (1.0 - beta) * Decayed(beta, n, x)
    ensures IsMean(beta, n, x, m / Correction(beta, n))
  {
    WeightsTotal(beta, n);
    var w, d, k, mean := Decayed(beta, n, Ones()), Decayed(beta, n, x), 1.0 - beta, m / Correction(beta, n);
    assert mean * Correction(beta, n) == m;
    assert mean * (k * w) == k * d;
    assert k * (mean * w) == mean * (k * w);
    Cancel(k, mean * w, d);
  }

  lemma Cancel(k: real, x: real, y: real)
    requires k != 0.0 && k * x == k * y
    ensures x == y
  {
    assert k * (x - y) == 0.0;
  }

  lemma {:induction false} WeightsPositive(beta: real, n: nat, x: int -> real)
    requires 0.0 <= beta && forall k {:trigger x(k)} :: x(k) >= 0.0
    ensures Decayed(beta, n, x) >= 0.0 && Decayed(beta, n, Ones()) >= (if n > 0 then 1.0 else 0.0)
  {
    if n > 0 {
      WeightsPositive(beta, n - 1, x);
      DecayedNext(beta, n - 1, x);
      DecayedNext(beta, n - 1, Ones());
      ProductNotNegative(beta, Decayed(beta, n - 1, x));
      ProductNotNegative(beta, Decayed(beta, n - 1, Ones()));
      assert x(n - 1) >= 0.0;
    }
  }

  lemma MeanNotNegative(beta: real, n: nat, x: int -> real, mean: real)
    requires 0.0 <= beta && n > 0 && IsMean(beta, n, x, mean) && forall k {:trigger x(k)} :: x(k) >= 0.0
    ensures mean >= 0.0
  {
    WeightsPositive(beta, n, x);
    var w := Decayed(beta, n, Ones());
    if mean < 0.0 { ProductPositive(-mean, w); }
  }

  /** The learning rate of a parameter: LoRA+ multiplies it for B matrices and leaves A matrices alone. */
  lemma LoraPlus(c: Config, ratio: real, root: real -> real, st: Flat, id: ParamId, p: TrainableParam)
    requires ConfigOk(c)
    ensures id.isA ==> FlatParam(c, ratio, root, st, id, p) == FlatParam(c, 1.0, root, st, id, p)
    ensures !id.isA ==> ConfigOk(c.(lr := c.lr * ratio)) && FlatParam(c, ratio, root, st, id, p) == FlatParam(c.(lr := c.lr * ratio), 1.0, root, st, id, p)
  {
    if id.isA {
      assert RateFor(c, ratio, id) == RateFor(c, 1.0, id);
    } else {
      var faster := c.(lr := c.lr * ratio);
      assert faster.lr * 1.0 == faster.lr;
      assert RateFor(faster, 1.0, id) == faster == RateFor(c, ratio, id);
    }
  }

  /** A frozen parameter keeps its data and loses its gradient; the optimizer does not notice it. */
  lemma FrozenStep(c: Config, ratio: real, root: real -> real, st: Flat, id: ParamId, p: TrainableParam)
    requires ConfigOk(c) && p.frozen
    ensures var r := FlatParam(c, ratio, root, st, id, p);
            r.0 == st && r.1.data == p.data && Like(r.1.grad, p.grad) && forall i :: 0 <= i < |r.1.grad.data| ==> r.1.grad.data[i] == 0.0
  {
  }

  /** Nothing but the data of the parameter, its own moments and its own step count changes. */
  lemma StepTouchesOne(c: Config, ratio: real, root: real -> real, st: Flat, id: ParamId, p: TrainableParam, other: ParamId)
    requires ConfigOk(c) && !p.frozen && other != id
    ensures var r := FlatParam(c, ratio, root, st, id, p);
            && r.1 == p.(data := Tensor(p.data.shape, r.1.data.data)) && r.0.stepCount == st.stepCount
            && id in r.0.paramSteps && r.0.paramSteps[id] == 1 + (if id in st.paramSteps then st.paramSteps[id] else 0)
            && (other in r.0.paramSteps <==> other in st.paramSteps) && (other in st.paramSteps ==> r.0.paramSteps[other] == st.paramSteps[other])
            && (other in r.0.moments <==> other in st.moments) && (other in st.moments ==> r.0.moments[other] == st.moments[other])
  {
  }

  /** One element moves from `was` to `now` on the averages `M` and `V`. */
  ghost predicate TakesStep(c: Config, root: real -> real, lr: real, M: real, V: real, was: real, now: real) {
    root(V) + c.eps > 0.0 && now == was - lr * (M / (root(V) + c.eps) + c.weightDecay * was)
  }

  /** Main theorem. Step a parameter that can move on any gradients, from an optimizer that does not know
      it. The last step subtracts lr * (M / (root(V) + eps) + weight decay * data), element by
      element, where M and V are the means of the gradients and of their squares so far, weighted by
      powers of the betas, and lr is multiplied by the LoRA+ ratio for a B matrix. */
  lemma StepIsOnMeans(c: Config, ratio: real, root: real -> real, st: Flat, id: ParamId, p: TrainableParam, gs: seq<seq<real>>, i: nat) returns (M: real, V: real)
    requires ConfigOk(c) && RootOk(root) && !p.frozen && Fresh(st, id) && Shaped(gs, |p.data.data|) && |gs| > 0 && i < |p.data.data|
    ensures IsMean(c.beta1, |gs|, Component(gs, i), M) && IsMean(c.beta2, |gs|, Squared(Component(gs, i)), V) && V >= 0.0
    ensures var (was, now) := (SteppedWith(c, ratio, root, st, id, p, gs[..|gs| - 1]).1.data.data, SteppedWith(c, ratio, root, st, id, p, gs).1.data.data);
            |was| == |now| == |p.data.data| && TakesStep(c, root, if id.isA then c.lr else c.lr * ratio, M, V, was[i], now[i])
  {
    StepsKeepHistory(c, ratio, root, st, id, p, gs[..|gs| - 1]);
    var before, s := SteppedWith(c, ratio, root, st, id, p, gs[..|gs| - 1]), SteppedWith(c, ratio, root, st, id, p, gs).0;
    OneMoreStep(c, ratio, root, before.0, id, WithGrad(before.1, gs[|gs| - 1]), gs);
    HistoryMoments(c, before.0, id, gs[..|gs| - 1], |p.data.data|);
    M, V := Means(c, s.moments[id], gs, |p.data.data|, i);
    DataAfter(c, ratio, root, before.0, id, WithGrad(before.1, gs[|gs| - 1]), |gs|, i);
  }

  /** The bias-corrected moments are means. */
  lemma Means(c: Config, s: Moments, gs: seq<seq<real>>, n: nat, i: nat) returns (M: real, V: real)
    requires ConfigOk(c) && |gs| > 0 && MomentsAre(c, s, gs, n) && i < n
    ensures M == s.m[i] / Correction(c.beta1, |gs|) && V == s.v[i] / Correction(c.beta2, |gs|)
    ensures IsMean(c.beta1, |gs|, Component(gs, i), M) && IsMean(c.beta2, |gs|, Squared(Component(gs, i)), V) && V >= 0.0
  {
    assert MomentsAt(c, s, gs, i);
    M, V := s.m[i] / Correction(c.beta1, |gs|), s.v[i] / Correction(c.beta2, |gs|);
    CorrectedIsMean(c.beta1, |gs|, Component(gs, i), s.m[i]);
    CorrectedIsMean(c.beta2, |gs|, Squared(Component(gs, i)), s.v[i]);
    SquaresNotNegative(Component(gs, i));
    MeanNotNegative(c.beta2, |gs|, Squared(Component(gs, i)), V);
  }

  lemma SquaresNotNegative(x: int -> real)
    ensures forall k {:trigger Squared(x)(k)} :: Squared(x)(k) >= 0.0
  {
    forall k ensures Squared(x)(k) >= 0.0 { SquareNotNegative(x(k)); }
  }

  /** The data of one step, from the moments it leaves. */
  lemma DataAfter(c: Config, ratio: real, root: real -> real, st: Flat, id: ParamId, p: TrainableParam, t: nat, i: nat)
    requires ConfigOk(c) && RootOk(root) && !p.frozen && t == StepsOf(st.paramSteps, id) && i < |p.data.data|
    requires var s := MomentsOf(st.moments, id, |p.data.data|); |s.m| == |s.v| == |p.data.data|
    ensures var r := FlatParam(c, ratio, root, st, id, p);
            && id in r.0.moments && i < |r.0.moments[id].m| && i < |r.0.moments[id].v| && |r.1.data.data| == |p.data.data|
            && var (m, v) := (r.0.moments[id].m[i], r.0.moments[id].v[i]);
               TakesStep(c, root, if id.isA then c.lr else c.lr * ratio, m / Correction(c.beta1, t), v / Correction(c.beta2, t), p.data.data[i], r.1.data.data[i])
  {
    var r := FlatParam(c, ratio, root, st, id, p);
    var s := r.0.moments[id];
    var c' := RateFor(c, ratio, id);
    assert r.1.data.data[i] == NewD(c', root, t, p.data.data[i], s.m[i], s.v[i]);
    DescentIs(c', root, t, p.data.data[i], s.m[i], s.v[i]);
  }

  lemma DescentIs(c: Config, root: real -> real, t: nat, d: real, m: real, v: real)
    requires ConfigOk(c) && RootOk(root) && t > 0
    ensures TakesStep(c, root, c.lr, m / Correction(c.beta1, t), v / Correction(c.beta2, t), d, NewD(c, root, t, d, m, v))
  {
    assert root(v / Correction(c.beta2, t)) >= 0.0;
  }
}
