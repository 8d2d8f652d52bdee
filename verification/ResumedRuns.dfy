/** Resuming from a saved state. Saving keeps the weights and moments but not the per-parameter step
    counts, so a resumed run restarts the bias correction; this says when that goes unnoticed. */
module ResumedRuns {
  import opened Sums
  import opened Tensors
  import opened PagedAdamW
  import opened AdamWRuns

  /** Without a learning rate, or without any memory, the step count does not matter. */
  predicate ForgetsTime(c: Config) {
    c.lr == 0.0 || (c.beta1 == 0.0 && c.beta2 == 0.0)
  }

  // ---------------------------------------------------------------- corrections

  lemma Shrink(a: real, b: real)
    requires 0.0 < a && 0.0 < b < 1.0
    ensures 0.0 < a * b < a
  {
    ProductPositive(a, b);
    ProductPositive(a, 1.0 - b);
    assert a * (1.0 - b) == a - a * b;
  }

  lemma {:induction false} PowerPositive(b: real, t: nat)
    requires 0.0 < b < 1.0
    ensures Power(b, t) > 0.0
  {
    if t > 0 {
      PowerPositive(b, t - 1);
      ProductPositive(Power(b, t - 1), b);
    }
  }

  lemma PowerNext(b: real, t: nat) returns (p: real, q: real)
    ensures p == Power(b, t) && q == Power(b, t + 1) && q == p * b
  {
    p, q := Power(b, t), Power(b, t + 1);
  }

  lemma PowerFalls(b: real, t: nat)
    requires 0.0 < b < 1.0
    ensures Power(b, t + 1) < Power(b, t)
  {
    PowerPositive(b, t);
    var p, q := PowerNext(b, t);
    ShrinksTo(p, b, q);
  }

  lemma ShrinksTo(a: real, b: real, q: real)
    requires 0.0 < a && 0.0 < b < 1.0 && q == a * b
    ensures q < a
  {
    Shrink(a, b);
  }

  lemma {:induction false} PowersFall(b: real, t: nat, u: nat)
    requires 0.0 < b < 1.0 && t < u
    ensures Power(b, u) < Power(b, t)
    decreases u
  {
    PowerFalls(b, u - 1);
    if t < u - 1 { PowersFall(b, t, u - 1); }
  }

  lemma CorrectionsDiffer(b: real, t: nat, u: nat)
    requires 0.0 < b < 1.0 && t != u && t > 0 && u > 0
    ensures Correction(b, t) != Correction(b, u)
  {
    if t < u { PowersFall(b, t, u); } else { PowersFall(b, u, t); }
  }

  lemma CorrectionOfZero(t: nat)
    requires t > 0
    ensures Correction(0.0, t) == 1.0
  {
    assert Power(0.0, t) == Power(0.0, t - 1) * 0.0 == 0.0;
  }

  // ---------------------------------------------------------------- roots

  lemma SquaresEqual(a: real, b: real)
    requires a >= 0.0 && b >= 0.0 && a * a == b * b
    ensures a == b
  {
    assert (a - b) * (a + b) == 0.0;
    if a != b {
      NonZero(a - b, a + b);
    }
  }

  lemma NonZero(a: real, b: real)
    requires a != 0.0 && b != 0.0
    ensures a * b != 0.0
  {
  }

  lemma ProductOfSquares(a: real, b: real, x: real, y: real)
    requires a * a == x && b * b == y
    ensures (a * b) * (a * b) == x * y
  {
    assert (a * b) * (a * b) == (a * a) * (b * b);
  }

  lemma RootOfProduct(root: real -> real, x: real, y: real, p: real)
    requires IsRoot(root) && x >= 0.0 && y >= 0.0 && p == x * y
    ensures root(p) == root(x) * root(y)
  {
    ProductNotNegative(x, y);
    var a, b, r := root(x), root(y), root(p);
    assert RootAt(root, x) && RootAt(root, y) && RootAt(root, p);
    ProductOfSquares(a, b, x, y);
    ProductNotNegative(a, b);
    SquaresEqual(r, a * b);
  }

  lemma RootsDiffer(root: real -> real, x: real, y: real)
    requires IsRoot(root) && x >= 0.0 && y >= 0.0 && x != y
    ensures root(x) != root(y)
  {
    assert RootAt(root, x) && RootAt(root, y);
  }

  // ---------------------------------------------------------------- one element

  /** What divides the first moment at step `t`. */
  function Divisor(c: Config, root: real -> real, t: nat, v: real): real
    requires ConfigOk(c) && t > 0
  {
    Correction(c.beta1, t) * (root(v / Correction(c.beta2, t)) + c.eps)
  }

  lemma DivideTwice(m: real, p: real, q: real)
    requires p != 0.0 && q != 0.0
    ensures p * q != 0.0 && m / p / q == m / (p * q)
  {
    NonZero(p, q);
    var x := m / p / q;
    assert x * q == m / p;
    assert (m / p) * p == m;
    assert x * (p * q) == (x * q) * p;
  }

  lemma QuotientBy(v: real, k: real)
    requires v >= 0.0 && k > 0.0
    ensures v / k >= 0.0 && v / k == v * (1.0 / k) && 1.0 / k > 0.0
  {
  }

  /** The step is the first moment over the divisor, plus the decay. */
  lemma StepIs(c: Config, root: real -> real, t: nat, d: real, m: real, v: real)
    requires ConfigOk(c) && t > 0 && IsRoot(root) && v >= 0.0
    ensures Divisor(c, root, t, v) != 0.0
    ensures NewD(c, root, t, d, m, v) == d - c.lr * (m / Divisor(c, root, t, v) + c.weightDecay * d)
  {
    QuotientBy(v, Correction(c.beta2, t));
    assert RootAt(root, v / Correction(c.beta2, t));
    DivideTwice(m, Correction(c.beta1, t), root(v / Correction(c.beta2, t)) + c.eps);
  }

  lemma Scaled(lr: real, x: real, y: real)
    requires lr != 0.0 && x != y
    ensures lr * x != lr * y
  {
    NonZero(lr, x - y);
    assert lr * (x - y) == lr * x - lr * y;
  }

  lemma SameFactor(x: real, p: real, q: real)
    requires x != 0.0 && x * p == x * q
    ensures p == q
  {
    assert x * (p - q) == 0.0;
    if p != q { NonZero(x, p - q); }
  }

  lemma QuotientsDiffer(m: real, p: real, q: real)
    requires m != 0.0 && p != 0.0 && q != 0.0 && p != q
    ensures m / p != m / q
  {
    var x, y := m / p, m / q;
    assert x * p == m && y * q == m;
    if x == y { SameFactor(x, p, q); }
  }

  lemma StepsDiffer(c: Config, root: real -> real, t: nat, u: nat, d: real, m: real, v: real)
    requires ConfigOk(c) && t > 0 && u > 0 && IsRoot(root) && v >= 0.0 && c.lr != 0.0 && m != 0.0
    requires Divisor(c, root, t, v) != Divisor(c, root, u, v)
    ensures NewD(c, root, t, d, m, v) != NewD(c, root, u, d, m, v)
  {
    StepIs(c, root, t, d, m, v);
    StepIs(c, root, u, d, m, v);
    var p, q := Divisor(c, root, t, v), Divisor(c, root, u, v);
    QuotientsDiffer(m, p, q);
    Scaled(c.lr, m / p + c.weightDecay * d, m / q + c.weightDecay * d);
  }

  lemma SameStep(c: Config, root: real -> real, t: nat, u: nat, d: real, m: real, v: real)
    requires ConfigOk(c) && t > 0 && u > 0 && (ForgetsTime(c) || t == u)
    ensures NewD(c, root, t, d, m, v) == NewD(c, root, u, d, m, v)
  {
    if c.lr != 0.0 && t != u {
      CorrectionOfZero(t);
      CorrectionOfZero(u);
    }
  }

  // ---------------------------------------------------------------- a gradient that shows it

  /** Two lines in `a`, of different offsets, do not meet twice. */
  lemma MeetOnce(p: real, q: real, x: real, y: real, a: real, b: real, e: real)
    requires p * (a * x + e) == q * (a * y + e) && p * (b * x + e) == q * (b * y + e) && a != b
    ensures p * e == q * e
  {
    var k, px, qy := p * x - q * y, p * x, q * y;
    assert a * px + p * e == a * qy + q * e && b * px + p * e == b * qy + q * e;
    assert (a - b) * k == 0.0;
    if k != 0.0 { NonZero(a - b, k); }
  }

  lemma DivisorIs(c: Config, root: real -> real, t: nat, v: real)
    requires ConfigOk(c) && t > 0 && IsRoot(root) && v >= 0.0
    ensures Divisor(c, root, t, v) == Correction(c.beta1, t) * (root(v) * root(1.0 / Correction(c.beta2, t)) + c.eps)
  {
    var k := Correction(c.beta2, t);
    QuotientBy(v, k);
    RootOfProduct(root, v, 1.0 / k, v / k);
  }

  /** With a remembered first moment the divisors of two steps agree for at most one second moment. */
  lemma DivisorsMeetOnce(c: Config, root: real -> real, t: nat, u: nat, v: real, w: real)
    requires ConfigOk(c) && t > 0 && u > 0 && t != u && IsRoot(root) && c.beta1 > 0.0 && v >= 0.0 && w >= 0.0 && v != w
    ensures Divisor(c, root, t, v) != Divisor(c, root, u, v) || Divisor(c, root, t, w) != Divisor(c, root, u, w)
  {
    DivisorIs(c, root, t, v); DivisorIs(c, root, u, v); DivisorIs(c, root, t, w); DivisorIs(c, root, u, w);
    CorrectionsDiffer(c.beta1, t, u);
    RootsDiffer(root, v, w);
    var p, q := Correction(c.beta1, t), Correction(c.beta1, u);
    if Divisor(c, root, t, v) == Divisor(c, root, u, v) && Divisor(c, root, t, w) == Divisor(c, root, u, w) {
      MeetOnce(p, q, root(1.0 / Correction(c.beta2, t)), root(1.0 / Correction(c.beta2, u)), root(v), root(w), c.eps);
      SameFactor(c.eps, p, q);
    }
  }

  /** With only the second moment remembered they differ for every positive one. */
  lemma DivisorsNeverMeet(c: Config, root: real -> real, t: nat, u: nat, v: real)
    requires ConfigOk(c) && t > 0 && u > 0 && t != u && IsRoot(root) && c.beta1 == 0.0 && c.beta2 > 0.0 && v > 0.0
    ensures Divisor(c, root, t, v) != Divisor(c, root, u, v)
  {
    CorrectionOfZero(t);
    CorrectionOfZero(u);
    CorrectionsDiffer(c.beta2, t, u);
    var a, b := Correction(c.beta2, t), Correction(c.beta2, u);
    QuotientBy(v, a);
    QuotientBy(v, b);
    QuotientsDiffer(v, a, b);
    RootsDiffer(root, v / a, v / b);
  }

  lemma NewVIs(c: Config, v: real, g: real, k: real, x: real, a: real, w: real)
    requires k == 1.0 - c.beta2 && x == g * g && a == c.beta2 * v && w == k * x
    ensures NewV(c, v, g) == a + w
  {
    Regrouped(k, g, g, x);
  }

  lemma Regrouped(k: real, g: real, h: real, x: real)
    requires x == g * h
    ensures k * g * h == k * x
  {
  }

  lemma Grows(k: real, x: real, y: real, kx: real, ky: real)
    requires k > 0.0 && x < y && kx == k * x && ky == k * y
    ensures kx < ky && (x > 0.0 ==> kx > 0.0)
  {
    ProductPositive(k, y - x);
    assert k * (y - x) == k * y - k * x;
    if x > 0.0 { ProductPositive(k, x); }
  }

  lemma SquareGrows(g: real, h: real, x: real, y: real)
    requires 0.0 < g < h && x == g * g && y == h * h
    ensures 0.0 < x < y
  {
    ProductPositive(g, g);
    Grows(g, g, h, x, g * h);
    Grows(h, g, h, h * g, y);
  }

  lemma NewVGrows(c: Config, v: real, g: real, h: real)
    requires ConfigOk(c) && v >= 0.0 && 0.0 < g < h
    ensures 0.0 < NewV(c, v, g) < NewV(c, v, h)
  {
    var k, x, y, a := 1.0 - c.beta2, g * g, h * h, c.beta2 * v;
    var kx, ky := k * x, k * y;
    SquareGrows(g, h, x, y);
    Grows(k, x, y, kx, ky);
    NewVIs(c, v, g, k, x, a, kx);
    NewVIs(c, v, h, k, y, a, ky);
    ProductNotNegative(c.beta2, v);
  }

  lemma NewMIs(c: Config, m: real, g: real, k: real, a: real, w: real)
    requires k == 1.0 - c.beta1 && a == c.beta1 * m && w == k * g
    ensures NewM(c, m, g) == a + w
  {
  }

  lemma NewMGrows(c: Config, m: real, g: real, h: real)
    requires ConfigOk(c) && g < h
    ensures NewM(c, m, g) < NewM(c, m, h)
  {
    var k, a := 1.0 - c.beta1, c.beta1 * m;
    Grows(k, g, h, k * g, k * h);
    NewMIs(c, m, g, k, a, k * g);
    NewMIs(c, m, h, k, a, k * h);
  }

  /** Unless the time is forgotten, some gradient makes the two steps differ. */
  lemma Distinguishes(c: Config, root: real -> real, t: nat, u: nat, d: real, m: real, v: real) returns (g: real)
    requires ConfigOk(c) && t > 0 && u > 0 && t != u && IsRoot(root) && v >= 0.0 && !ForgetsTime(c)
    ensures NewD(c, root, t, d, NewM(c, m, g), NewV(c, v, g)) != NewD(c, root, u, d, NewM(c, m, g), NewV(c, v, g))
  {
    if c.beta1 == 0.0 {
      g := 1.0;
      NewVGrows(c, v, 1.0, 2.0);
      DivisorsNeverMeet(c, root, t, u, NewV(c, v, g));
    } else {
      NewMGrows(c, m, 1.0, 2.0);
      NewMGrows(c, m, 2.0, 3.0);
      var g1, g2 := if NewM(c, m, 1.0) != 0.0 then 1.0 else 2.0, if NewM(c, m, 3.0) != 0.0 then 3.0 else 2.0;
      NewVGrows(c, v, g1, g2);
      DivisorsMeetOnce(c, root, t, u, NewV(c, v, g1), NewV(c, v, g2));
      g := if Divisor(c, root, t, NewV(c, v, g1)) != Divisor(c, root, u, NewV(c, v, g1)) then g1 else g2;
    }
    StepsDiffer(c, root, t, u, d, NewM(c, m, g), NewV(c, v, g));
  }

  // ---------------------------------------------------------------- whole runs

  /** A parameter that steps can change. */
  predicate Live(p: TrainableParam) {
    !p.frozen && |p.data.data| > 0
  }

  /** The next step of this parameter has the same number, or its time is forgotten. */
  ghost predicate SameTime(c: Config, ratio: real, a: map<ParamId, nat>, b: map<ParamId, nat>, id: ParamId) {
    ForgetsTime(RateFor(c, ratio, id)) || StepsOf(a, id) == StepsOf(b, id)
  }

  ghost predicate SameTimes(c: Config, ratio: real, a: map<ParamId, nat>, b: map<ParamId, nat>, params: Params) {
    forall id {:trigger SameTime(c, ratio, a, b, id)} :: id in params && Live(params[id]) ==> SameTime(c, ratio, a, b, id)
  }

  /** Equal moments, and equal times where they matter. */
  ghost predicate Alike(c: Config, ratio: real, a: Flat, b: Flat, params: Params) {
    a.moments == b.moments && SameTimes(c, ratio, a.paramSteps, b.paramSteps, params)
  }

  ghost function AlikeWith(c: Config, ratio: real): (Flat, Flat, Params) -> bool {
    (a: Flat, b: Flat, params: Params) => Alike(c, ratio, a, b, params)
  }

  lemma SameUpdate(c: Config, root: real -> real, t: nat, u: nat, d: seq<real>, s: Moments)
    requires ConfigOk(c) && t > 0 && u > 0 && (ForgetsTime(c) || t == u || d == [])
    ensures Updated(RuleOf(c, root, t), d, s) == Updated(RuleOf(c, root, u), d, s)
  {
    forall i | 0 <= i < |d| ensures Updated(RuleOf(c, root, t), d, s)[i] == Updated(RuleOf(c, root, u), d, s)[i] {
      SameStep(c, root, t, u, d[i], At(s.m, i), At(s.v, i));
    }
  }

  lemma NextStaysAlike(c: Config, ratio: real, root: real -> real, a: Flat, b: Flat, params: Params, id: ParamId)
    requires ConfigOk(c) && Alike(c, ratio, a, b, params)
    ensures var f := FlatNext(c, ratio, root);
            f(a, params, id).1 == f(b, params, id).1 && Alike(c, ratio, f(a, params, id).0, f(b, params, id).0, f(b, params, id).1)
  {
    var f := FlatNext(c, ratio, root);
    if id in params && GradFits(params[id]) && !params[id].frozen {
      var own, p, t, u := RateFor(c, ratio, id), params[id], StepsOf(a.paramSteps, id), StepsOf(b.paramSteps, id);
      var s := Advanced(RuleOf(own, root, t), MomentsOf(a.moments, id, |p.data.data|), p.grad.data);
      assert s == Advanced(RuleOf(own, root, u), MomentsOf(b.moments, id, |p.data.data|), p.grad.data);
      if |p.data.data| > 0 {
        assert Live(p) && SameTime(c, ratio, a.paramSteps, b.paramSteps, id);
      } else {
        assert p.data.data == [];
      }
      SameUpdate(own, root, t, u, p.data.data, s);
      TimesAfter(c, ratio, a.paramSteps, b.paramSteps, params, params[id := WithData(p, Updated(RuleOf(own, root, t), p.data.data, s))], id);
    } else if id in params && GradFits(params[id]) {
      TimesKept(c, ratio, a.paramSteps, b.paramSteps, params, params[id := ZeroGrad(params[id])]);
    }
  }

  lemma TimesKept(c: Config, ratio: real, a: map<ParamId, nat>, b: map<ParamId, nat>, params: Params, after: Params)
    requires SameTimes(c, ratio, a, b, params) && after.Keys == params.Keys && forall o {:trigger after[o]} :: o in params ==> (Live(after[o]) ==> Live(params[o]))
    ensures SameTimes(c, ratio, a, b, after)
  {
  }

  lemma TimesAfter(c: Config, ratio: real, a: map<ParamId, nat>, b: map<ParamId, nat>, params: Params, after: Params, id: ParamId)
    requires SameTimes(c, ratio, a, b, params) && id in params && after.Keys == params.Keys
    requires forall o {:trigger after[o]} :: o in params ==> (Live(after[o]) ==> Live(params[o]))
    ensures SameTimes(c, ratio, a[id := StepsOf(a, id)], b[id := StepsOf(b, id)], after)
  {
    var a', b' := a[id := StepsOf(a, id)], b[id := StepsOf(b, id)];
    forall o | o in after && Live(after[o]) ensures SameTime(c, ratio, a', b', o) {
      assert Live(params[o]) && SameTime(c, ratio, a, b, o);
    }
  }

  lemma {:induction false} RunsStayAlike(c: Config, ratio: real, root: real -> real, a: Flat, b: Flat, params: Params, events: seq<Event>)
    requires ConfigOk(c) && Alike(c, ratio, a, b, params)
    ensures var (x, y) := (FlatRun(c, ratio, root, a, params, events), FlatRun(c, ratio, root, b, params, events));
            x.1 == y.1 && Alike(c, ratio, x.0, y.0, y.1)
  {
    if events != [] {
      var n := |events| - 1;
      RunsStayAlike(c, ratio, root, a, b, params, events[..n]);
      var x, y := FlatRun(c, ratio, root, a, params, events[..n]), FlatRun(c, ratio, root, b, params, events[..n]);
      TimesKept(c, ratio, x.0.paramSteps, y.0.paramSteps, y.1, WithGrads(y.1, events[n].grads));
      StepStaysAlike(c, ratio, root, x.0, y.0, WithGrads(y.1, events[n].grads), events[n].order);
    }
  }

  lemma StepStaysAlike(c: Config, ratio: real, root: real -> real, a: Flat, b: Flat, params: Params, order: seq<ParamId>)
    requires ConfigOk(c) && Alike(c, ratio, a, b, params)
    ensures var (x, y) := (FlatStep(c, ratio, root, a, params, order), FlatStep(c, ratio, root, b, params, order));
            x.1 == y.1 && Alike(c, ratio, x.0, y.0, y.1)
  {
    var f := FlatNext(c, ratio, root);
    forall a, b, params, id | Alike(c, ratio, a, b, params)
      ensures f(a, params, id).1 == f(b, params, id).1 && Alike(c, ratio, f(a, params, id).0, f(b, params, id).0, f(b, params, id).1)
    {
      NextStaysAlike(c, ratio, root, a, b, params, id);
    }
    FoldRelated(f, f, AlikeWith(c, ratio), a.(stepCount := a.stepCount + 1), b.(stepCount := b.stepCount + 1), params, order, |order|);
  }

  /** Stored moments have the sizes of their parameters, and no second moment is negative. */
  ghost predicate MomentsOk(f: Flat, params: Params) {
    forall id {:trigger f.moments[id]} :: id in params && id in f.moments ==>
      |f.moments[id].m| == |f.moments[id].v| == |params[id].data.data| && forall i :: 0 <= i < |f.moments[id].v| ==> f.moments[id].v[i] >= 0.0
  }

  /** One step of parameter `id` alone with all gradients `g`. */
  function OneStep(id: ParamId, n: nat, g: real): seq<Event> {
    [Event(map[id := seq(n, _ => g)], [id])]
  }

  lemma OneStepRuns(c: Config, ratio: real, root: real -> real, f: Flat, params: Params, id: ParamId, n: nat, g: real)
    requires ConfigOk(c)
    ensures FlatRun(c, ratio, root, f, params, OneStep(id, n, g)) ==
            FlatNext(c, ratio, root)(f.(stepCount := f.stepCount + 1), WithGrads(params, map[id := seq(n, _ => g)]), id)
  {
    var events, ready := OneStep(id, n, g), WithGrads(params, map[id := seq(n, _ => g)]);
    assert events[..0] == [] && FlatRun(c, ratio, root, f, params, []) == (f, params);
    var f1 := f.(stepCount := f.stepCount + 1);
    assert Fold(FlatNext(c, ratio, root), f1, ready, [id], 0) == (f1, ready);
  }

  lemma OneStepIs(c: Config, ratio: real, root: real -> real, f: Flat, params: Params, id: ParamId, g: real, own: Config)
    requires ConfigOk(c) && id in params && Live(params[id]) && MomentsOk(f, params) && own == RateFor(c, ratio, id)
    ensures var n := |params[id].data.data|;
            var s, r := MomentsOf(f.moments, id, n), FlatRun(c, ratio, root, f, params, OneStep(id, n, g)).1;
            && |s.m| == |s.v| == n && id in r && |r[id].data.data| == n && ConfigOk(own)
            && r[id].data.data[0] == NewD(own, root, StepsOf(f.paramSteps, id), params[id].data.data[0], NewM(own, s.m[0], g), NewV(own, s.v[0], g))
  {
    var n := |params[id].data.data|;
    var ready := WithGrads(params, map[id := seq(n, _ => g)]);
    OneStepRuns(c, ratio, root, f, params, id, n, g);
    LiveNext(c, ratio, root, f.(stepCount := f.stepCount + 1), ready, id, own);
    FirstElement(own, root, StepsOf(f.paramSteps, id), params[id].data.data, MomentsOf(f.moments, id, n), ready[id].grad.data, g);
  }

  lemma LiveNext(c: Config, ratio: real, root: real -> real, f: Flat, params: Params, id: ParamId, own: Config)
    requires ConfigOk(c) && id in params && GradFits(params[id]) && Live(params[id]) && own == RateFor(c, ratio, id)
    ensures ConfigOk(own)
    ensures var p, rule := params[id], RuleOf(own, root, StepsOf(f.paramSteps, id));
            var r := FlatNext(c, ratio, root)(f, params, id).1;
            id in r && r[id].data.data == Updated(rule, p.data.data, Advanced(rule, MomentsOf(f.moments, id, |p.data.data|), p.grad.data))
  {
  }

  lemma FirstElement(c: Config, root: real -> real, t: nat, d: seq<real>, s: Moments, grad: seq<real>, g: real)
    requires ConfigOk(c) && t > 0 && |d| == |s.m| == |s.v| == |grad| > 0 && grad[0] == g
    ensures Updated(RuleOf(c, root, t), d, Advanced(RuleOf(c, root, t), s, grad))[0] ==
            NewD(c, root, t, d[0], NewM(c, s.m[0], g), NewV(c, s.v[0], g))
  {
    var rule := RuleOf(c, root, t);
    var a := Advanced(rule, s, grad);
    assert a.m[0] == rule.m(s.m[0], g) && a.v[0] == rule.v(s.v[0], g);
    assert Updated(rule, d, a)[0] == rule.d(d[0], a.m[0], a.v[0]);
  }

  /** A live parameter that remembers the time and whose next step has another number gives the
      resumption away. */
  lemma TimesShow(c: Config, ratio: real, root: real -> real, f: Flat, steps: map<ParamId, nat>, params: Params, id: ParamId) returns (events: seq<Event>)
    requires ConfigOk(c) && IsRoot(root) && MomentsOk(f, params)
    requires id in params && Live(params[id]) && !SameTime(c, ratio, f.paramSteps, steps, id)
    ensures FlatRun(c, ratio, root, f, params, events).1 != FlatRun(c, ratio, root, f.(paramSteps := steps), params, events).1
  {
    var n := |params[id].data.data|;
    var s := MomentsOf(f.moments, id, n);
    assert |s.m| == |s.v| == n && s.v[0] >= 0.0;
    var own := RateFor(c, ratio, id);
    var g := Distinguishes(own, root, StepsOf(f.paramSteps, id), StepsOf(steps, id), params[id].data.data[0], s.m[0], s.v[0]);
    events := OneStep(id, n, g);
    OneStepIs(c, ratio, root, f, params, id, g, own);
    OneStepIs(c, ratio, root, f.(paramSteps := steps), params, id, g, own);
  }

  ghost predicate SameRun(c: Config, ratio: real, root: real -> real, f: Flat, steps: map<ParamId, nat>, params: Params, events: seq<Event>)
    requires ConfigOk(c)
  {
    FlatRun(c, ratio, root, f, params, events).1 == FlatRun(c, ratio, root, f.(paramSteps := steps), params, events).1
  }

  /** Main theorem. With weights and moments restored, continuing with the step counts `steps` is
      the uninterrupted run, whatever gradients follow, if and only if every live parameter forgets
      the time or takes the step number it would have had. */
  lemma ResumedRunIff(c: Config, ratio: real, root: real -> real, f: Flat, steps: map<ParamId, nat>, params: Params)
    requires ConfigOk(c) && IsRoot(root) && MomentsOk(f, params)
    ensures (forall events {:trigger SameRun(c, ratio, root, f, steps, params, events)} :: SameRun(c, ratio, root, f, steps, params, events)) <==>
            SameTimes(c, ratio, f.paramSteps, steps, params)
  {
    if SameTimes(c, ratio, f.paramSteps, steps, params) {
      forall events ensures SameRun(c, ratio, root, f, steps, params, events) {
        RunsStayAlike(c, ratio, root, f, f.(paramSteps := steps), params, events);
      }
    } else {
      var id :| id in params && Live(params[id]) && !SameTime(c, ratio, f.paramSteps, steps, id);
      var events := TimesShow(c, ratio, root, f, steps, params, id);
      assert !SameRun(c, ratio, root, f, steps, params, events);
    }
  }

  /** A fresh optimizer knows no step counts: loading into it resumes the run exactly when every
      live parameter forgets the time or had not been stepped. */
  lemma FreshResumeIff(c: Config, ratio: real, root: real -> real, f: Flat, params: Params)
    requires ConfigOk(c) && IsRoot(root) && MomentsOk(f, params)
    ensures (forall events {:trigger SameRun(c, ratio, root, f, map[], params, events)} :: SameRun(c, ratio, root, f, map[], params, events)) <==>
            forall id {:trigger f.paramSteps[id]} :: id in params && Live(params[id]) && id in f.paramSteps ==>
              ForgetsTime(RateFor(c, ratio, id)) || f.paramSteps[id] == 0
  {
    ResumedRunIff(c, ratio, root, f, map[], params);
    forall id ensures SameTime(c, ratio, f.paramSteps, map[], id) <==>
                      ForgetsTime(RateFor(c, ratio, id)) || (id in f.paramSteps ==> f.paramSteps[id] == 0)
    {
      assert StepsOf(map[], id) == 1;
    }
  }
}
