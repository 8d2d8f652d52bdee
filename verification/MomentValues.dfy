/** The update direction of the 8-bit optimizer against the exact one: over whole runs it is taken on
    averages that stay close to the exponentially weighted means of the gradients and their squares. */
module MomentValues {
  import opened Sums
  import opened PagedAdamW
  import AdamWRule
  import opened QuantisedMoments
  import opened MomentDrift

  /** Rounding is to the nearest whole number, halves away from zero. */
  lemma RoundIs(x: real, k: int)
    requires Abs(k as real - x) < 0.5 || (Abs(k as real - x) == 0.5 && Abs(k as real) > Abs(x))
    ensures Round(x) == k
  {
  }

  /** The greatest magnitude in `xs`, but at least 1e-8. */
  ghost predicate IsPeak(top: real, xs: seq<real>) {
    && top >= 0.00000001 && (forall j :: 0 <= j < |xs| ==> Abs(xs[j]) <= top)
    && (top > 0.00000001 ==> exists j :: 0 <= j < |xs| && Abs(xs[j]) == top)
  }

  lemma PeakIs(xs: seq<real>)
    ensures IsPeak(Peak(xs), xs)
  {
    LargestReached(xs, |xs|);
  }

  /** `code` is `x` in steps, counted from 127 and rounded; `y` is `x` in steps. */
  predicate IsCode(code: int, step: real, x: real, y: real) {
    y * step == x && code == 127 + Round(y)
  }

  lemma CodeFits(x: real, top: real) returns (y: real)
    requires top > 0.0 && Abs(x) <= top
    ensures IsCode(Encode(x, top), top / 127.0, x, y)
  {
    var s := top / 127.0;
    y := x / s;
    ScaledBack(x, s, y);
    Rounds(x, s, y, Round(y));
    EncodedIs(x, top, s, y, Round(y));
  }

  /** A stored code is the nearest whole number of steps, a step being the 127th part of the peak. */
  lemma CodeIs(beta: real, q: Moment8, xs: seq<real>, i: nat) returns (top: real, y: real)
    requires i < |xs| == |q.codes|
    ensures IsPeak(top, BlendAll(beta, q, xs)) && Advance(beta, q, xs).scale == top / 127.0
    ensures IsCode(Advance(beta, q, xs).codes[i], top / 127.0, Blend(beta, Stored(q, i), xs[i]), y)
  {
    var blended := BlendAll(beta, q, xs);
    top := Peak(blended);
    PeakIs(blended);
    y := CodeFits(blended[i], top);
  }

  lemma {:induction false} LargestReached(xs: seq<real>, n: nat)
    requires n <= |xs|
    ensures LargestAbs(xs, n) >= 0.0 && forall i :: 0 <= i < n ==> Abs(xs[i]) <= LargestAbs(xs, n)
    ensures LargestAbs(xs, n) > 0.0 ==> exists i :: 0 <= i < n && Abs(xs[i]) == LargestAbs(xs, n)
  {
    if n > 0 {
      LargestReached(xs, n - 1);
      assert Abs(xs[n - 1]) >= 0.0;
    }
  }

  // ---------------------------------------------------------------- the exact averages are weighted sums

  /** Component `i` of the exact average of a run. */
  lemma {:induction false} ExactIsDecayed(beta: real, n: nat, runs: seq<seq<real>>, i: nat)
    requires Shaped(n, runs) && i < n
    ensures ExactRun(beta, n, runs)[i] == (1.0 - beta) * AdamWRule.Decayed(beta, |runs|, AdamWRule.Component(runs, i))
  {
    if runs == [] {
      assert AdamWRule.Decayed(beta, 0, AdamWRule.Component(runs, i)) == 0.0;
    } else {
      var k, before := |runs| - 1, runs[..|runs| - 1];
      ExactIsDecayed(beta, n, before, i);
      var f, g := AdamWRule.Component(runs, i), AdamWRule.Component(before, i);
      forall t | 0 <= t < k ensures f(t) == g(t) {
        assert before[t] == runs[t];
      }
      AdamWRule.DecayedExt(beta, k, f, g);
      AdamWRule.DecayedNext(beta, k, f);
      AdamWRule.AverageNext(beta, AdamWRule.Decayed(beta, k, f), f(k), AdamWRule.Decayed(beta, k + 1, f), ExactRun(beta, n, before)[i]);
    }
  }

  /** The exact average, corrected, is the weighted mean. */
  lemma ExactMean(beta: real, n: nat, runs: seq<seq<real>>, i: nat) returns (mean: real)
    requires 0.0 <= beta < 1.0 && Shaped(n, runs) && |runs| > 0 && i < n
    ensures AdamWRule.IsMean(beta, |runs|, AdamWRule.Component(runs, i), mean)
    ensures mean == ExactRun(beta, n, runs)[i] / Correction(beta, |runs|)
  {
    ExactIsDecayed(beta, n, runs, i);
    mean := ExactRun(beta, n, runs)[i] / Correction(beta, |runs|);
    AdamWRule.CorrectedIsMean(beta, |runs|, AdamWRule.Component(runs, i), ExactRun(beta, n, runs)[i]);
  }

  // ---------------------------------------------------------------- the direction

  /** `near` is within `drift` of `mean` once both lose the bias correction of `t` steps. */
  ghost predicate NearMean(beta: real, t: nat, near: real, mean: real, drift: real) {
    Abs(near - mean) * (1.0 - Power(beta, t)) <= drift
  }

  lemma CorrectedNear(beta: real, t: nat, m: real, e: real, drift: real)
    requires 0.0 <= beta < 1.0 && t > 0 && Abs(m - e) <= drift
    ensures NearMean(beta, t, m / Correction(beta, t), e / Correction(beta, t), drift)
  {
    var c := Correction(beta, t);
    Quotients(m, e, c, m / c, e / c);
  }

  lemma Quotients(m: real, e: real, c: real, x: real, y: real)
    requires c > 0.0 && x == m / c && y == e / c
    ensures Abs(x - y) * c == Abs(m - e)
  {
    assert x * c == m && y * c == e;
    assert (x - y) * c == x * c - y * c;
    if x >= y { Grows(x, y, c); } else { Grows(y, x, c); }
  }

  lemma Grows(x: real, y: real, c: real)
    requires x >= y && c > 0.0
    ensures x * c >= y * c && (x - y) * c == x * c - y * c
  {
  }

  /** The moment a step blends, before it is stored again, from the run before it. */
  function Blended(beta: real, n: nat, runs: seq<seq<real>>, i: nat): real
    requires Shaped(n, runs) && |runs| > 0 && i < n
  {
    Blend(beta, Stored(Run(beta, n, runs[..|runs| - 1]), i), runs[|runs| - 1][i])
  }

  /** How far a blend may be from the exact average: beta h / (254 (1 - beta)). */
  function Held(beta: real, h: real): real
    requires beta < 1.0
  {
    beta * (h / 254.0 / (1.0 - beta))
  }

  lemma BlendNear(beta: real, h: real, s: real, e: real, x: real)
    requires 0.0 <= beta < 1.0 && Abs(s - e) <= Drift(beta, h)
    ensures Abs(Blend(beta, s, x) - Blend(beta, e, x)) <= Held(beta, h)
  {
    BlendGap(beta, s, e, x);
    Contract(beta, s - e, Drift(beta, h));
  }

  /** What was stored had drifted; the blend has drifted by beta times that. */
  lemma BlendedNear(beta: real, h: real, positive: bool, n: nat, runs: seq<seq<real>>, i: nat)
    requires 0.0 <= beta < 1.0 && h >= 0.00000001 && Shaped(n, runs) && |runs| > 0 && i < n
    requires forall t {:trigger runs[t]} :: 0 <= t < |runs| ==> Bounded(runs[t], h, positive)
    ensures Abs(Blended(beta, n, runs, i) - ExactRun(beta, n, runs)[i]) <= Held(beta, h)
    ensures positive ==> Blended(beta, n, runs, i) >= 0.0
  {
    var before, x := runs[..|runs| - 1], runs[|runs| - 1];
    var q, e := Run(beta, n, before), ExactRun(beta, n, before);
    RunTracks(beta, h, positive, n, before);
    assert TracksAt(beta, h, positive, q, e, i);
    BlendNear(beta, h, Stored(q, i), e[i], x[i]);
    assert Bounded(x, h, positive);
    BlendBounded(beta, Stored(q, i), x[i], h);
    LastExact(beta, n, runs, i);
  }

  lemma LastExact(beta: real, n: nat, runs: seq<seq<real>>, i: nat)
    requires Shaped(n, runs) && |runs| > 0 && i < n
    ensures ExactRun(beta, n, runs)[i] == Blend(beta, ExactRun(beta, n, runs[..|runs| - 1])[i], runs[|runs| - 1][i])
  {
  }

  lemma CorrectedSign(beta: real, t: nat, v: real)
    requires 0.0 <= beta < 1.0 && t > 0 && v >= 0.0
    ensures v / Correction(beta, t) >= 0.0
  {
    var c := Correction(beta, t);
    var y := v / c;
    assert y * c == v;
    if y < 0.0 { Monotone(y, 0.0, c); }
  }

  /** A moment after a run: near the weighted mean, and not negative where its inputs are not. */
  lemma MomentNearMean(beta: real, h: real, positive: bool, n: nat, runs: seq<seq<real>>, i: nat) returns (near: real, mean: real)
    requires 0.0 <= beta < 1.0 && h >= 0.00000001 && Shaped(n, runs) && |runs| > 0 && i < n
    requires forall t {:trigger runs[t]} :: 0 <= t < |runs| ==> Bounded(runs[t], h, positive)
    ensures near == Blended(beta, n, runs, i) / Correction(beta, |runs|) && (positive ==> near >= 0.0)
    ensures AdamWRule.IsMean(beta, |runs|, AdamWRule.Component(runs, i), mean)
    ensures NearMean(beta, |runs|, near, mean, Held(beta, h))
  {
    var m, t := Blended(beta, n, runs, i), |runs|;
    BlendedNear(beta, h, positive, n, runs, i);
    mean := ExactMean(beta, n, runs, i);
    near := m / Correction(beta, t);
    CorrectedNear(beta, t, m, ExactRun(beta, n, runs)[i], Held(beta, h));
    if positive { CorrectedSign(beta, t, m); }
  }

  /** `u` is `M` divided by root(V) + eps. */
  ghost predicate Directed(u: real, root: real -> real, eps: real, M: real, V: real) {
    root(V) + eps > 0.0 && u * (root(V) + eps) == M
  }

  lemma DirectionIs(beta1: real, beta2: real, eps: real, root: real -> real, t: nat, m: real, v: real, M: real, V: real)
    requires 0.0 <= beta1 < 1.0 && 0.0 <= beta2 < 1.0 && t > 0 && eps > 0.0 && RootOk(root)
    requires M == m / Correction(beta1, t) && V == v / Correction(beta2, t)
    ensures Directed(Direction(beta1, beta2, eps, root, t, m, v), root, eps, M, V)
  {
    assert root(V) >= 0.0;
  }

  /** Main theorem. The direction of step t of any run of gradients within `g` is M / (root(V) + eps), where
      M and V are near the means of the gradients and of their squares, weighted by powers of the
      betas: with 1 - beta^t on the left, within beta h / (254 (1 - beta)), h the bound but at least 1e-8;
      and V is not negative. */
  lemma DirectionIsNearMeans(beta1: real, beta2: real, eps: real, root: real -> real, g: real, n: nat, grads: seq<seq<real>>, i: nat)
      returns (M: real, V: real, mean: real, square: real)
    requires 0.0 <= beta1 < 1.0 && 0.0 <= beta2 < 1.0 && eps > 0.0 && RootOk(root)
    requires Shaped(n, grads) && |grads| > 0 && i < n && AllBounded(grads, g)
    ensures V >= 0.0 && Directed(Direction(beta1, beta2, eps, root, |grads|, Blended(beta1, n, grads, i), Blended(beta2, n, SquaresOf(grads), i)), root, eps, M, V)
    ensures AdamWRule.IsMean(beta1, |grads|, AdamWRule.Component(grads, i), mean)
    ensures AdamWRule.IsMean(beta2, |grads|, AdamWRule.Squared(AdamWRule.Component(grads, i)), square)
    ensures NearMean(beta1, |grads|, M, mean, Held(beta1, Max(g, 0.00000001)))
    ensures NearMean(beta2, |grads|, V, square, Held(beta2, Max(g * g, 0.00000001)))
  {
    var h1, h2, squares := Max(g, 0.00000001), Max(g * g, 0.00000001), SquaresOf(grads);
    BoundsHold(grads, g, h1, h2);
    M, mean := MomentNearMean(beta1, h1, false, n, grads, i);
    V, square := MomentNearMean(beta2, h2, true, n, squares, i);
    SquaresMean(beta2, grads, n, i, square);
    DirectionIs(beta1, beta2, eps, root, |grads|, Blended(beta1, n, grads, i), Blended(beta2, n, squares, i), M, V);
  }

  lemma BoundsHold(grads: seq<seq<real>>, g: real, h1: real, h2: real)
    requires AllBounded(grads, g) && h1 >= g && h2 >= g * g
    ensures forall t {:trigger grads[t]} :: 0 <= t < |grads| ==> Bounded(grads[t], h1, false)
    ensures forall t {:trigger SquaresOf(grads)[t]} :: 0 <= t < |grads| ==> Bounded(SquaresOf(grads)[t], h2, true)
  {
    forall t | 0 <= t < |grads| ensures Bounded(grads[t], h1, false) && Bounded(SquaresOf(grads)[t], h2, true) {
      assert Bounded(grads[t], g, false);
      SquaresBounded(grads[t], g, h2);
    }
  }

  lemma SquaresMean(beta: real, grads: seq<seq<real>>, n: nat, i: nat, mean: real)
    requires Shaped(n, grads) && i < n && AdamWRule.IsMean(beta, |grads|, AdamWRule.Component(SquaresOf(grads), i), mean)
    ensures AdamWRule.IsMean(beta, |grads|, AdamWRule.Squared(AdamWRule.Component(grads, i)), mean)
  {
    var f, h := AdamWRule.Component(SquaresOf(grads), i), AdamWRule.Squared(AdamWRule.Component(grads, i));
    forall k | 0 <= k < |grads| ensures f(k) == h(k) {
      assert SquaresOf(grads)[k] == Squares(grads[k]);
    }
    AdamWRule.DecayedExt(beta, |grads|, f, h);
  }
}
