/** What 8-bit moments promise over whole runs: how far they drift from the exact averages, and
    when they stay within the gradients' own bound. Peaks below 1e-8 are raised to it, so small
    moments live on a fixed grid of step 1e-8 / 127, where rounding up can overshoot. */
module MomentDrift {
  import opened Sums
  import opened QuantisedMoments

  /** A value counted in grid steps, 127 of them to 1e-8. */
  function InSteps(x: real): real {
    x * 12700000000.0
  }

  function OfSteps(y: real): real {
    y / 12700000000.0
  }

  /** A bound, counted in grid steps: the whole steps and what is left of one. */
  function Whole(g: real): int {
    InSteps(g).Floor
  }

  function Fraction(g: real): real {
    InSteps(g) - Whole(g) as real
  }

  /** No step rounds past the bound `g`. */
  predicate NeverOvershoots(beta: real, g: real) {
    g >= FLOOR || (1.0 - beta) * Fraction(g) < 0.5
  }

  // ---------------------------------------------------------------- rounding on the grid

  lemma RoundsWithin(y: real, n: int)
    requires n >= 0 && Abs(y) < n as real + 0.5
    ensures -n <= Round(y) <= n
  {
  }

  lemma RoundsUp(y: real, k: int)
    requires k >= 0 && y >= k as real + 0.5
    ensures Round(y) >= k + 1
  {
  }

  lemma GridSteps(g: real)
    requires g >= 0.0
    ensures Whole(g) >= 0 && 0.0 <= Fraction(g) < 1.0 && InSteps(g) == Whole(g) as real + Fraction(g)
    ensures g < FLOOR ==> InSteps(g) < 127.0
  {
  }

  /** What fits below the bound is at most its whole steps. */
  lemma WholeStepsFit(g: real, k: int)
    requires g >= 0.0
    ensures Abs(OfSteps(k as real)) <= g <==> -Whole(g) <= k <= Whole(g)
  {
  }

  /** A blend of grid values, counted in steps. */
  lemma BlendOnGrid(beta: real, k: real, x: real)
    ensures InSteps(Blend(beta, OfSteps(k), x)) == Blend(beta, k, InSteps(x))
  {
    Factored(beta, OfSteps(k), x, k, InSteps(x));
  }

  lemma Factored(beta: real, s: real, x: real, k: real, u: real)
    requires k == s * 12700000000.0 && u == x * 12700000000.0
    ensures (beta * s + (1.0 - beta) * x) * 12700000000.0 == beta * k + (1.0 - beta) * u
  {
    var a, b := beta * s, (1.0 - beta) * x;
    assert beta * k == a * 12700000000.0;
    assert (1.0 - beta) * u == b * 12700000000.0;
  }

  /** The scale of a peak raised to the floor divides into grid steps. */
  lemma FloorScale(x: real, s: real)
    requires s == FLOOR / 127.0
    ensures x / s == InSteps(x)
  {
    SameQuotient(x, s, x / s, InSteps(x));
  }

  lemma SameQuotient(x: real, s: real, y: real, z: real)
    requires s > 0.0 && y == x / s && z == x * 12700000000.0 && s * 12700000000.0 == 1.0
    ensures y == z
  {
    assert y * s == x;
    assert z == y * (s * 12700000000.0);
  }

  // ---------------------------------------------------------------- small moments

  /** How many grid steps code `i` stands for. */
  function CodeSteps(q: Moment8, i: nat): int
    requires i < |q.codes|
  {
    var code: int := q.codes[i];
    code - 127
  }

  /** Every element is at most `n` grid steps from zero, on the grid. */
  ghost predicate OnGrid(q: Moment8, n: int) {
    forall i: nat {:trigger CodeSteps(q, i)} :: i < |q.codes| ==>
      -n <= CodeSteps(q, i) <= n && (CodeSteps(q, i) == 0 || q.scale == OfSteps(1.0))
  }

  lemma GridValue(q: Moment8, n: int, i: nat)
    requires OnGrid(q, n) && i < |q.codes|
    ensures Stored(q, i) == OfSteps(CodeSteps(q, i) as real)
  {
    var k := CodeSteps(q, i);
    if k == 0 {
      assert 0.0 * q.scale == 0.0;
    } else {
      assert k as real * OfSteps(1.0) == OfSteps(k as real);
    }
  }

  /** Every stored value is within `g`. */
  ghost predicate Within(q: Moment8, g: real) {
    forall i: nat {:trigger Stored(q, i)} :: i < |q.codes| ==> Abs(Stored(q, i)) <= g
  }

  lemma GridWithin(q: Moment8, g: real)
    requires g >= 0.0 && OnGrid(q, Whole(g))
    ensures Within(q, g)
  {
    forall i: nat | i < |q.codes| ensures Abs(Stored(q, i)) <= g {
      GridValue(q, Whole(g), i);
      WholeStepsFit(g, CodeSteps(q, i));
    }
  }

  lemma SmallPeak(beta: real, g: real, q: Moment8, xs: seq<real>)
    requires 0.0 <= beta < 1.0 && 0.0 <= g < FLOOR && |xs| == |q.codes| && Within(q, g) && Bounded(xs, g, false)
    ensures Peak(BlendAll(beta, q, xs)) == FLOOR
    ensures forall j {:trigger BlendAll(beta, q, xs)[j]} :: 0 <= j < |xs| ==> Abs(BlendAll(beta, q, xs)[j]) <= g
  {
    var blended := BlendAll(beta, q, xs);
    forall j | 0 <= j < |xs| ensures Abs(blended[j]) <= g {
      assert Abs(Stored(q, j)) <= g;
      BlendBounded(beta, Stored(q, j), xs[j], g);
    }
    LargestIsLargest(blended, |blended|, g);
  }

  /** The target of element `i`, in grid steps. */
  function Target(beta: real, q: Moment8, xs: seq<real>, i: nat): real
    requires i < |q.codes| == |xs|
  {
    Blend(beta, CodeSteps(q, i) as real, InSteps(xs[i]))
  }

  /** One step below the floor rounds every element to the grid. */
  lemma SmallStep(beta: real, g: real, q: Moment8, n: int, xs: seq<real>, i: nat)
    requires 0.0 <= beta < 1.0 && 0.0 <= g < FLOOR && |xs| == |q.codes| && i < |xs|
    requires OnGrid(q, n) && Bounded(xs, g, false) && Within(q, g)
    ensures Advance(beta, q, xs).scale == OfSteps(1.0)
    ensures CodeSteps(Advance(beta, q, xs), i) == Round(Target(beta, q, xs, i))
  {
    var blended := BlendAll(beta, q, xs);
    SmallPeak(beta, g, q, xs);
    GridValue(q, n, i);
    BlendOnGrid(beta, CodeSteps(q, i) as real, xs[i]);
    FloorScale(blended[i], FLOOR / 127.0);
    GridSteps(g);
    Encoded(blended[i], InSteps(blended[i]), g);
  }

  lemma Encoded(x: real, y: real, g: real)
    requires Abs(x) <= g < FLOOR && y == InSteps(x) && x / (FLOOR / 127.0) == y
    ensures Encode(x, FLOOR) == Round(y) + 127
  {
    assert Abs(y) <= 127.0;
  }

  /** Where nothing overshoots, small moments stay within the whole steps of the bound. */
  lemma StepStaysOnGrid(beta: real, g: real, q: Moment8, xs: seq<real>)
    requires 0.0 <= beta < 1.0 && 0.0 <= g < FLOOR && NeverOvershoots(beta, g) && |xs| == |q.codes|
    requires OnGrid(q, Whole(g)) && Bounded(xs, g, false)
    ensures OnGrid(Advance(beta, q, xs), Whole(g))
  {
    GridWithin(q, g);
    var r := Advance(beta, q, xs);
    forall i: nat | i < |xs| ensures -Whole(g) <= CodeSteps(r, i) <= Whole(g) && r.scale == OfSteps(1.0) {
      SmallStep(beta, g, q, Whole(g), xs, i);
      TargetWithin(beta, g, q, xs, i);
    }
  }

  lemma TargetWithin(beta: real, g: real, q: Moment8, xs: seq<real>, i: nat)
    requires 0.0 <= beta < 1.0 && 0.0 <= g && (1.0 - beta) * Fraction(g) < 0.5 && i < |xs| == |q.codes|
    requires OnGrid(q, Whole(g)) && Bounded(xs, g, false)
    ensures -Whole(g) <= Round(Target(beta, q, xs, i)) <= Whole(g)
  {
    GridSteps(g);
    assert Abs(xs[i]) <= g;
    BlendBelowHalf(beta, CodeSteps(q, i) as real, InSteps(xs[i]), Whole(g) as real, Fraction(g));
    RoundsWithin(Target(beta, q, xs, i), Whole(g));
  }

  lemma BlendBelowHalf(beta: real, k: real, u: real, n: real, f: real)
    requires 0.0 <= beta < 1.0 && Abs(k) <= n && Abs(u) <= n + f && (1.0 - beta) * f < 0.5
    ensures Abs(Blend(beta, k, u)) < n + 0.5
  {
    Contract(beta, k, n);
    Contract(1.0 - beta, u, n + f);
    Shares(beta, n, f);
    SumBelow(beta * k, (1.0 - beta) * u, beta * n, (1.0 - beta) * (n + f), n + 0.5);
  }

  lemma SumBelow(p: real, q: real, a: real, b: real, bound: real)
    requires Abs(p) <= a && Abs(q) <= b && a + b < bound
    ensures Abs(p + q) < bound
  {
  }

  lemma Shares(beta: real, n: real, f: real)
    ensures beta * n + (1.0 - beta) * (n + f) == n + (1.0 - beta) * f
  {
  }

  lemma {:induction false} RunStaysOnGrid(beta: real, g: real, n: nat, inputs: seq<seq<real>>)
    requires 0.0 <= beta < 1.0 && 0.0 <= g < FLOOR && NeverOvershoots(beta, g) && Shaped(n, inputs)
    requires forall t {:trigger inputs[t]} :: 0 <= t < |inputs| ==> Bounded(inputs[t], g, false)
    ensures OnGrid(Run(beta, n, inputs), Whole(g))
  {
    if inputs == [] {
      GridSteps(g);
    } else {
      var before := inputs[..|inputs| - 1];
      RunStaysOnGrid(beta, g, n, before);
      StepStaysOnGrid(beta, g, Run(beta, n, before), inputs[|inputs| - 1]);
    }
  }

  // ---------------------------------------------------------------- overshooting runs

  /** The input `g` everywhere. */
  function Level(g: real, n: nat): (xs: seq<real>)
    ensures |xs| == n && forall i :: 0 <= i < n ==> xs[i] == g
  {
    seq(n, _ => g)
  }

  /** The same input `t` times. */
  function Constant(g: real, n: nat, t: nat): (runs: seq<seq<real>>)
    ensures |runs| == t && forall j :: 0 <= j < t ==> runs[j] == Level(g, n)
  {
    seq(t, _ => Level(g, n))
  }

  function ConstantRun(beta: real, g: real, n: nat, t: nat): (q: Moment8)
    ensures |q.codes| == n
  {
    Run(beta, n, Constant(g, n, t))
  }

  ghost predicate ConstantKept(beta: real, g: real, n: nat) {
    forall t: nat {:trigger ConstantRun(beta, g, n, t)} :: Within(ConstantRun(beta, g, n, t), g)
  }

  lemma OneMoreConstant(beta: real, g: real, n: nat, t: nat)
    ensures ConstantRun(beta, g, n, t + 1) == Advance(beta, ConstantRun(beta, g, n, t), Level(g, n))
  {
    assert Constant(g, n, t + 1)[..t] == Constant(g, n, t) && Constant(g, n, t + 1)[t] == Level(g, n);
  }

  /** Every element has climbed at least `t` grid steps, and none past the bound. */
  ghost predicate Climbed(q: Moment8, g: real, t: nat) {
    OnGrid(q, Whole(g)) && forall i: nat {:trigger CodeSteps(q, i)} :: i < |q.codes| ==> CodeSteps(q, i) >= t
  }

  /** Where a rounding can overshoot, a constant input climbs a grid step at a time for as long as
      it stays within its own bound. */
  lemma {:induction false} Climbs(beta: real, g: real, n: nat, t: nat)
    requires 0.0 <= beta < 1.0 && 0.0 <= g && !NeverOvershoots(beta, g) && ConstantKept(beta, g, n)
    ensures Climbed(ConstantRun(beta, g, n, t), g, t)
  {
    if t == 0 {
      GridSteps(g);
    } else {
      Climbs(beta, g, n, t - 1);
      OneMoreConstant(beta, g, n, t - 1);
      StepClimbs(beta, g, ConstantRun(beta, g, n, t - 1), t - 1);
    }
  }

  lemma StepClimbs(beta: real, g: real, q: Moment8, t: nat)
    requires 0.0 <= beta < 1.0 && 0.0 <= g && !NeverOvershoots(beta, g) && Climbed(q, g, t)
    requires Within(Advance(beta, q, Level(g, |q.codes|)), g)
    ensures Climbed(Advance(beta, q, Level(g, |q.codes|)), g, t + 1)
  {
    var xs := Level(g, |q.codes|);
    var r := Advance(beta, q, xs);
    GridWithin(q, g);
    forall i: nat | i < |xs| ensures t + 1 <= CodeSteps(r, i) <= Whole(g) && r.scale == OfSteps(1.0) {
      SmallStep(beta, g, q, Whole(g), xs, i);
      TargetRises(beta, g, q, i, t);
      ScaledCode(r, i);
      assert Abs(Stored(r, i)) <= g;
      WholeStepsFit(g, CodeSteps(r, i));
    }
  }

  lemma ScaledCode(r: Moment8, i: nat)
    requires i < |r.codes| && r.scale == OfSteps(1.0)
    ensures Stored(r, i) == OfSteps(CodeSteps(r, i) as real)
  {
    assert CodeSteps(r, i) as real * OfSteps(1.0) == OfSteps(CodeSteps(r, i) as real);
  }

  lemma TargetRises(beta: real, g: real, q: Moment8, i: nat, t: nat)
    requires 0.0 <= beta < 1.0 && 0.0 <= g && (1.0 - beta) * Fraction(g) >= 0.5 && i < |q.codes|
    requires Climbed(q, g, t)
    ensures Round(Target(beta, q, Level(g, |q.codes|), i)) >= t + 1
  {
    GridSteps(g);
    var k := CodeSteps(q, i);
    BlendRises(beta, k as real, InSteps(g), Fraction(g));
    RoundsUp(Blend(beta, k as real, InSteps(g)), k);
  }

  /** beta k + (1 - beta) u == k + (1 - beta)(u - k). */
  lemma BlendRises(beta: real, k: real, u: real, f: real)
    requires 0.0 <= beta < 1.0 && u - k >= f && (1.0 - beta) * f >= 0.5
    ensures Blend(beta, k, u) >= k + 0.5
  {
    Rises(beta, k, u, u - k);
    AtLeast(1.0 - beta, f, u - k);
  }

  lemma Rises(beta: real, k: real, u: real, d: real)
    requires u == k + d
    ensures Blend(beta, k, u) == k + (1.0 - beta) * d
  {
    Shares(beta, k, d);
  }

  lemma AtLeast(w: real, f: real, d: real)
    requires w > 0.0 && f <= d
    ensures w * f <= w * d
  {
  }

  lemma OvershootsOnce(beta: real, g: real, n: nat)
    requires 0.0 <= beta < 1.0 && 0.0 <= g && !NeverOvershoots(beta, g) && n > 0
    ensures !ConstantKept(beta, g, n)
  {
    if ConstantKept(beta, g, n) {
      GridSteps(g);
      Climbs(beta, g, n, Whole(g) + 1);
      NoRoom(ConstantRun(beta, g, n, Whole(g) + 1), g, 0);
    }
  }

  lemma NoRoom(q: Moment8, g: real, i: nat)
    requires g >= 0.0 && i < |q.codes| && Whole(g) >= 0
    ensures !Climbed(q, g, Whole(g) + 1)
  {
    var k := CodeSteps(q, i);
    assert k <= Whole(g) || k >= Whole(g) + 1;
  }

  // ---------------------------------------------------------------- main results

  /** Every gradient of every step is at most `g` in magnitude. */
  ghost predicate AllBounded(grads: seq<seq<real>>, g: real) {
    forall t {:trigger grads[t]} :: 0 <= t < |grads| ==> Bounded(grads[t], g, false)
  }

  /** Stored first moments never exceed the gradients' bound, whatever the run. */
  ghost predicate FirstMomentKept(beta1: real, g: real, n: nat) {
    forall grads, i: nat {:trigger FirstMomentAt(beta1, g, n, grads, i)} :: FirstMomentAt(beta1, g, n, grads, i)
  }

  ghost predicate FirstMomentAt(beta1: real, g: real, n: nat, grads: seq<seq<real>>, i: nat) {
    Shaped(n, grads) && AllBounded(grads, g) && i < n ==> Abs(Stored(Run(beta1, n, grads), i)) <= g
  }

  /** Stored second moments never exceed the square of the gradients' bound. */
  ghost predicate SecondMomentKept(beta2: real, g: real, n: nat) {
    forall grads, i: nat {:trigger SecondMomentAt(beta2, g, n, grads, i)} :: SecondMomentAt(beta2, g, n, grads, i)
  }

  ghost predicate SecondMomentAt(beta2: real, g: real, n: nat, grads: seq<seq<real>>, i: nat) {
    Shaped(n, grads) && AllBounded(grads, g) && i < n ==> Abs(Stored(Run(beta2, n, SquaresOf(grads)), i)) <= g * g
  }

  /** Main theorem. Over every run of gradients of magnitude at most `g`, with h = max(g, 1e-8): the
      first moment's codes stay in 0..254, the stored first moment stays within
      h / (254 (1 - beta1)) of the exact moving average, and it never exceeds h; nor `g` itself
      wherever no rounding overshoots. */
  lemma FirstMomentDrift(beta1: real, g: real, n: nat, grads: seq<seq<real>>, i: nat)
    requires 0.0 <= beta1 < 1.0 && Shaped(n, grads) && i < n && AllBounded(grads, g)
    ensures var (q, e, h) := (Run(beta1, n, grads), ExactRun(beta1, n, grads), Max(g, FLOOR));
            && 0 <= q.codes[i] <= 254
            && Abs(Stored(q, i)) <= (if g >= 0.0 && NeverOvershoots(beta1, g) then g else h)
            && Abs(Stored(q, i) - e[i]) <= h / 254.0 / (1.0 - beta1)
  {
    var h := Max(g, FLOOR);
    forall t | 0 <= t < |grads| ensures Bounded(grads[t], h, false) {
      assert Bounded(grads[t], g, false);
    }
    RunTracks(beta1, h, false, n, grads);
    assert TracksAt(beta1, h, false, Run(beta1, n, grads), ExactRun(beta1, n, grads), i);
    if 0.0 <= g < FLOOR && NeverOvershoots(beta1, g) {
      RunStaysOnGrid(beta1, g, n, grads);
      GridWithin(Run(beta1, n, grads), g);
    }
  }

  /** Main theorem. Likewise for the second moment, with the square of `g` for `g`; and it never goes
      negative, so its square root exists. */
  lemma SecondMomentDrift(beta2: real, g: real, n: nat, grads: seq<seq<real>>, i: nat)
    requires 0.0 <= beta2 < 1.0 && Shaped(n, grads) && i < n && AllBounded(grads, g)
    ensures var (q, e, h) := (Run(beta2, n, SquaresOf(grads)), ExactRun(beta2, n, SquaresOf(grads)), Max(g * g, FLOOR));
            && 0 <= q.codes[i] <= 254
            && 0.0 <= Stored(q, i) <= (if NeverOvershoots(beta2, g * g) then g * g else h)
            && Abs(Stored(q, i) - e[i]) <= h / 254.0 / (1.0 - beta2)
  {
    var sq, inputs := g * g, SquaresOf(grads);
    var h := Max(sq, FLOOR);
    forall t | 0 <= t < |inputs| ensures Bounded(inputs[t], h, true) && Bounded(inputs[t], sq, false) {
      SquaresBounded(grads[t], g, h);
      SquaresBounded(grads[t], g, sq);
    }
    RunTracks(beta2, h, true, n, inputs);
    assert TracksAt(beta2, h, true, Run(beta2, n, inputs), ExactRun(beta2, n, inputs), i);
    if sq < FLOOR && NeverOvershoots(beta2, sq) {
      SquareNotNegative(g);
      RunStaysOnGrid(beta2, sq, n, inputs);
      GridWithin(Run(beta2, n, inputs), sq);
    }
  }

  /** Main theorem. The first moment keeps the gradients' own bound over every run exactly when the
      bound is at least 1e-8 or its fraction of a grid step, weighted by 1 - beta1, is below one
      half. In particular always for beta1 >= 1/2. */
  lemma FirstMomentKeptIff(beta1: real, g: real, n: nat)
    requires 0.0 <= beta1 < 1.0 && g >= 0.0 && n > 0
    ensures FirstMomentKept(beta1, g, n) <==> NeverOvershoots(beta1, g)
    ensures beta1 >= 0.5 ==> NeverOvershoots(beta1, g)
  {
    HalfIsEnough(beta1, g);
    if NeverOvershoots(beta1, g) {
      forall grads, i: nat ensures FirstMomentAt(beta1, g, n, grads, i) {
        if Shaped(n, grads) && AllBounded(grads, g) && i < n { FirstMomentDrift(beta1, g, n, grads, i); }
      }
    } else if FirstMomentKept(beta1, g, n) {
      forall t: nat, i: nat | i < n ensures Abs(Stored(ConstantRun(beta1, g, n, t), i)) <= g {
        assert FirstMomentAt(beta1, g, n, Constant(g, n, t), i);
      }
      OvershootsOnce(beta1, g, n);
    }
  }

  lemma HalfIsEnough(beta: real, g: real)
    requires g >= 0.0
    ensures 0.5 <= beta < 1.0 ==> NeverOvershoots(beta, g)
  {
    if 0.5 <= beta < 1.0 {
      GridSteps(g);
      LessThanHalf(1.0 - beta, Fraction(g));
    }
  }

  lemma LessThanHalf(w: real, f: real)
    requires 0.0 < w <= 0.5 && 0.0 <= f < 1.0
    ensures w * f < 0.5
  {
    Monotone(f, 1.0, w);
  }

  /** Main theorem. Likewise for the second moment and the square of the bound. */
  lemma SecondMomentKeptIff(beta2: real, g: real, n: nat)
    requires 0.0 <= beta2 < 1.0 && g >= 0.0 && n > 0
    ensures SecondMomentKept(beta2, g, n) <==> NeverOvershoots(beta2, g * g)
    ensures beta2 >= 0.5 ==> NeverOvershoots(beta2, g * g)
  {
    SquareNotNegative(g);
    HalfIsEnough(beta2, g * g);
    if NeverOvershoots(beta2, g * g) {
      SecondMomentIsKept(beta2, g, n);
    } else if SecondMomentKept(beta2, g, n) {
      SquaresKept(beta2, g, n);
      OvershootsOnce(beta2, g * g, n);
    }
  }

  lemma SecondMomentIsKept(beta2: real, g: real, n: nat)
    requires 0.0 <= beta2 < 1.0 && g >= 0.0 && NeverOvershoots(beta2, g * g)
    ensures SecondMomentKept(beta2, g, n)
  {
    forall grads, i: nat ensures SecondMomentAt(beta2, g, n, grads, i) {
      if Shaped(n, grads) && AllBounded(grads, g) && i < n { SecondMomentDrift(beta2, g, n, grads, i); }
    }
  }

  /** A constant gradient has constant squares. */
  lemma SquaresKept(beta2: real, g: real, n: nat)
    requires g >= 0.0 && SecondMomentKept(beta2, g, n)
    ensures ConstantKept(beta2, g * g, n)
  {
    var h := g * g;
    forall t: nat ensures Within(ConstantRun(beta2, h, n, t), h) {
      ConstantSquares(g, n, t);
      forall i: nat | i < n ensures Abs(Stored(ConstantRun(beta2, h, n, t), i)) <= h {
        assert SecondMomentAt(beta2, g, n, Constant(g, n, t), i);
      }
    }
  }

  lemma ConstantSquares(g: real, n: nat, t: nat)
    ensures SquaresOf(Constant(g, n, t)) == Constant(g * g, n, t)
  {
    forall j | 0 <= j < t ensures SquaresOf(Constant(g, n, t))[j] == Constant(g * g, n, t)[j] {
      LevelSquares(g, n, g * g);
    }
  }

  lemma LevelSquares(g: real, n: nat, h: real)
    requires h == g * g
    ensures Squares(Level(g, n)) == Level(h, n)
  {
    forall i | 0 <= i < n ensures Squares(Level(g, n))[i] == h {
      assert Level(g, n)[i] == g;
    }
  }
}
