/** Moments kept as 8-bit codes with one scale. Each step decodes them, blends in the gradient,
    rescales by the largest magnitude and rounds. Over whole runs the stored moments stay close to
    the exact moving averages. */
module QuantisedMoments {
  import opened Sums
  import opened PagedAdamW

  type Byte = x: int | 0 <= x < 256

  /** The codes of one moment vector and their scale. */
  datatype Moment8 = Moment8(codes: seq<Byte>, scale: real)

  const FLOOR := 0.00000001

  function Max(x: real, y: real): real {
    if x < y then y else x
  }

  function ClampCode(k: int): (c: int)
    ensures -127 <= c <= 127
  {
    if k < -127 then -127 else if k > 127 then 127 else k
  }

  function Decode(code: Byte, scale: real): real {
    (code - 127) as real * scale
  }

  function Encode(x: real, top: real): Byte
    requires top > 0.0
  {
    ClampCode(Round(x / (top / 127.0))) + 127
  }

  function Stored(q: Moment8, i: nat): real
    requires i < |q.codes|
  {
    Decode(q.codes[i], q.scale)
  }

  /** The exact update of a moving average. */
  function Blend(beta: real, s: real, x: real): real {
    beta * s + (1.0 - beta) * x
  }

  function BlendAll(beta: real, q: Moment8, xs: seq<real>): (r: seq<real>)
    requires |xs| == |q.codes|
    ensures |r| == |xs| && forall i :: 0 <= i < |xs| ==> r[i] == Blend(beta, Stored(q, i), xs[i])
  {
    seq(|xs|, i requires 0 <= i < |xs| => Blend(beta, Stored(q, i), xs[i]))
  }

  /** The largest magnitude among the first `n` values, at least 0. */
  function LargestAbs(xs: seq<real>, n: nat): real
    requires n <= |xs|
  {
    if n == 0 then 0.0 else Max(LargestAbs(xs, n - 1), Abs(xs[n - 1]))
  }

  function Peak(xs: seq<real>): (top: real)
    ensures top > 0.0
  {
    Max(LargestAbs(xs, |xs|), FLOOR)
  }

  function EncodeAll(xs: seq<real>, top: real): (codes: seq<Byte>)
    requires top > 0.0
    ensures |codes| == |xs| && forall i :: 0 <= i < |xs| ==> codes[i] == Encode(xs[i], top)
  {
    seq(|xs|, i requires 0 <= i < |xs| => Encode(xs[i], top))
  }

  /** One step of a quantised moving average of `xs`. */
  function Advance(beta: real, q: Moment8, xs: seq<real>): (r: Moment8)
    requires |xs| == |q.codes|
    ensures |r.codes| == |xs|
  {
    var blended := BlendAll(beta, q, xs);
    var top := Peak(blended);
    Moment8(EncodeAll(blended, top), top / 127.0)
  }

  /** Every code starts at 127, which decodes to 0. */
  function Initial(n: nat): (q: Moment8)
    ensures |q.codes| == n && forall i :: 0 <= i < n ==> Stored(q, i) == 0.0
  {
    Moment8(seq(n, _ => 127), 1.0)
  }

  // ---------------------------------------------------------------- one element

  lemma {:induction false} LargestIsLargest(xs: seq<real>, n: nat, bound: real)
    requires n <= |xs| && bound >= 0.0 && forall i :: 0 <= i < n ==> Abs(xs[i]) <= bound
    ensures LargestAbs(xs, n) <= bound && forall i :: 0 <= i < n ==> Abs(xs[i]) <= LargestAbs(xs, n)
  {
    if n > 0 { LargestIsLargest(xs, n - 1, bound); }
  }

  lemma ScaledBack(x: real, s: real, y: real)
    requires s > 0.0 && Abs(x) <= 127.0 * s && y == x / s
    ensures Abs(y) <= 127.0 && y * s == x && (x >= 0.0 ==> y >= 0.0)
  {
    if y > 127.0 { Monotone(127.0, y, s); }
    if y < -127.0 { Monotone(y, -127.0, s); }
    if y < 0.0 { Monotone(y, 0.0, s); }
  }

  lemma Monotone(a: real, b: real, s: real)
    requires a < b && s > 0.0
    ensures a * s < b * s
  {
  }

  lemma Scaled(a: real, b: real, s: real)
    requires s > 0.0 && Abs(a) <= b
    ensures Abs(a * s) <= b * s
  {
  }

  lemma Rounds(x: real, s: real, y: real, k: int)
    requires s > 0.0 && Abs(x) <= 127.0 * s && y == x / s && k == Round(y)
    ensures -127 <= k <= 127 && (x >= 0.0 ==> k >= 0)
    ensures Abs(k as real * s - x) <= 0.5 * s && Abs(k as real * s) <= 127.0 * s
  {
    ScaledBack(x, s, y);
    Near(k as real, y, k as real - y, s, x);
    Scaled(k as real, 127.0, s);
  }

  lemma Near(k: real, y: real, d: real, s: real, x: real)
    requires s > 0.0 && Abs(d) <= 0.5 && k == y + d && y * s == x
    ensures Abs(k * s - x) <= 0.5 * s
  {
    Scaled(d, 0.5, s);
    Distribute(y, d, s, k);
    Apart(k * s, x, d * s, 0.5 * s);
  }

  lemma Apart(a: real, x: real, c: real, bound: real)
    requires a == x + c && Abs(c) <= bound
    ensures Abs(a - x) <= bound
  {
  }

  lemma Distribute(a: real, b: real, s: real, c: real)
    requires c == a + b
    ensures c * s == a * s + b * s
  {
  }

  /** A value no larger than the peak is stored to within half a step and never exceeds the peak. */
  lemma EncodeNear(x: real, top: real)
    requires top > 0.0 && Abs(x) <= top
    ensures var code := Encode(x, top);
            && code <= 254 && (x >= 0.0 ==> code >= 127)
            && Abs(Decode(code, top / 127.0) - x) <= top / 254.0
            && Abs(Decode(code, top / 127.0)) <= top
  {
    var s := top / 127.0;
    var y := x / s;
    var k := Round(y);
    Rounds(x, s, y, k);
    EncodedIs(x, top, s, y, k);
  }

  lemma EncodedIs(x: real, top: real, s: real, y: real, k: int)
    requires top > 0.0 && s == top / 127.0 && s > 0.0 && y == x / s && k == Round(y) && -127 <= k <= 127
    ensures Encode(x, top) == k + 127 && Decode(Encode(x, top), s) == k as real * s
  {
  }

  lemma Difference(a: real, b: real, s: real)
    ensures (a - b) * s == a * s - b * s
  {
  }

  lemma Contract(beta: real, e: real, d: real)
    requires 0.0 <= beta && Abs(e) <= d
    ensures Abs(beta * e) <= beta * d && (e >= 0.0 ==> beta * e >= 0.0)
  {
    if beta > 0.0 { Scaled(e, d, beta); }
  }

  lemma BlendIs(beta: real, s: real, x: real, k: real, p: real, q: real)
    requires k == 1.0 - beta && p == beta * s && q == k * x
    ensures Blend(beta, s, x) == p + q
  {
  }

  lemma BlendBounded(beta: real, s: real, x: real, bound: real)
    requires 0.0 <= beta < 1.0 && Abs(s) <= bound && Abs(x) <= bound
    ensures Abs(Blend(beta, s, x)) <= bound
    ensures s >= 0.0 && x >= 0.0 ==> Blend(beta, s, x) >= 0.0
  {
    var k := 1.0 - beta;
    var p, q := beta * s, k * x;
    Contract(beta, s, bound);
    Contract(k, x, bound);
    Difference(1.0, beta, bound);
    AddsUp(p, q, beta * bound, k * bound, bound);
    BlendIs(beta, s, x, k, p, q);
  }

  lemma AddsUp(p: real, q: real, a: real, b: real, bound: real)
    requires Abs(p) <= a && Abs(q) <= b && b == 1.0 * bound - a
    ensures Abs(p + q) <= bound
  {
  }

  /** H / (254 (1 - beta)), the fixpoint of d -> beta d + H / 254. */
  function Drift(beta: real, bound: real): real
    requires beta < 1.0
  {
    bound / 254.0 / (1.0 - beta)
  }

  lemma DriftIsFixpoint(beta: real, bound: real)
    requires 0.0 <= beta < 1.0 && bound >= 0.0
    ensures Drift(beta, bound) >= 0.0 && beta * Drift(beta, bound) + bound / 254.0 == Drift(beta, bound)
  {
    var d, w := Drift(beta, bound), 1.0 - beta;
    assert d * w == bound / 254.0;
    assert d * w == d - beta * d;
    if d < 0.0 { Monotone(d, 0.0, w); }
  }

  /** How the distance to the exact average grows in one step. */
  lemma DriftStep(beta: real, bound: real, stored: real, exact: real, x: real, next: real)
    requires 0.0 <= beta < 1.0 && bound >= 0.0
    requires Abs(stored - exact) <= Drift(beta, bound) && Abs(next - Blend(beta, stored, x)) <= bound / 254.0
    ensures Abs(next - Blend(beta, exact, x)) <= Drift(beta, bound)
  {
    var d := Drift(beta, bound);
    DriftIsFixpoint(beta, bound);
    Contract(beta, stored - exact, d);
    BlendGap(beta, stored, exact, x);
    Triangle(next, Blend(beta, stored, x), Blend(beta, exact, x), bound / 254.0, beta * d);
  }

  lemma BlendGap(beta: real, s: real, e: real, x: real)
    ensures Blend(beta, s, x) - Blend(beta, e, x) == beta * (s - e)
  {
  }

  lemma Triangle(a: real, b: real, c: real, u: real, w: real)
    requires Abs(a - b) <= u && Abs(b - c) <= w
    ensures Abs(a - c) <= w + u
  {
  }

  // ---------------------------------------------------------------- one step

  /** Element `i` is in range, bounded, close to the exact average, and nonnegative if asked. */
  ghost predicate TracksAt(beta: real, bound: real, positive: bool, q: Moment8, exact: seq<real>, i: nat)
    requires beta < 1.0 && i < |q.codes| == |exact|
  {
    && q.codes[i] <= 254
    && Abs(Stored(q, i)) <= bound
    && Abs(Stored(q, i) - exact[i]) <= Drift(beta, bound)
    && (positive ==> Stored(q, i) >= 0.0)
  }

  ghost predicate Tracks(beta: real, bound: real, positive: bool, q: Moment8, exact: seq<real>)
    requires beta < 1.0
  {
    |q.codes| == |exact| && forall i {:trigger TracksAt(beta, bound, positive, q, exact, i)} :: 0 <= i < |exact| ==> TracksAt(beta, bound, positive, q, exact, i)
  }

  /** Inputs of one step: as many as codes, within the bound, and nonnegative if asked. */
  ghost predicate Bounded(xs: seq<real>, bound: real, positive: bool) {
    forall i {:trigger xs[i]} :: 0 <= i < |xs| ==> Abs(xs[i]) <= bound && (positive ==> xs[i] >= 0.0)
  }

  function BlendExact(beta: real, exact: seq<real>, xs: seq<real>): (r: seq<real>)
    requires |xs| == |exact|
    ensures |r| == |xs| && forall i :: 0 <= i < |xs| ==> r[i] == Blend(beta, exact[i], xs[i])
  {
    seq(|xs|, i requires 0 <= i < |xs| => Blend(beta, exact[i], xs[i]))
  }

  lemma BlendedBounded(beta: real, bound: real, positive: bool, q: Moment8, exact: seq<real>, xs: seq<real>)
    requires 0.0 <= beta < 1.0 && |xs| == |exact| && Tracks(beta, bound, positive, q, exact) && Bounded(xs, bound, positive)
    ensures Bounded(BlendAll(beta, q, xs), bound, positive)
  {
    forall i | 0 <= i < |xs| ensures Abs(BlendAll(beta, q, xs)[i]) <= bound && (positive ==> BlendAll(beta, q, xs)[i] >= 0.0) {
      assert TracksAt(beta, bound, positive, q, exact, i);
      BlendBounded(beta, Stored(q, i), xs[i], bound);
    }
  }

  lemma StepTracks(beta: real, bound: real, positive: bool, q: Moment8, exact: seq<real>, xs: seq<real>)
    requires 0.0 <= beta < 1.0 && bound >= FLOOR && |xs| == |exact| && Tracks(beta, bound, positive, q, exact) && Bounded(xs, bound, positive)
    ensures Tracks(beta, bound, positive, Advance(beta, q, xs), BlendExact(beta, exact, xs))
  {
    var blended := BlendAll(beta, q, xs);
    BlendedBounded(beta, bound, positive, q, exact, xs);
    LargestIsLargest(blended, |blended|, bound);
    forall i | 0 <= i < |xs| ensures TracksAt(beta, bound, positive, Advance(beta, q, xs), BlendExact(beta, exact, xs), i) {
      assert TracksAt(beta, bound, positive, q, exact, i);
      EncodeNear(blended[i], Peak(blended));
      PositiveDecodes(Encode(blended[i], Peak(blended)), Peak(blended) / 127.0);
      DriftStep(beta, bound, Stored(q, i), exact[i], xs[i], Decode(Encode(blended[i], Peak(blended)), Peak(blended) / 127.0));
    }
  }

  lemma PositiveDecodes(code: Byte, scale: real)
    requires scale > 0.0
    ensures code >= 127 ==> Decode(code, scale) >= 0.0
  {
  }

  // ---------------------------------------------------------------- whole runs

  ghost predicate Shaped(n: nat, inputs: seq<seq<real>>) {
    forall t {:trigger inputs[t]} :: 0 <= t < |inputs| ==> |inputs[t]| == n
  }

  /** The quantised average after a run of inputs. */
  function Run(beta: real, n: nat, inputs: seq<seq<real>>): (q: Moment8)
    requires forall t {:trigger inputs[t]} :: 0 <= t < |inputs| ==> |inputs[t]| == n
    ensures |q.codes| == n
  {
    if inputs == [] then Initial(n)
    else Advance(beta, Run(beta, n, inputs[..|inputs| - 1]), inputs[|inputs| - 1])
  }

  /** The exact average after the same run. */
  function ExactRun(beta: real, n: nat, inputs: seq<seq<real>>): (e: seq<real>)
    requires forall t {:trigger inputs[t]} :: 0 <= t < |inputs| ==> |inputs[t]| == n
    ensures |e| == n
  {
    if inputs == [] then seq(n, _ => 0.0)
    else BlendExact(beta, ExactRun(beta, n, inputs[..|inputs| - 1]), inputs[|inputs| - 1])
  }

  lemma {:induction false} RunTracks(beta: real, bound: real, positive: bool, n: nat, inputs: seq<seq<real>>)
    requires 0.0 <= beta < 1.0 && bound >= FLOOR && Shaped(n, inputs)
    requires forall t {:trigger inputs[t]} :: 0 <= t < |inputs| ==> Bounded(inputs[t], bound, positive)
    ensures Tracks(beta, bound, positive, Run(beta, n, inputs), ExactRun(beta, n, inputs))
  {
    if inputs == [] {
      DriftIsFixpoint(beta, bound);
      forall i | 0 <= i < n ensures TracksAt(beta, bound, positive, Run(beta, n, inputs), ExactRun(beta, n, inputs), i) {
        assert Stored(Initial(n), i) == 0.0;
      }
    } else {
      var before := inputs[..|inputs| - 1];
      RunTracks(beta, bound, positive, n, before);
      StepTracks(beta, bound, positive, Run(beta, n, before), ExactRun(beta, n, before), inputs[|inputs| - 1]);
    }
  }

  function Squares(xs: seq<real>): (r: seq<real>)
    ensures |r| == |xs| && forall i :: 0 <= i < |xs| ==> r[i] == xs[i] * xs[i]
  {
    seq(|xs|, i requires 0 <= i < |xs| => xs[i] * xs[i])
  }

  function SquaresOf(runs: seq<seq<real>>): (r: seq<seq<real>>)
    ensures |r| == |runs| && forall t :: 0 <= t < |runs| ==> r[t] == Squares(runs[t])
  {
    seq(|runs|, t requires 0 <= t < |runs| => Squares(runs[t]))
  }

  lemma SquareBounded(x: real, bound: real)
    requires Abs(x) <= bound
    ensures 0.0 <= x * x <= bound * bound
  {
    var a := Abs(x);
    assert x * x == a * a;
    Product(a, bound);
  }

  lemma Product(a: real, b: real)
    requires 0.0 <= a <= b
    ensures 0.0 <= a * a <= b * b
  {
    assert a * a <= a * b <= b * b;
  }

  lemma SquaresBounded(xs: seq<real>, g: real, h: real)
    requires Bounded(xs, g, false) && h >= g * g
    ensures Bounded(Squares(xs), h, true)
  {
    forall i | 0 <= i < |xs| ensures Abs(Squares(xs)[i]) <= h && Squares(xs)[i] >= 0.0 {
      assert Abs(xs[i]) <= g;
      SquareBounded(xs[i], g);
    }
  }

  // ---------------------------------------------------------------- the step in place

  /** Three-factor products in the order the code multiplies. */
  lemma BlendSquare(beta: real, s: real, g: real)
    ensures beta * s + (1.0 - beta) * g * g == Blend(beta, s, g * g)
  {
    var sq := g * g;
    assert (1.0 - beta) * g * g == (1.0 - beta) * sq;
  }

  method LargestOf(xs: seq<real>) returns (top: real)
    ensures top == Peak(xs)
  {
    top := 0.0;
    for i := 0 to |xs|
      invariant top == LargestAbs(xs, i)
    {
      top := Max(top, Abs(xs[i]));
    }
    top := Max(top, FLOOR);
  }

  /** The update direction of one element, from the moments before they are quantised. */
  function Direction(beta1: real, beta2: real, eps: real, root: real -> real, t: nat, m: real, v: real): real
    requires 0.0 <= beta1 < 1.0 && 0.0 <= beta2 < 1.0 && t > 0
  {
    var denominator := root(v / Correction(beta2, t)) + eps;
    if denominator == 0.0 then 0.0 else m / Correction(beta1, t) / denominator
  }

  /** Decode, blend and find the direction of one element. */
  method BlendElement(beta1: real, beta2: real, eps: real, root: real -> real, t: nat, mCode: Byte, vCode: Byte, mScale: real, vScale: real, g: real)
    returns (m: real, v: real, u: real)
    requires 0.0 <= beta1 < 1.0 && 0.0 <= beta2 < 1.0 && t > 0 && eps > 0.0 && RootOk(root)
    ensures m == Blend(beta1, Decode(mCode, mScale), g) && v == Blend(beta2, Decode(vCode, vScale), g * g)
    ensures u == Direction(beta1, beta2, eps, root, t, m, v)
  {
    var mInt: int, vInt: int := mCode, vCode;
    var mValue := (mInt - 127) as real * mScale;
    var vValue := (vInt - 127) as real * vScale;
    m := beta1 * mValue + (1.0 - beta1) * g;
    v := beta2 * vValue + (1.0 - beta2) * g * g;
    BlendSquare(beta2, vValue, g);
    var mHat, vHat := m / Correction(beta1, t), v / Correction(beta2, t);
    assert root(vHat) >= 0.0;
    u := mHat / (root(vHat) + eps);
  }

  /** Decode, blend and find the direction of every element. */
  method BlendMoments(beta1: real, beta2: real, eps: real, root: real -> real, t: nat, mq: seq<Byte>, vq: seq<Byte>, mScale: real, vScale: real, g: seq<real>)
    returns (m: seq<real>, v: seq<real>, update: seq<real>)
    requires 0.0 <= beta1 < 1.0 && 0.0 <= beta2 < 1.0 && t > 0 && eps > 0.0 && RootOk(root) && |mq| == |vq| == |g|
    ensures m == BlendAll(beta1, Moment8(mq, mScale), g) && v == BlendAll(beta2, Moment8(vq, vScale), Squares(g))
    ensures |update| == |g| && forall i :: 0 <= i < |g| ==> update[i] == Direction(beta1, beta2, eps, root, t, m[i], v[i])
  {
    m, v, update := [], [], [];
    for i := 0 to |g|
      invariant |m| == |v| == |update| == i
      invariant m == BlendAll(beta1, Moment8(mq, mScale), g)[..i] && v == BlendAll(beta2, Moment8(vq, vScale), Squares(g))[..i]
      invariant forall k :: 0 <= k < i ==> update[k] == Direction(beta1, beta2, eps, root, t, m[k], v[k])
    {
      var mNew, vNew, u := BlendElement(beta1, beta2, eps, root, t, mq[i], vq[i], mScale, vScale, g[i]);
      m, v, update := m + [mNew], v + [vNew], update + [u];
      assert mNew == BlendAll(beta1, Moment8(mq, mScale), g)[i];
      assert vNew == BlendAll(beta2, Moment8(vq, vScale), Squares(g))[i] by {
        assert Squares(g)[i] == g[i] * g[i];
      }
    }
  }

  method EncodeInto(codes: array<Byte>, xs: seq<real>, top: real)
    requires codes.Length == |xs| && top > 0.0
    modifies codes
    ensures codes[..] == EncodeAll(xs, top)
  {
    for i := 0 to |xs|
      invariant codes[..i] == EncodeAll(xs, top)[..i]
    {
      codes[i] := ClampCode(Round(xs[i] / (top / 127.0))) + 127;
    }
  }

  /** The moment update of one projected parameter: both code vectors are rewritten in place. */
  method StepMoments(beta1: real, beta2: real, eps: real, root: real -> real, t: nat, mq: array<Byte>, vq: array<Byte>, mScale: real, vScale: real, g: seq<real>)
    returns (mScale': real, vScale': real, update: seq<real>)
    requires 0.0 <= beta1 < 1.0 && 0.0 <= beta2 < 1.0 && t > 0 && eps > 0.0 && RootOk(root)
    requires mq != vq && mq.Length == vq.Length == |g|
    modifies mq, vq
    ensures Moment8(mq[..], mScale') == Advance(beta1, Moment8(old(mq[..]), mScale), g)
    ensures Moment8(vq[..], vScale') == Advance(beta2, Moment8(old(vq[..]), vScale), Squares(g))
    ensures |update| == |g|
    ensures forall i :: 0 <= i < |g| ==>
      update[i] == Direction(beta1, beta2, eps, root, t, Blend(beta1, Stored(Moment8(old(mq[..]), mScale), i), g[i]),
                             Blend(beta2, Stored(Moment8(old(vq[..]), vScale), i), g[i] * g[i]))
  {
    var m, v;
    m, v, update := BlendMoments(beta1, beta2, eps, root, t, mq[..], vq[..], mScale, vScale, g);
    var topM := LargestOf(m);
    var topV := LargestOf(v);
    mScale', vScale' := topM / 127.0, topV / 127.0;
    EncodeInto(mq, m, topM);
    EncodeInto(vq, v, topV);
  }
}
