/** The two optimizers as objects: `step_param` with whole-buffer component arithmetic on flat
    moments, and `step_param` with a loop over pages and a loop over each page's elements. Each is
    tied to the step it is meant to take. */
module OptimizerLoops {
  import opened Sums
  import opened Places
  import opened Tensors
  import opened PagedAdamW
  import opened AdamWRuns

  // ---------------------------------------------------------------- device operations on buffers

  function MulScalar(x: seq<real>, s: real): (r: seq<real>)
    ensures |r| == |x| && forall i :: 0 <= i < |x| ==> r[i] == x[i] * s
  {
    seq(|x|, i requires 0 <= i < |x| => x[i] * s)
  }

  function AddBuffers(x: seq<real>, y: seq<real>): (r: seq<real>)
    requires |x| == |y|
    ensures |r| == |x| && forall i :: 0 <= i < |x| ==> r[i] == x[i] + y[i]
  {
    seq(|x|, i requires 0 <= i < |x| => x[i] + y[i])
  }

  function MulBuffers(x: seq<real>, y: seq<real>): (r: seq<real>)
    requires |x| == |y|
    ensures |r| == |x| && forall i :: 0 <= i < |x| ==> r[i] == x[i] * y[i]
  {
    seq(|x|, i requires 0 <= i < |x| => x[i] * y[i])
  }

  function RootBuffer(root: real -> real, x: seq<real>): (r: seq<real>)
    ensures |r| == |x| && forall i :: 0 <= i < |x| ==> r[i] == root(x[i])
  {
    seq(|x|, i requires 0 <= i < |x| => root(x[i]))
  }

  function Recip(x: real): real {
    if x == 0.0 then 0.0 else 1.0 / x
  }

  function RecipBuffer(x: seq<real>): (r: seq<real>)
    ensures |r| == |x| && forall i :: 0 <= i < |x| ==> r[i] == Recip(x[i])
  {
    seq(|x|, i requires 0 <= i < |x| => Recip(x[i]))
  }

  // ---------------------------------------------------------------- component arithmetic is the rule

  lemma DivIs(a: real, b: real)
    requires b != 0.0
    ensures a * (1.0 / b) == a / b
  {
  }

  lemma MomentComponents(c: Config, m: real, v: real, g: real, mScaled: real, gScaled: real, gSquared: real, vScaled: real, gSquaredScaled: real)
    requires mScaled == m * c.beta1 && gScaled == g * (1.0 - c.beta1)
    requires gSquared == g * g && vScaled == v * c.beta2 && gSquaredScaled == gSquared * (1.0 - c.beta2)
    ensures mScaled + gScaled == NewM(c, m, g) && vScaled + gSquaredScaled == NewV(c, v, g)
  {
    Assoc(g, g, 1.0 - c.beta2, gSquared);
  }

  lemma DataComponents(c: Config, root: real -> real, t: nat, d: real, m: real, v: real, mHat: real, vHat: real, denominator: real, ratio: real, decay: real, step: real)
    requires ConfigOk(c) && RootOk(root) && t > 0
    requires mHat == m * (1.0 / Correction(c.beta1, t)) && vHat == v * (1.0 / Correction(c.beta2, t))
    requires denominator == root(vHat) + c.eps && ratio == mHat * Recip(denominator)
    requires decay == d * c.weightDecay && step == (ratio + decay) * c.lr
    ensures d + step * -1.0 == NewD(c, root, t, d, m, v)
  {
    DivIs(m, Correction(c.beta1, t));
    DivIs(v, Correction(c.beta2, t));
    assert root(vHat) >= 0.0;
    DivIs(mHat, denominator);
    Descends(c, root, t, d, m, v, mHat, vHat, ratio, ratio + decay);
  }

  /** The new weight, from named intermediate values. */
  lemma Descends(c: Config, root: real -> real, t: nat, d: real, m: real, v: real, mHat: real, vHat: real, ratio: real, step: real)
    requires ConfigOk(c) && RootOk(root) && t > 0
    requires mHat == m / Correction(c.beta1, t) && vHat == v / Correction(c.beta2, t)
    requires root(vHat) + c.eps != 0.0 && ratio == mHat / (root(vHat) + c.eps) && step == ratio + c.weightDecay * d
    ensures d - c.lr * step == NewD(c, root, t, d, m, v)
  {
  }

  // ---------------------------------------------------------------- AdamW

  /** Gradients and stored moments have the length of their parameter. */
  ghost predicate FlatFitsOne(st: Flat, id: ParamId, p: TrainableParam) {
    GradFits(p) && var s := MomentsOf(st.moments, id, |p.data.data|); |s.m| == |s.v| == |p.data.data|
  }

  ghost predicate FlatFits(st: Flat, params: Params) {
    forall id {:trigger params[id]} :: id in params ==> FlatFitsOne(st, id, params[id])
  }

  lemma FlatParamFits(c: Config, ratio: real, root: real -> real, st: Flat, params: Params, id: ParamId)
    requires ConfigOk(c) && FlatFits(st, params) && id in params
    ensures var r := FlatParam(c, ratio, root, st, id, params[id]);
            FlatFits(r.0, params[id := r.1])
  {
  }

  class AdamW {
    const config: Config
    const ratio: real
    var stepCount: nat
    var paramSteps: map<ParamId, nat>
    var m: map<ParamId, seq<real>>
    var v: map<ParamId, seq<real>>

    ghost predicate Valid() reads this {
      ConfigOk(config) && m.Keys == v.Keys
    }

    ghost function View(): Flat reads this requires Valid() {
      Flat(stepCount, paramSteps, map id | id in m :: Moments(m[id], v[id]))
    }

    constructor (c: Config, loraPlusRatio: real)
      requires ConfigOk(c)
      ensures config == c && ratio == loraPlusRatio && Valid() && View() == Flat(0, map[], map[])
    {
      config, ratio, stepCount, paramSteps, m, v := c, loraPlusRatio, 0, map[], map[], map[];
    }

    method StepParam(root: real -> real, id: ParamId, p: TrainableParam) returns (q: TrainableParam)
      requires Valid() && RootOk(root) && FlatFitsOne(View(), id, p)
      modifies this
      ensures Valid() && (View(), q) == FlatParam(config, ratio, root, old(View()), id, p)
    {
      if p.frozen { return ZeroGrad(p); }
      var lr := if !id.isA then config.lr * ratio else config.lr;
      var t := if id in paramSteps then paramSteps[id] + 1 else 1;
      ghost var c := RateFor(config, ratio, id);
      ghost var rule := RuleOf(c, root, t);
      assert lr == c.lr;
      var mOld := if id in m then m[id] else seq(|p.data.data|, _ => 0.0);
      var vOld := if id in v then v[id] else seq(|p.data.data|, _ => 0.0);
      assert MomentsOf(View().moments, id, |p.data.data|) == Moments(mOld, vOld);
      var mNew, vNew := AdvanceMoments(config, mOld, vOld, p.grad.data);
      MomentsFollowRule(config, ratio, id, root, t, Moments(mOld, vOld), p.grad.data, mNew, vNew);
      var data := DescendAll(config, lr, root, t, p.data.data, mNew, vNew, c);
      paramSteps := paramSteps[id := t];
      m, v := m[id := mNew], v[id := vNew];
      q := WithData(p, data);
      assert View().moments == old(View()).moments[id := Moments(mNew, vNew)];
    }

    method Step(root: real -> real, params: Params, order: seq<ParamId>) returns (out: Params)
      requires Valid() && RootOk(root) && FlatFits(View(), params) && forall i :: 0 <= i < |order| ==> order[i] in params
      modifies this
      ensures Valid() && (View(), out) == FlatStep(config, ratio, root, old(View()), params, order)
    {
      stepCount := stepCount + 1;
      out := params;
      ghost var start := View();
      assert start == old(View()).(stepCount := stepCount);
      for i := 0 to |order|
        invariant Valid() && FlatFits(View(), out) && out.Keys == params.Keys
        invariant (View(), out) == Fold(FlatNext(config, ratio, root), start, params, order, i)
      {
        FlatParamFits(config, ratio, root, View(), out, order[i]);
        var q := StepParam(root, order[i], out[order[i]]);
        out := out[order[i] := q];
      }
    }
  }

  /** The moments `s` advance to `m` and `v` with gradient `g`. */
  ghost predicate AdvancedBy(c: Config, s: Moments, g: seq<real>, m: seq<real>, v: seq<real>) {
    && |s.m| == |s.v| == |g| == |m| == |v|
    && forall i {:trigger m[i]} {:trigger v[i]} :: 0 <= i < |g| ==> m[i] == NewM(c, s.m[i], g[i]) && v[i] == NewV(c, s.v[i], g[i])
  }

  /** The component arithmetic of the moments: scaling and adding whole buffers. */
  method AdvanceMoments(c: Config, mOld: seq<real>, vOld: seq<real>, g: seq<real>) returns (mNew: seq<real>, vNew: seq<real>)
    requires |mOld| == |vOld| == |g|
    ensures AdvancedBy(c, Moments(mOld, vOld), g, mNew, vNew)
  {
    mNew := AddBuffers(MulScalar(mOld, c.beta1), MulScalar(g, 1.0 - c.beta1));
    var gSquared := MulBuffers(g, g);
    vNew := AddBuffers(MulScalar(vOld, c.beta2), MulScalar(gSquared, 1.0 - c.beta2));
    forall i | 0 <= i < |g| ensures mNew[i] == NewM(c, mOld[i], g[i]) && vNew[i] == NewV(c, vOld[i], g[i]) {
      MomentComponents(c, mOld[i], vOld[i], g[i], mOld[i] * c.beta1, g[i] * (1.0 - c.beta1), gSquared[i],
                       vOld[i] * c.beta2, gSquared[i] * (1.0 - c.beta2));
    }
  }

  lemma MomentsFollowRule(c: Config, ratio: real, id: ParamId, root: real -> real, t: nat, s: Moments, g: seq<real>, m: seq<real>, v: seq<real>)
    requires ConfigOk(c) && t > 0 && AdvancedBy(c, s, g, m, v)
    ensures Advanced(RuleOf(RateFor(c, ratio, id), root, t), s, g) == Moments(m, v)
  {
    var c' := RateFor(c, ratio, id);
    var rule := RuleOf(c', root, t);
    assert c'.beta1 == c.beta1 && c'.beta2 == c.beta2;
    forall i | 0 <= i < |g| ensures rule.m(s.m[i], g[i]) == m[i] && rule.v(s.v[i], g[i]) == v[i] {
      SameBetas(c, c', s.m[i], s.v[i], g[i]);
    }
    assert Map2(rule.m, s.m, g) == m && Map2(rule.v, s.v, g) == v;
  }

  lemma SameBetas(c: Config, c': Config, m: real, v: real, g: real)
    requires c'.beta1 == c.beta1 && c'.beta2 == c.beta2
    ensures NewM(c', m, g) == NewM(c, m, g) && NewV(c', v, g) == NewV(c, v, g)
  {
  }

  /** The component arithmetic of the weight update, on whole buffers. */
  method DescendAll(config: Config, lr: real, root: real -> real, t: nat, data: seq<real>, m: seq<real>, v: seq<real>, ghost c: Config)
    returns (updated: seq<real>)
    requires ConfigOk(config) && c == config.(lr := lr) && RootOk(root) && t > 0 && |m| == |v| == |data|
    ensures updated == Updated(RuleOf(c, root, t), data, Moments(m, v))
  {
    var mHat := MulScalar(m, 1.0 / Correction(config.beta1, t));
    var vHat := MulScalar(v, 1.0 / Correction(config.beta2, t));
    var denominator := AddBuffers(RootBuffer(root, vHat), seq(|data|, _ => config.eps));
    var ratio := MulBuffers(mHat, RecipBuffer(denominator));
    var decay := MulScalar(data, config.weightDecay);
    var step := MulScalar(AddBuffers(ratio, decay), lr);
    updated := AddBuffers(data, MulScalar(step, -1.0));
    forall i | 0 <= i < |data| ensures updated[i] == NewD(c, root, t, data[i], m[i], v[i]) {
      DataComponents(c, root, t, data[i], m[i], v[i], mHat[i], vHat[i], denominator[i], ratio[i], decay[i], step[i]);
    }
  }

  // ---------------------------------------------------------------- PagedAdamW

  /** Stored pages have the length of the slice they serve. */
  ghost predicate PageFits(pages: Pages, id: ParamId, size: nat, n: nat, p: nat)
    requires size > 0
  {
    PlaceOf(p, size, 0) < n ==>
      var page := Touched(pages, id, size, p, n);
      |page.m| == |page.v| == PageEnd(size, p, n) - PlaceOf(p, size, 0)
  }

  ghost predicate PagedFitsOne(c: Config, st: Paged, id: ParamId, p: TrainableParam) {
    GradFits(p) && forall k: nat {:trigger PageFits(st.pages, id, SizeOf(c), |p.data.data|, k)} :: PageFits(st.pages, id, SizeOf(c), |p.data.data|, k)
  }

  ghost predicate PagedFits(c: Config, st: Paged, params: Params) {
    forall id {:trigger params[id]} :: id in params ==> PagedFitsOne(c, st, id, params[id])
  }

  /** Pages that mirror flat moments fit. */
  lemma AgreeingPagesFit(c: Config, f: Flat, q: Paged, params: Params)
    requires Agree(c, f, q, params)
    ensures FlatFits(f, params) && PagedFits(c, q, params)
  {
    forall id | id in params ensures FlatFitsOne(f, id, params[id]) && PagedFitsOne(c, q, id, params[id]) {
      assert AgreeOn(c, f, q, params, id);
      var n := |params[id].data.data|;
      forall k: nat ensures PageFits(q.pages, id, SizeOf(c), n, k) {
        assert MirrorsPage(q.pages, MomentsOf(f.moments, id, n), id, SizeOf(c), n, k);
      }
    }
  }

  /** From fresh optimizers, over every run: the same parameters, and moments and pages of the sizes
      the next step asks for. */
  lemma FreshRunsFit(c: Config, root: real -> real, params: Params, events: seq<Event>)
    requires ConfigOk(c) && forall id {:trigger params[id]} :: id in params ==> GradFits(params[id])
    ensures var a, b := FlatRun(c, 1.0, root, Flat(0, map[], map[]), params, events), PagedRun(c, root, Paged(0, map[], map[], {}), params, events);
            a.1 == b.1 && FlatFits(a.0, a.1) && PagedFits(c, b.0, b.1)
  {
    FreshAgree(c, params);
    PagedRefinesFlat(c, root, Flat(0, map[], map[]), Paged(0, map[], map[], {}), params, events);
    var a, b := FlatRun(c, 1.0, root, Flat(0, map[], map[]), params, events), PagedRun(c, root, Paged(0, map[], map[], {}), params, events);
    AgreeingPagesFit(c, a.0, b.0, b.1);
  }

  lemma PagedParamFits(c: Config, root: real -> real, st: Paged, params: Params, id: ParamId)
    requires ConfigOk(c) && PagedFits(c, st, params) && id in params
    ensures GradFits(params[id])
    ensures var r := PagedParam(c, root, st, id, params[id]);
            PagedFits(c, r.0, params[id := r.1])
  {
    var p := params[id];
    assert PagedFitsOne(c, st, id, p);
    var r := PagedParam(c, root, st, id, p);
    PagedKeepsSize(c, root, st, id, p);
    forall o | o in params ensures PagedFitsOne(c, r.0, o, params[id := r.1][o]) {
      assert PagedFitsOne(c, st, o, params[o]);
      forall k: nat ensures PageFits(r.0.pages, o, SizeOf(c), |params[o].data.data|, k) {
        assert PageFits(st.pages, o, SizeOf(c), |params[o].data.data|, k);
        if !p.frozen { PageKeepsFitting(c, root, st, id, p, o, k, |params[o].data.data|); }
      }
    }
  }

  lemma PageKeepsFitting(c: Config, root: real -> real, st: Paged, id: ParamId, p: TrainableParam, o: ParamId, k: nat, n: nat)
    requires ConfigOk(c) && PagedFitsOne(c, st, id, p) && !p.frozen && PageFits(st.pages, o, SizeOf(c), n, k) && (o == id ==> n == |p.data.data|)
    ensures PageFits(PagedParam(c, root, st, id, p).0.pages, o, SizeOf(c), n, k)
  {
    var size := SizeOf(c);
    var count := PageCount(size, |p.data.data|);
    PageInside(size, |p.data.data|, count);
    PagesAfterAt(RuleOf(c, root, StepsOf(st.paramSteps, id)), st.pages, id, size, p.grad.data, c.cpuOffload, count, (o, k));
  }

  /** One element of a page. */
  method StepElement(c: Config, root: real -> real, t: nat, m: real, v: real, d: real, g: real) returns (m': real, v': real, d': real)
    requires ConfigOk(c) && RootOk(root) && t > 0
    ensures var r := RuleOf(c, root, t); m' == r.m(m, g) && v' == r.v(v, g) && d' == r.d(d, m', v')
  {
    m' := c.beta1 * m + (1.0 - c.beta1) * g;
    v' := c.beta2 * v + (1.0 - c.beta2) * g * g;
    var mHat := m' / Correction(c.beta1, t);
    var vHat := v' / Correction(c.beta2, t);
    assert root(vHat) >= 0.0;
    var step := mHat / (root(vHat) + c.eps) + c.weightDecay * d;
    d' := d - c.lr * step;
    Descends(c, root, t, d, m', v', mHat, vHat, mHat / (root(vHat) + c.eps), step);
  }

  /** The first `i` elements of a page are stepped. */
  ghost predicate ElementsDone(r: Rule, touched: Page, data: seq<real>, grad: seq<real>, i: nat, m: seq<real>, v: seq<real>, news: seq<real>)
    requires |touched.m| == |touched.v| == |data| == |grad| == |m| == |v| == |news|
  {
    forall k {:trigger m[k]} {:trigger v[k]} :: 0 <= k < |m| ==>
      if k < i then m[k] == r.m(touched.m[k], grad[k]) && v[k] == r.v(touched.v[k], grad[k]) && news[k] == r.d(data[k], m[k], v[k])
      else m[k] == touched.m[k] && v[k] == touched.v[k]
  }

  lemma OneMoreElement(r: Rule, touched: Page, data: seq<real>, grad: seq<real>, i: nat, m: seq<real>, v: seq<real>, news: seq<real>, m': real, v': real, d': real)
    requires |touched.m| == |touched.v| == |data| == |grad| == |m| == |v| == |news| && i < |m|
    requires ElementsDone(r, touched, data, grad, i, m, v, news)
    requires m' == r.m(m[i], grad[i]) && v' == r.v(v[i], grad[i]) && d' == r.d(data[i], m', v')
    ensures ElementsDone(r, touched, data, grad, i + 1, m[i := m'], v[i := v'], news[i := d'])
  {
    forall k | 0 <= k < |m| && k != i ensures m[i := m'][k] == m[k] && v[i := v'][k] == v[k] && news[i := d'][k] == news[k] {
    }
  }

  lemma AllElements(r: Rule, touched: Page, data: seq<real>, grad: seq<real>, m: seq<real>, v: seq<real>, news: seq<real>)
    requires |touched.m| == |touched.v| == |data| == |grad| == |m| == |v| == |news|
    requires ElementsDone(r, touched, data, grad, |m|, m, v, news)
    ensures m == Map2(r.m, touched.m, grad) && v == Map2(r.v, touched.v, grad) && news == Map3(r.d, data, m, v)
  {
    forall k | 0 <= k < |m| ensures m[k] == Map2(r.m, touched.m, grad)[k] && news[k] == Map3(r.d, data, m, v)[k] {
    }
    forall k | 0 <= k < |m| ensures v[k] == Map2(r.v, touched.v, grad)[k] {
    }
  }

  /** The inner loop: the elements of one page. */
  method StepElements(c: Config, root: real -> real, t: nat, touched: Page, data: seq<real>, grad: seq<real>, offset: nat, len: nat, newData: array<real>)
    returns (page: Page)
    requires ConfigOk(c) && RootOk(root) && t > 0
    requires |data| == |grad| == newData.Length && offset + len <= |data| && |touched.m| == |touched.v| == len
    modifies newData
    ensures page == SteppedPage(RuleOf(c, root, t), touched, grad[offset..offset + len], c.cpuOffload)
    ensures newData[..offset] == old(newData[..offset])
    ensures newData[offset..offset + len] == Map3(RuleOf(c, root, t).d, data[offset..offset + len], page.m, page.v)
  {
    ghost var r := RuleOf(c, root, t);
    ghost var ds, gs := data[offset..offset + len], grad[offset..offset + len];
    var m, v := touched.m, touched.v;
    for i := 0 to len
      invariant |m| == |v| == len
      invariant ElementsDone(r, touched, ds, gs, i, m, v, newData[offset..offset + len])
      invariant newData[..offset] == old(newData[..offset])
    {
      ghost var news := newData[offset..offset + len];
      var mNew, vNew, dNew := StepElement(c, root, t, m[i], v[i], data[offset + i], grad[offset + i]);
      OneMoreElement(r, touched, ds, gs, i, m, v, news, mNew, vNew, dNew);
      m, v := m[i := mNew], v[i := vNew];
      newData[offset + i] := dNew;
      assert newData[offset..offset + len] == news[i := dNew];
    }
    AllElements(r, touched, ds, gs, m, v, newData[offset..offset + len]);
    page := Page(m, v, true, true);
    if c.cpuOffload { page := page.(inGpu := false); }
  }

  class PagedOptimizer {
    const config: Config
    var stepCount: nat
    var paramSteps: map<ParamId, nat>
    var pages: Pages
    var dirtySet: set<(ParamId, nat)>

    ghost function View(): Paged reads this {
      Paged(stepCount, paramSteps, pages, dirtySet)
    }

    constructor (c: Config)
      ensures config == c && View() == Paged(0, map[], map[], {})
    {
      config, stepCount, paramSteps, pages, dirtySet := c, 0, map[], map[], {};
    }

    method TouchPage(id: ParamId, p: nat, len: nat) returns (page: Page)
      modifies this`pages, this`dirtySet
      ensures dirtySet == old(dirtySet) + {(id, p)} && pages == old(pages)[(id, p) := page]
      ensures page == if (id, p) in old(pages) then old(pages)[(id, p)] else Page(seq(len, _ => 0.0), seq(len, _ => 0.0), false, !config.cpuOffload)
    {
      dirtySet := dirtySet + {(id, p)};
      if (id, p) !in pages {
        var zeros := seq(len, _ => 0.0);
        pages := pages[(id, p) := Page(zeros, zeros, false, !config.cpuOffload)];
      }
      page := pages[(id, p)];
    }

    /** Page `p`: touch it, step its elements, put it back. */
    method StepPage(root: real -> real, t: nat, id: ParamId, p: nat, size: nat, data: seq<real>, grad: seq<real>, newData: array<real>,
                    ghost was: Pages)
      requires ConfigOk(config) && RootOk(root) && t > 0 && size > 0
      requires |data| == |grad| == newData.Length && PlaceOf(p, size, 0) < |data| && PageFits(was, id, size, |data|, p)
      requires (id, p) in pages <==> (id, p) in was
      requires (id, p) in pages ==> pages[(id, p)] == was[(id, p)]
      modifies this`pages, this`dirtySet, newData
      ensures var r := RuleOf(config, root, t);
              var page := NewPage(r, was, id, size, grad, config.cpuOffload, p);
              && pages == old(pages)[(id, p) := page]
              && newData[PlaceOf(p, size, 0)..PageEnd(size, p, |data|)] == Map3(r.d, Slice(data, size, p), page.m, page.v)
      ensures newData[..PlaceOf(p, size, 0)] == old(newData[..PlaceOf(p, size, 0)])
      ensures dirtySet == old(dirtySet) + {(id, p)}
    {
      PlaceIs(p, size, 0);
      var offset := p * size;
      var len := if |data| - offset < size then |data| - offset else size;
      var touched := TouchPage(id, p, len);
      assert touched.m == Touched(was, id, size, p, |data|).m && touched.v == Touched(was, id, size, p, |data|).v;
      var page := StepElements(config, root, t, touched, data, grad, offset, len, newData);
      pages := pages[(id, p) := page];
    }

    method StepParam(root: real -> real, id: ParamId, p: TrainableParam) returns (q: TrainableParam)
      requires ConfigOk(config) && RootOk(root) && PagedFitsOne(config, View(), id, p)
      modifies this
      ensures (View(), q) == PagedParam(config, root, old(View()), id, p)
    {
      if p.frozen { return ZeroGrad(p); }
      var size := if config.pageSize > 1 then config.pageSize else 1;
      var t := if id in paramSteps then paramSteps[id] + 1 else 1;
      paramSteps := paramSteps[id := t];
      var n := |p.data.data|;
      var newData := new real[n];
      var count := (n + size - 1) / size;
      PagesOf(size, n, count);
      assert size == SizeOf(config);
      assert PagedFitsOne(config, old(View()), id, p);
      StepPages(root, t, id, size, count, p.data.data, p.grad.data, newData, View());
      assert newData[..Covered(size, count, n)] == newData[..];
      q := WithData(p, newData[..]);
    }

    /** The outer loop: the pages of one parameter. */
    method StepPages(root: real -> real, t: nat, id: ParamId, size: nat, count: nat, data: seq<real>, grad: seq<real>, newData: array<real>, ghost was: Paged)
      requires ConfigOk(config) && RootOk(root) && t > 0 && size > 0 && was == View()
      requires |data| == |grad| == newData.Length && PagesEnd(size, |data|, count)
      requires forall k: nat {:trigger PageFits(was.pages, id, size, |data|, k)} :: PageFits(was.pages, id, size, |data|, k)
      modifies this`pages, this`dirtySet, newData
      ensures PagesDone(RuleOf(config, root, t), was, id, size, data, grad, config.cpuOffload, count, pages, dirtySet, newData[..])
    {
      for k := 0 to count
        invariant PagesDone(RuleOf(config, root, t), was, id, size, data, grad, config.cpuOffload, k, pages, dirtySet, newData[..])
      {
        ghost var before, pagesBefore, dirtyBefore := newData[..], pages, dirtySet;
        assert PlaceOf(k, size, 0) < |data| && PageFits(was.pages, id, size, |data|, k);
        PageUntouched(RuleOf(config, root, t), was, id, size, data, grad, config.cpuOffload, k, pages, dirtySet, newData[..]);
        StepPage(root, t, id, k, size, data, grad, newData, was.pages);
        OneMorePage(RuleOf(config, root, t), was, id, size, data, grad, config.cpuOffload, k, pagesBefore, dirtyBefore, before, newData[..]);
      }
    }

    method Step(root: real -> real, params: Params, order: seq<ParamId>) returns (out: Params)
      requires ConfigOk(config) && RootOk(root) && PagedFits(config, View(), params) && forall i :: 0 <= i < |order| ==> order[i] in params
      modifies this
      ensures (View(), out) == PagedStep(config, root, old(View()), params, order)
    {
      stepCount := stepCount + 1;
      dirtySet := {};
      out := params;
      ghost var start := View();
      for i := 0 to |order|
        invariant PagedFits(config, View(), out) && out.Keys == params.Keys
        invariant (View(), out) == Fold(PagedNext(config, root), start, params, order, i)
      {
        PagedParamFits(config, root, View(), out, order[i]);
        var q := StepParam(root, order[i], out[order[i]]);
        out := out[order[i] := q];
      }
    }
  }

  /** Every page below `count` starts inside the vector, and the last one ends with it. */
  ghost predicate PagesEnd(size: nat, n: nat, count: nat)
    requires size > 0
  {
    && (forall k: nat {:trigger PlaceOf(k, size, 0)} :: k < count ==> PlaceOf(k, size, 0) < n)
    && (if count == 0 then n == 0 else PageEnd(size, count - 1, n) == n)
  }

  lemma PagesOf(size: nat, n: nat, count: nat)
    requires size > 0 && count == PageCount(size, n)
    ensures PagesEnd(size, n, count)
  {
    forall k: nat | k < count ensures PlaceOf(k, size, 0) < n {
      PageInside(size, n, k);
    }
    PageInside(size, n, count);
    if count > 0 { assert PlaceOf(count, size, 0) == size + PlaceOf(count - 1, size, 0); }
  }

  /** The first `k` pages are done: what the pages, the dirty set and the new data are. */
  ghost predicate PagesDone(r: Rule, was: Paged, id: ParamId, size: nat, d: seq<real>, g: seq<real>, offload: bool, k: nat,
                            pages: Pages, dirty: set<(ParamId, nat)>, data: seq<real>)
    requires size > 0 && |d| == |g| == |data|
  {
    && (k > 0 ==> PlaceOf(k - 1, size, 0) <= |g|)
    && pages == PagesAfter(r, was.pages, id, size, g, offload, k)
    && dirty == DirtyAfter(was.dirty, id, k)
    && data[..Covered(size, k, |g|)] == PagedData(r, was.pages, id, size, d, g, offload, k)
  }

  /** The next page is still as it was. */
  lemma PageUntouched(r: Rule, was: Paged, id: ParamId, size: nat, d: seq<real>, g: seq<real>, offload: bool, k: nat,
                      pages: Pages, dirty: set<(ParamId, nat)>, data: seq<real>)
    requires size > 0 && |d| == |g| == |data| && PagesDone(r, was, id, size, d, g, offload, k, pages, dirty, data)
    ensures (id, k) in pages <==> (id, k) in was.pages
    ensures (id, k) in pages ==> pages[(id, k)] == was.pages[(id, k)]
  {
    PagesAfterAt(r, was.pages, id, size, g, offload, k, (id, k));
  }

  /** Page `k` extends the prefix of new data. */
  lemma OneMoreSlice(r: Rule, pages: Pages, id: ParamId, size: nat, d: seq<real>, g: seq<real>, offload: bool, k: nat, before: seq<real>, after: seq<real>)
    requires size > 0 && |d| == |g| == |before| == |after| && PlaceOf(k, size, 0) < |g|
    requires (k > 0 ==> PlaceOf(k - 1, size, 0) <= |g|) && before[..Covered(size, k, |g|)] == PagedData(r, pages, id, size, d, g, offload, k)
    requires after[..PlaceOf(k, size, 0)] == before[..PlaceOf(k, size, 0)]
    requires var page := NewPage(r, pages, id, size, g, offload, k);
             after[PlaceOf(k, size, 0)..PageEnd(size, k, |g|)] == Map3(r.d, Slice(d, size, k), page.m, page.v)
    ensures after[..Covered(size, k + 1, |g|)] == PagedData(r, pages, id, size, d, g, offload, k + 1)
  {
    PagesAscend(size, if k > 0 then k - 1 else 0, k);
    JoinSlices(after, size, k);
    assert Covered(size, k, |g|) == if k == 0 then 0 else PlaceOf(k, size, 0);
    assert after[..Covered(size, k, |g|)] == before[..Covered(size, k, |g|)];
  }

  /** One more page is done. */
  lemma OneMorePage(r: Rule, was: Paged, id: ParamId, size: nat, d: seq<real>, g: seq<real>, offload: bool, k: nat,
                    pages: Pages, dirty: set<(ParamId, nat)>, before: seq<real>, after: seq<real>)
    requires size > 0 && |d| == |g| == |before| == |after| && PlaceOf(k, size, 0) < |g|
    requires PagesDone(r, was, id, size, d, g, offload, k, pages, dirty, before)
    requires after[..PlaceOf(k, size, 0)] == before[..PlaceOf(k, size, 0)]
    requires var page := NewPage(r, was.pages, id, size, g, offload, k);
             after[PlaceOf(k, size, 0)..PageEnd(size, k, |g|)] == Map3(r.d, Slice(d, size, k), page.m, page.v)
    ensures PagesDone(r, was, id, size, d, g, offload, k + 1, pages[(id, k) := NewPage(r, was.pages, id, size, g, offload, k)], dirty + {(id, k)}, after)
  {
    OneMoreSlice(r, was.pages, id, size, d, g, offload, k, before, after);
    OneMoreDirty(was.dirty, id, k);
  }

  lemma OneMoreDirty(dirty: set<(ParamId, nat)>, id: ParamId, k: nat)
    ensures DirtyAfter(dirty, id, k + 1) == DirtyAfter(dirty, id, k) + {(id, k)}
  {
  }
}
