/** Paged AdamW refines AdamW: over every run of gradients, for every page size, the two optimizers
    leave the same weights; and the dirty set is exactly the pages of the parameters stepped. */
module AdamWRuns {
  import opened Places
  import opened Tensors
  import opened PagedAdamW

  type Params = map<ParamId, TrainableParam>

  datatype Flat = Flat(stepCount: nat, paramSteps: map<ParamId, nat>, moments: map<ParamId, Moments>)

  datatype Paged = Paged(stepCount: nat, paramSteps: map<ParamId, nat>, pages: Pages, dirty: set<(ParamId, nat)>)

  function StepsOf(steps: map<ParamId, nat>, id: ParamId): nat {
    if id in steps then steps[id] + 1 else 1
  }

  /** A page size of 0 acts as 1. */
  function SizeOf(c: Config): (n: nat)
    ensures n > 0
  {
    if c.pageSize > 1 then c.pageSize else 1
  }

  function WithData(p: TrainableParam, d: seq<real>): TrainableParam {
    p.(data := Tensor(p.data.shape, d))
  }

  predicate GradFits(p: TrainableParam) {
    |p.grad.data| == |p.data.data|
  }

  // ---------------------------------------------------------------- one parameter

  /** LoRA+ scales the learning rate of B matrices. */
  function RateFor(c: Config, ratio: real, id: ParamId): Config {
    if id.isA then c else c.(lr := c.lr * ratio)
  }

  /** `AdamW::step_param`, component math. */
  function FlatParam(c: Config, ratio: real, root: real -> real, st: Flat, id: ParamId, p: TrainableParam): (r: (Flat, TrainableParam))
    requires ConfigOk(c)
  {
    if p.frozen then (st, ZeroGrad(p))
    else
      var t := StepsOf(st.paramSteps, id);
      var rule := RuleOf(RateFor(c, ratio, id), root, t);
      var s := Advanced(rule, MomentsOf(st.moments, id, |p.data.data|), p.grad.data);
      (st.(paramSteps := st.paramSteps[id := t], moments := st.moments[id := s]), WithData(p, Updated(rule, p.data.data, s)))
  }

  function DirtyAfter(dirty: set<(ParamId, nat)>, id: ParamId, k: nat): set<(ParamId, nat)> {
    dirty + set p: nat | p < k :: (id, p)
  }

  /** `PagedAdamW::step_param`. */
  function PagedParam(c: Config, root: real -> real, st: Paged, id: ParamId, p: TrainableParam): (r: (Paged, TrainableParam))
    requires ConfigOk(c) && GradFits(p)
  {
    if p.frozen then (st, ZeroGrad(p))
    else
      var t := StepsOf(st.paramSteps, id);
      var (rule, size, n, g) := (RuleOf(c, root, t), SizeOf(c), |p.data.data|, p.grad.data);
      var k := PageCount(size, n);
      PageInside(size, n, k);
      (Paged(st.stepCount, st.paramSteps[id := t], PagesAfter(rule, st.pages, id, size, g, c.cpuOffload, k), DirtyAfter(st.dirty, id, k)),
       WithData(p, PagedData(rule, st.pages, id, size, p.data.data, g, c.cpuOffload, k)))
  }

  /** The two optimizers agree on every parameter. */
  ghost predicate Agree(c: Config, f: Flat, q: Paged, params: Params) {
    && f.stepCount == q.stepCount && f.paramSteps == q.paramSteps
    && forall id {:trigger AgreeOn(c, f, q, params, id)} :: id in params ==> AgreeOn(c, f, q, params, id)
  }

  ghost predicate AgreeOn(c: Config, f: Flat, q: Paged, params: Params, id: ParamId) {
    id in params && GradFits(params[id]) && Mirrors(q.pages, f.moments, id, SizeOf(c), |params[id].data.data|)
  }

  /** One parameter: the same weights, and still in agreement. */
  lemma ParamRefines(c: Config, root: real -> real, f: Flat, q: Paged, params: Params, id: ParamId)
    requires ConfigOk(c) && Agree(c, f, q, params) && id in params
    ensures GradFits(params[id])
    ensures var (a, b) := (FlatParam(c, 1.0, root, f, id, params[id]), PagedParam(c, root, q, id, params[id]));
            && a.1 == b.1 && GradFits(a.1) && |a.1.data.data| == |params[id].data.data| && a.1.frozen == params[id].frozen
            && Agree(c, a.0, b.0, params[id := a.1])
  {
    assert AgreeOn(c, f, q, params, id);
    var p := params[id];
    if p.frozen {
      FrozenAgrees(c, f, q, params, id);
    } else {
      var t := StepsOf(f.paramSteps, id);
      assert c.lr * 1.0 == c.lr;
      assert RateFor(c, 1.0, id) == c;
      var rule := RuleOf(c, root, t);
      LiveData(c, rule, f, q, p, id);
      LiveAgrees(c, rule, f, q, params, id);
    }
  }

  lemma FrozenAgrees(c: Config, f: Flat, q: Paged, params: Params, id: ParamId)
    requires Agree(c, f, q, params) && id in params
    ensures Agree(c, f, q, params[id := ZeroGrad(params[id])])
  {
    forall o | o in params ensures AgreeOn(c, f, q, params[id := ZeroGrad(params[id])], o) {
      assert AgreeOn(c, f, q, params, o);
    }
  }

  /** The data of a live parameter. */
  lemma LiveData(c: Config, rule: Rule, f: Flat, q: Paged, p: TrainableParam, id: ParamId)
    requires GradFits(p) && Mirrors(q.pages, f.moments, id, SizeOf(c), |p.data.data|)
    ensures var (size, n) := (SizeOf(c), |p.data.data|);
            var (k, s) := (PageCount(size, n), MomentsOf(f.moments, id, n));
            && (k > 0 ==> PlaceOf(k - 1, size, 0) <= n)
            && PagedData(rule, q.pages, id, size, p.data.data, p.grad.data, c.cpuOffload, k) ==
               Updated(rule, p.data.data, Advanced(rule, s, p.grad.data))
  {
    var size, n := SizeOf(c), |p.data.data|;
    var k, s := PageCount(size, n), MomentsOf(f.moments, id, n);
    var x := Updated(rule, p.data.data, Advanced(rule, s, p.grad.data));
    PageInside(size, n, k);
    DataMirrors(rule, q.pages, s, id, size, p.data.data, p.grad.data, c.cpuOffload, k, x);
    if k > 0 { assert PlaceOf(k, size, 0) == size + PlaceOf(k - 1, size, 0); }
    assert x[..n] == x;
  }

  lemma LiveAgrees(c: Config, rule: Rule, f: Flat, q: Paged, params: Params, id: ParamId)
    requires Agree(c, f, q, params) && id in params && GradFits(params[id])
    ensures var (p, size) := (params[id], SizeOf(c));
            var (n, t) := (|p.data.data|, StepsOf(f.paramSteps, id));
            var (k, s) := (PageCount(size, n), Advanced(rule, MomentsOf(f.moments, id, n), p.grad.data));
            && (k > 0 ==> PlaceOf(k - 1, size, 0) <= n)
            && Agree(c, f.(paramSteps := f.paramSteps[id := t], moments := f.moments[id := s]),
                     Paged(q.stepCount, q.paramSteps[id := t], PagesAfter(rule, q.pages, id, size, p.grad.data, c.cpuOffload, k), DirtyAfter(q.dirty, id, k)),
                     params[id := WithData(p, Updated(rule, p.data.data, s))])
  {
    var p, size := params[id], SizeOf(c);
    var n, t, g := |p.data.data|, StepsOf(f.paramSteps, id), p.grad.data;
    var k, s := PageCount(size, n), Advanced(rule, MomentsOf(f.moments, id, n), g);
    assert AgreeOn(c, f, q, params, id);
    StepMirrors(rule, q.pages, f.moments, id, size, g, c.cpuOffload);
    var pages := PagesAfter(rule, q.pages, id, size, g, c.cpuOffload, k);
    forall o | o in params ensures Mirrors(pages, f.moments[id := s], o, size, |params[o].data.data|) && GradFits(params[o]) {
      assert AgreeOn(c, f, q, params, o);
      if o != id { StepKeepsOthers(rule, q.pages, f.moments, id, size, g, c.cpuOffload, k, o, |params[o].data.data|, s); }
    }
    var f', q' := f.(paramSteps := f.paramSteps[id := t], moments := f.moments[id := s]), Paged(q.stepCount, q.paramSteps[id := t], pages, DirtyAfter(q.dirty, id, k));
    var params' := params[id := WithData(p, Updated(rule, p.data.data, s))];
    forall o | o in params' ensures AgreeOn(c, f', q', params', o) {
    }
  }

  // ---------------------------------------------------------------- all parameters

  predicate SameSize(a: TrainableParam, b: TrainableParam) {
    |a.data.data| == |b.data.data| && a.frozen == b.frozen && (GradFits(a) ==> GradFits(b))
  }

  lemma {:induction false} PagedDataLength(r: Rule, pages: Pages, id: ParamId, size: nat, d: seq<real>, g: seq<real>, offload: bool, k: nat)
    requires size > 0 && |d| == |g| && (k > 0 ==> PlaceOf(k - 1, size, 0) < |g|)
    ensures |PagedData(r, pages, id, size, d, g, offload, k)| == Covered(size, k, |g|)
  {
    if k > 0 {
      PagesAscend(size, if k > 1 then k - 2 else 0, k - 1);
      PagedDataLength(r, pages, id, size, d, g, offload, k - 1);
      JoinSlices(d, size, k - 1);
    }
  }

  lemma PagedKeepsSize(c: Config, root: real -> real, q: Paged, id: ParamId, p: TrainableParam)
    requires ConfigOk(c) && GradFits(p)
    ensures SameSize(p, PagedParam(c, root, q, id, p).1)
  {
    if !p.frozen {
      var size, n := SizeOf(c), |p.data.data|;
      var k := PageCount(size, n);
      PageInside(size, n, k);
      PagedDataLength(RuleOf(c, root, StepsOf(q.paramSteps, id)), q.pages, id, size, p.data.data, p.grad.data, c.cpuOffload, k);
      if k > 0 { assert PlaceOf(k, size, 0) == size + PlaceOf(k - 1, size, 0); }
    }
  }

  /** How an optimizer of state `S` treats one registered parameter. */
  type Next<!S> = (S, Params, ParamId) -> (S, Params)

  /** A gradient that does not fit its parameter is never stepped. */
  function PagedNext(c: Config, root: real -> real): Next<Paged>
    requires ConfigOk(c)
  {
    (q: Paged, params: Params, id: ParamId) =>
      if id in params && GradFits(params[id]) then
        var r := PagedParam(c, root, q, id, params[id]);
        (r.0, params[id := r.1])
      else (q, params)
  }

  function FlatNext(c: Config, ratio: real, root: real -> real): Next<Flat>
    requires ConfigOk(c)
  {
    (f: Flat, params: Params, id: ParamId) =>
      if id in params && GradFits(params[id]) then
        var r := FlatParam(c, ratio, root, f, id, params[id]);
        (r.0, params[id := r.1])
      else (f, params)
  }

  /** The loop of `step` over the first `n` parameters of an order. */
  function Fold<S>(next: Next<S>, s: S, params: Params, order: seq<ParamId>, n: nat): (S, Params)
    requires n <= |order|
  {
    if n == 0 then (s, params)
    else
      var prev := Fold(next, s, params, order, n - 1);
      next(prev.0, prev.1, order[n - 1])
  }

  /** Two treatments of one parameter stay in a relation and change the registry alike. */
  ghost predicate StaysRelated<A(!new), B(!new)>(f: Next<A>, g: Next<B>, R: (A, B, Params) -> bool) {
    forall a, b, params, id {:trigger f(a, params, id), g(b, params, id)} :: R(a, b, params) ==>
      f(a, params, id).1 == g(b, params, id).1 && R(f(a, params, id).0, g(b, params, id).0, g(b, params, id).1)
  }

  lemma {:induction false} FoldRelated<A(!new), B(!new)>(f: Next<A>, g: Next<B>, R: (A, B, Params) -> bool, a: A, b: B, params: Params, order: seq<ParamId>, n: nat)
    requires n <= |order| && StaysRelated(f, g, R) && R(a, b, params)
    ensures var (x, y) := (Fold(f, a, params, order, n), Fold(g, b, params, order, n));
            x.1 == y.1 && R(x.0, y.0, y.1)
  {
    if n > 0 {
      FoldRelated(f, g, R, a, b, params, order, n - 1);
      var x, y := Fold(f, a, params, order, n - 1), Fold(g, b, params, order, n - 1);
      assert R(x.0, y.0, y.1);
      assert f(x.0, y.1, order[n - 1]).1 == g(y.0, y.1, order[n - 1]).1;
    }
  }

  ghost function AgreeWith(c: Config): (Flat, Paged, Params) -> bool {
    (f: Flat, q: Paged, params: Params) => Agree(c, f, q, params)
  }

  lemma NextsStayRelated(c: Config, root: real -> real)
    requires ConfigOk(c)
    ensures StaysRelated(FlatNext(c, 1.0, root), PagedNext(c, root), AgreeWith(c))
  {
    var f, g := FlatNext(c, 1.0, root), PagedNext(c, root);
    forall a, b, params, id | Agree(c, a, b, params)
      ensures f(a, params, id).1 == g(b, params, id).1 && Agree(c, f(a, params, id).0, g(b, params, id).0, g(b, params, id).1)
    {
      if id in params { ParamRefines(c, root, a, b, params, id); }
    }
  }

  // ---------------------------------------------------------------- one step

  function PagedStep(c: Config, root: real -> real, q: Paged, params: Params, order: seq<ParamId>): (Paged, Params)
    requires ConfigOk(c)
  {
    Fold(PagedNext(c, root), q.(stepCount := q.stepCount + 1, dirty := {}), params, order, |order|)
  }

  function FlatStep(c: Config, ratio: real, root: real -> real, f: Flat, params: Params, order: seq<ParamId>): (Flat, Params)
    requires ConfigOk(c)
  {
    Fold(FlatNext(c, ratio, root), f.(stepCount := f.stepCount + 1), params, order, |order|)
  }

  lemma StepRefines(c: Config, root: real -> real, f: Flat, q: Paged, params: Params, order: seq<ParamId>)
    requires ConfigOk(c) && Agree(c, f, q, params)
    ensures var (a, b) := (FlatStep(c, 1.0, root, f, params, order), PagedStep(c, root, q, params, order));
            a.1 == b.1 && Agree(c, a.0, b.0, b.1)
  {
    StartAgrees(c, f, q, params);
    NextsStayRelated(c, root);
    FoldRelated(FlatNext(c, 1.0, root), PagedNext(c, root), AgreeWith(c),
                f.(stepCount := f.stepCount + 1), q.(stepCount := q.stepCount + 1, dirty := {}), params, order, |order|);
  }

  lemma StartAgrees(c: Config, f: Flat, q: Paged, params: Params)
    requires Agree(c, f, q, params)
    ensures Agree(c, f.(stepCount := f.stepCount + 1), q.(stepCount := q.stepCount + 1, dirty := {}), params)
  {
    var f', q' := f.(stepCount := f.stepCount + 1), q.(stepCount := q.stepCount + 1, dirty := {});
    forall id | id in params ensures AgreeOn(c, f', q', params, id) {
      assert AgreeOn(c, f, q, params, id);
    }
  }

  // ---------------------------------------------------------------- whole runs

  /** Between steps the gradients are replaced; a gradient of the wrong size is not accepted. */
  function WithGrads(params: Params, grads: map<ParamId, seq<real>>): Params {
    map id | id in params ::
      if id in grads && |grads[id]| == |params[id].data.data|
      then params[id].(grad := Tensor(params[id].grad.shape, grads[id])) else params[id]
  }

  /** One training step: new gradients, and the order in which `step` visits the registry. */
  datatype Event = Event(grads: map<ParamId, seq<real>>, order: seq<ParamId>)

  function FlatRun(c: Config, ratio: real, root: real -> real, f: Flat, params: Params, events: seq<Event>): (Flat, Params)
    requires ConfigOk(c)
  {
    if events == [] then (f, params)
    else
      var last := events[|events| - 1];
      var prev := FlatRun(c, ratio, root, f, params, events[..|events| - 1]);
      FlatStep(c, ratio, root, prev.0, WithGrads(prev.1, last.grads), last.order)
  }

  function PagedRun(c: Config, root: real -> real, q: Paged, params: Params, events: seq<Event>): (Paged, Params)
    requires ConfigOk(c)
  {
    if events == [] then (q, params)
    else
      var last := events[|events| - 1];
      var prev := PagedRun(c, root, q, params, events[..|events| - 1]);
      PagedStep(c, root, prev.0, WithGrads(prev.1, last.grads), last.order)
  }

  lemma GradsKeepAgreement(c: Config, f: Flat, q: Paged, params: Params, grads: map<ParamId, seq<real>>)
    requires Agree(c, f, q, params)
    ensures Agree(c, f, q, WithGrads(params, grads))
  {
    var ready := WithGrads(params, grads);
    forall id | id in ready ensures AgreeOn(c, f, q, ready, id) {
      assert AgreeOn(c, f, q, params, id);
    }
  }

  /** Main theorem: from agreeing states, after every run of gradients and for every page size the
      two optimizers hold the same parameters, and their moments still agree. */
  lemma {:induction false} PagedRefinesFlat(c: Config, root: real -> real, f: Flat, q: Paged, params: Params, events: seq<Event>)
    requires ConfigOk(c) && Agree(c, f, q, params)
    ensures var (a, b) := (FlatRun(c, 1.0, root, f, params, events), PagedRun(c, root, q, params, events));
            a.1 == b.1 && Agree(c, a.0, b.0, b.1)
  {
    if events != [] {
      var last := events[|events| - 1];
      PagedRefinesFlat(c, root, f, q, params, events[..|events| - 1]);
      var a, b := FlatRun(c, 1.0, root, f, params, events[..|events| - 1]), PagedRun(c, root, q, params, events[..|events| - 1]);
      GradsKeepAgreement(c, a.0, b.0, b.1, last.grads);
      StepRefines(c, root, a.0, b.0, WithGrads(b.1, last.grads), last.order);
    }
  }

  /** Fresh optimizers agree. */
  lemma FreshAgree(c: Config, params: Params)
    requires forall id {:trigger params[id]} :: id in params ==> GradFits(params[id])
    ensures Agree(c, Flat(0, map[], map[]), Paged(0, map[], map[], {}), params)
  {
    forall id | id in params ensures AgreeOn(c, Flat(0, map[], map[]), Paged(0, map[], map[], {}), params, id) {
      var n := |params[id].data.data|;
      forall p: nat ensures MirrorsPage(map[], ZeroMoments(n), id, SizeOf(c), n, p) {
      }
    }
  }

  /** What one step of a parameter leaves in its pages besides the moments: every page that starts inside
      the vector is there and marked dirty, and it is resident on the device unless offloading sent it
      back; no other page changes. A frozen parameter's pages are left alone. */
  lemma StepMarksPages(c: Config, root: real -> real, q: Paged, id: ParamId, p: TrainableParam, key: (ParamId, nat))
    requires ConfigOk(c) && GradFits(p)
    ensures var r := PagedParam(c, root, q, id, p).0.pages;
            if key.0 == id && !p.frozen && key.1 * (if c.pageSize > 1 then c.pageSize else 1) < |p.data.data|
            then key in r && r[key].dirty && r[key].inGpu == !c.cpuOffload
            else (key in r <==> key in q.pages) && (key in q.pages ==> r[key] == q.pages[key])
  {
    if !p.frozen {
      var size, n := SizeOf(c), |p.data.data|;
      PlaceIs(key.1, size, 0);
      PageInside(size, n, key.1);
      PageInside(size, n, PageCount(size, n));
      PagesAfterAt(RuleOf(c, root, StepsOf(q.paramSteps, id)), q.pages, id, size, p.grad.data, c.cpuOffload, PageCount(size, n), key);
    }
  }

  // ---------------------------------------------------------------- the dirty set

  ghost predicate SteppedBefore(order: seq<ParamId>, n: nat, id: ParamId)
    requires n <= |order|
  {
    exists i :: 0 <= i < n && order[i] == id
  }

  /** `key` is a page of an unfrozen parameter of the registry. */
  ghost predicate LivePage(c: Config, params: Params, key: (ParamId, nat)) {
    key.0 in params && GradFits(params[key.0]) && !params[key.0].frozen && key.1 < PageCount(SizeOf(c), |params[key.0].data.data|)
  }

  /** Stepping one parameter dirties exactly its live pages and keeps the registry's shape. */
  ghost predicate DirtiesLivePages(c: Config, next: Next<Paged>, key: (ParamId, nat)) {
    forall q, params, id {:trigger next(q, params, id)} ::
      && (key in next(q, params, id).0.dirty <==> key in q.dirty || (id == key.0 && LivePage(c, params, key)))
      && (LivePage(c, next(q, params, id).1, key) <==> LivePage(c, params, key))
  }

  lemma NextDirtiesLivePages(c: Config, root: real -> real, key: (ParamId, nat))
    requires ConfigOk(c)
    ensures DirtiesLivePages(c, PagedNext(c, root), key)
  {
    var next := PagedNext(c, root);
    forall q, params, id
      ensures key in next(q, params, id).0.dirty <==> key in q.dirty || (id == key.0 && LivePage(c, params, key))
      ensures LivePage(c, next(q, params, id).1, key) <==> LivePage(c, params, key)
    {
      if id in params && GradFits(params[id]) { PagedKeepsSize(c, root, q, id, params[id]); GradKept(c, root, q, id, params[id]); }
    }
  }

  lemma GradKept(c: Config, root: real -> real, q: Paged, id: ParamId, p: TrainableParam)
    requires ConfigOk(c) && GradFits(p)
    ensures |PagedParam(c, root, q, id, p).1.grad.data| == |p.grad.data|
  {
  }

  lemma {:induction false} DirtyGrows(c: Config, next: Next<Paged>, q: Paged, params: Params, order: seq<ParamId>, n: nat, key: (ParamId, nat))
    requires n <= |order| && DirtiesLivePages(c, next, key)
    ensures key in Fold(next, q, params, order, n).0.dirty <==> key in q.dirty || (SteppedBefore(order, n, key.0) && LivePage(c, params, key))
    ensures LivePage(c, Fold(next, q, params, order, n).1, key) <==> LivePage(c, params, key)
  {
    if n > 0 {
      DirtyGrows(c, next, q, params, order, n - 1, key);
      assert SteppedBefore(order, n, key.0) <==> SteppedBefore(order, n - 1, key.0) || order[n - 1] == key.0;
    }
  }

  /** Main theorem: after a step the dirty set is exactly the pages of the unfrozen parameters that
      were visited. */
  lemma DirtySetIsExact(c: Config, root: real -> real, q: Paged, params: Params, order: seq<ParamId>, key: (ParamId, nat))
    requires ConfigOk(c) && key.0 in params && GradFits(params[key.0])
    ensures key in PagedStep(c, root, q, params, order).0.dirty <==>
            key.0 in order && !params[key.0].frozen && key.1 * (if c.pageSize > 1 then c.pageSize else 1) < |params[key.0].data.data|
  {
    PlaceIs(key.1, SizeOf(c), 0);
    NextDirtiesLivePages(c, root, key);
    DirtyGrows(c, PagedNext(c, root), q.(stepCount := q.stepCount + 1, dirty := {}), params, order, |order|, key);
    PageInside(SizeOf(c), |params[key.0].data.data|, key.1);
  }
}
