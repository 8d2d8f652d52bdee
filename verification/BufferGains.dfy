/** The buffers of trainable matrix, norm and embedding parameters. Their gradient goes to the
    parameter's buffer and to the gradient map, and the two agree: the buffer gains exactly the
    final gradient of the parameter's tensor. */
module BufferGains {
  import opened Sums
  import opened Tensors
  import opened TapeModel
  import opened Sweep
  import opened Checkpoint
  import opened Adjoint
  import opened Pushforward

  /** Entries read tensor `w` exactly where they route its gradient to parameter `p`, and none of
      them is a LoRA side, whose gradient does not reach the gradient map. */
  ghost predicate Feeds(t: TapeView, w: TensorId, p: ParamId) {
    forall i {:trigger t.entries[i]} :: 0 <= i < |t.entries| ==> FeedsAt(t.entries[i], w, p)
  }

  /** Input `k` of entry `e` is where parameter `p` is trained through the gradient map. */
  predicate TrainsAt(e: TapeEntry, p: ParamId, k: int) {
    match e.metadata
    case MatMul(_, _, _, _, _) => e.paramId == Some(p) && k == 0
    case RmsNorm(_, w) => w == Some(p) && k == 1
    case Embedding(_, _, _, w) => w == Some(p) && k == 0
    case _ => false
  }

  ghost predicate FeedsAt(e: TapeEntry, w: TensorId, p: ParamId) {
    && (forall k {:trigger e.inputs[k]} :: 0 <= k < |e.inputs| ==> (e.inputs[k] == w <==> TrainsAt(e, p, k)))
    && (e.metadata.LoRAApply? ==> p != e.metadata.a && p != e.metadata.b)
  }

  /** The buffer of `p` holds what it held at first plus the gradient of `w` so far. */
  ghost predicate Gained(w: TensorId, p: ParamId, first: Tensor, grads: map<TensorId, Tensor>, params: Params) {
    && p in params && !params[p].frozen
    && params[p].grad == if w in grads then Plus(first, grads[w]) else first
  }

  function Plus(a: Tensor, b: Tensor): Tensor {
    Tensor(a.shape, AddSeq(a.data, b.data))
  }

  lemma PlusAssociates(a: Tensor, b: Tensor, c: Tensor)
    requires Like(a, b) && Like(b, c)
    ensures Plus(Plus(a, b), c) == Plus(a, Plus(b, c)) && Like(Plus(a, b), b)
  {
    var l, r := AddSeq(AddSeq(a.data, b.data), c.data), AddSeq(a.data, AddSeq(b.data, c.data));
    forall i | 0 <= i < |l| ensures l[i] == r[i] {
      assert AddSeq(a.data, b.data)[i] == a.data[i] + b.data[i] && AddSeq(b.data, c.data)[i] == b.data[i] + c.data[i];
    }
  }

  /** A parameter none of the routes is for is left alone. */
  lemma {:induction false} RoutesLeaveAlone(K: Kernels, params: Params, routes: seq<(ParamId, nat)>, gs: seq<Tensor>, n: nat, p: ParamId)
    requires n <= |routes| && forall i :: 0 <= i < |routes| ==> routes[i].1 < |gs| && routes[i].0 != p
    ensures var r := RouteParams(AccumulateSink(K), params, routes, gs, n);
            r.Kept? ==> (p in r.p <==> p in params) && (p in params ==> r.p[p] == params[p])
  {
    if n > 0 {
      RoutesLeaveAlone(K, params, routes, gs, n - 1, p);
      var q := RouteParams(AccumulateSink(K), params, routes, gs, n - 1);
      if q.Kept? {
        assert RouteParams(AccumulateSink(K), params, routes, gs, n) ==
               AccumulateParam(K.add, q.p, routes[n - 1].0, gs[routes[n - 1].1]);
      }
    }
  }

  /** Of the first `n` inputs at most input `k` is `w`. */
  lemma {:induction false} InputsReach(K: Kernels, grads: map<TensorId, Tensor>, e: TapeEntry, gs: seq<Tensor>, n: nat, w: TensorId, k: nat)
    requires n <= |gs| && n <= |e.inputs| && k < |gs|
    requires forall q :: 0 <= q < n ==> (e.inputs[q] == w ==> q == k)
    ensures var r := AccumulateInputs(K, grads, e, gs, n);
            r.Some? ==>
              if k < n && e.inputs[k] == w then
                w in r.value && Some(r.value[w]) == if w in grads then K.add(grads[w], gs[k]) else Some(gs[k])
              else (w in r.value <==> w in grads) && (w in grads ==> r.value[w] == grads[w])
  {
    if n > 0 {
      InputsReach(K, grads, e, gs, n - 1, w, k);
    }
  }

  /** An entry that routes to `p` does nothing else with its routes. */
  lemma OnlyRoute(e: TapeEntry, w: TensorId, p: ParamId, k: nat)
    requires FeedsAt(e, w, p) && TrainsAt(e, p, k)
    ensures ParamRoutes(e) == [(p, k)] && k < NumRouted(e.metadata)
  {
  }

  lemma FeedingStep(K: Kernels, t: TapeView, i: nat, w: TensorId, p: ParamId, k: nat, first: Tensor, gs: seq<Tensor>, s: SweepState<Params>)
    requires K.Valid() && AddsPointwise(K) && WellFormed(t) && i < |t.entries| && GradsFit(t, s.grads) && w in t.tensors && Like(first, t.tensors[w])
    requires FeedsAt(t.entries[i], w, p) && TrainsAt(t.entries[i], p, k) && k < |t.entries[i].inputs| && t.entries[i].inputs[k] == w
    requires |gs| == NumGrads(t.entries[i].metadata) && GradsMatchInputs(t, i, gs) && Gained(w, p, first, s.grads, s.params)
    ensures |t.entries[i].inputs| == Arity(t.entries[i].metadata)
    ensures var r := Deliver(K, AccumulateSink(K), t.entries[i], gs, s, map[], false);
            r.Running? ==> Gained(w, p, first, r.s.grads, r.s.params)
  {
    var e := t.entries[i];
    OnlyRoute(e, w, p, k);
    assert RouteParams(AccumulateSink(K), s.params, ParamRoutes(e), gs, 0) == Kept(s.params);
    assert RouteParams(AccumulateSink(K), s.params, ParamRoutes(e), gs, 1) == AccumulateParam(K.add, s.params, p, gs[k]);
    forall q | 0 <= q < |e.inputs| && e.inputs[q] == w ensures q == k { assert TrainsAt(e, p, q); }
    InputsReach(K, s.grads, e, gs, NumRouted(e.metadata), w, k);
    assert Like(gs[k], t.tensors[w]);
    if w in s.grads {
      assert Like(s.grads[w], t.tensors[w]);
      PlusAssociates(first, s.grads[w], gs[k]);
    }
  }

  lemma PassingStep(K: Kernels, e: TapeEntry, w: TensorId, p: ParamId, first: Tensor, gs: seq<Tensor>, s: SweepState<Params>)
    requires FeedsAt(e, w, p) && |e.inputs| == Arity(e.metadata) && |gs| == NumGrads(e.metadata)
    requires (forall k {:trigger TrainsAt(e, p, k)} :: 0 <= k < |e.inputs| ==> !TrainsAt(e, p, k)) && Gained(w, p, first, s.grads, s.params)
    ensures var r := Deliver(K, AccumulateSink(K), e, gs, s, map[], false);
            r.Running? ==> Gained(w, p, first, r.s.grads, r.s.params)
  {
    forall r | 0 <= r < |ParamRoutes(e)| ensures ParamRoutes(e)[r].0 != p {
      var (q, k) := ParamRoutes(e)[r];
      assert q == p && !e.metadata.LoRAApply? ==> TrainsAt(e, p, k);
    }
    RoutesLeaveAlone(K, s.params, ParamRoutes(e), gs, |ParamRoutes(e)|, p);
    assert forall k :: 0 <= k < |e.inputs| ==> e.inputs[k] != w;
    if |gs| > 0 { InputsReach(K, s.grads, e, gs, NumRouted(e.metadata), w, 0); }
  }

  lemma StepGains(K: Kernels, J: Jvp, t: TapeView, tan: map<TensorId, Tensor>, i: nat, w: TensorId, p: ParamId, first: Tensor, s: SweepState<Params>)
    requires Lawful(K, J, t) && TangentsFit(t, tan) && i < |t.entries| && Feeds(t, w, p) && w in t.tensors && Like(first, t.tensors[w])
    requires s.overlay == map[] && GradsFit(t, s.grads) && Gained(w, p, first, s.grads, s.params)
    ensures |t.entries[i].inputs| == Arity(t.entries[i].metadata)
    ensures var r := StepEntry(K, t, AccumulateSink(K), t.entries[i], s);
            r.Running? ==> Gained(w, p, first, r.s.grads, r.s.params)
  {
    var e := t.entries[i];
    if e.output in s.grads {
      ResidentEnter(K, t, i, s.active);
      ResidentOperandsPresent(t, i);
      KernelSucceeds(K, J, t, tan, i, s.grads[e.output]);
      var gs := K.vjp(e.metadata, Operands(t, map[], e), GetAny(t, map[], e.output), s.grads[e.output]).value;
      if k :| 0 <= k < |e.inputs| && TrainsAt(e, p, k) {
        FeedingStep(K, t, i, w, p, k, first, gs, s);
      } else {
        PassingStep(K, e, w, p, first, gs, s);
      }
    }
  }

  ghost predicate Gaining(t: TapeView, w: TensorId, p: ParamId, first: Tensor, s: SweepState<Params>) {
    && WellFormed(t) && w in t.tensors && Like(first, t.tensors[w])
    && s.overlay == map[] && GradsFit(t, s.grads) && BuffersFit(t, s.params) && Gained(w, p, first, s.grads, s.params)
  }

  lemma StepKeepsGaining(K: Kernels, J: Jvp, t: TapeView, tan: map<TensorId, Tensor>, i: nat, w: TensorId, p: ParamId, first: Tensor, s: SweepState<Params>)
    requires Lawful(K, J, t) && TangentsFit(t, tan) && i < |t.entries| && Feeds(t, w, p) && Gaining(t, w, p, first, s)
    ensures |t.entries[i].inputs| == Arity(t.entries[i].metadata)
    ensures var r := StepEntry(K, t, AccumulateSink(K), t.entries[i], s);
            r.Running? && Gaining(t, w, p, first, r.s)
  {
    StepSucceeds(K, J, t, tan, i, s);
    StepGains(K, J, t, tan, i, w, p, first, s);
  }

  lemma {:induction false} SweepGains(K: Kernels, J: Jvp, t: TapeView, tan: map<TensorId, Tensor>, n: nat, w: TensorId, p: ParamId, first: Tensor, s: SweepState<Params>)
    requires Lawful(K, J, t) && TangentsFit(t, tan) && n <= |t.entries| && Feeds(t, w, p) && Gaining(t, w, p, first, s)
    ensures var r := SweepDown(K, t, AccumulateSink(K), n, 0, s);
            r.Running? && Gaining(t, w, p, first, r.s)
  {
    if n > 0 {
      StepKeepsGaining(K, J, t, tan, n - 1, w, p, first, s);
      var next := StepEntry(K, t, AccumulateSink(K), t.entries[n - 1], s);
      SweepGains(K, J, t, tan, n - 1, w, p, first, next.s);
    }
  }

  /** Main result. On every tape with lawful kernels, a trainable parameter whose tensor is read
      exactly where its gradient is routed to it gains that tensor's final gradient, and keeps its
      buffer if the tensor has none. */
  lemma BufferGainsTheGradient(K: Kernels, J: Jvp, t: TapeView, w: TensorId, p: ParamId, lossGrad: Tensor, lossId: TensorId, params: Params)
    requires Lawful(K, J, t) && BuffersFit(t, params) && Feeds(t, w, p)
    requires w in t.tensors && w != lossId && p in params && !params[p].frozen && Like(params[p].grad, t.tensors[w])
    requires lossId < t.nextId && lossId in t.tensors && Like(lossGrad, t.tensors[lossId])
    ensures var r := BackwardRun(K, t, AccumulateSink(K), lossGrad, lossId, params);
            && r.Running? && p in r.s.params
            && r.s.params[p].grad == if w in r.s.grads then Plus(params[p].grad, r.s.grads[w]) else params[p].grad
  {
    var tan: map<TensorId, Tensor> := map id: TensorId | id in t.tensors :: ZerosLike(t.tensors[id]);
    SweepGains(K, J, t, tan, |t.entries|, w, p, params[p].grad, Start(lossGrad, lossId, params));
  }

  /** Freeing and replaying does not change what the buffer gains. */
  lemma FreedBufferGainsTheGradient(K: Kernels, J: Jvp, t: TapeView, w: TensorId, p: ParamId, lossGrad: Tensor, lossId: TensorId, params: Params)
    requires Checkpointable(K, t) && Lawful(K, J, t) && BuffersFit(t, params) && Feeds(t, w, p)
    requires w in t.tensors && w != lossId && p in params && !params[p].frozen && Like(params[p].grad, t.tensors[w])
    requires lossId < t.nextId && lossId in t.tensors && Like(lossGrad, t.tensors[lossId])
    ensures WellFormed(Freed(t))
    ensures var r := BackwardRun(K, Freed(t), AccumulateSink(K), lossGrad, lossId, params);
            && r.Running? && p in r.s.params
            && r.s.params[p].grad == if w in r.s.grads then Plus(params[p].grad, r.s.grads[w]) else params[p].grad
  {
    BufferGainsTheGradient(K, J, t, w, p, lossGrad, lossId, params);
    CheckpointingPreservesBackward(K, t, AccumulateSink(K), lossGrad, lossId, params);
  }
}
