/** Forward mode over a tape, and the two engine theorems put together: the sweep over a freed
    tape computes the adjoint of the forward push, whatever tangents the leaves are given. */
module Pushforward {
  import opened Sums
  import opened Tensors
  import opened TapeModel
  import opened Sweep
  import opened Checkpoint
  import opened Adjoint

  ghost predicate TangentsFor(tans: seq<Tensor>, ins: seq<Tensor>) {
    |tans| == |ins| && forall k {:trigger tans[k]} :: 0 <= k < |ins| ==> Like(tans[k], ins[k])
  }

  /** Entry `i` is locally adjoint for every tangent, its backward kernel succeeds, and its
      derivative has the shape of its output. */
  ghost predicate LocalLaws(K: Kernels, J: Jvp, t: TapeView, i: nat)
    requires WellFormed(t) && Resident(t) && i < |t.entries|
  {
    InputsResident(t, i);
    var e := t.entries[i];
    var ins, out := Values(t, e.inputs), t.tensors[e.output];
    && (forall tans {:trigger J(e.metadata, ins, tans)} :: TangentsFor(tans, ins) ==> Like(J(e.metadata, ins, tans), out))
    && (forall tans, g {:trigger LocalAdjoint(K, J, e.metadata, ins, out, tans, g)} :: TangentsFor(tans, ins) && Like(g, out) ==>
          LocalAdjoint(K, J, e.metadata, ins, out, tans, g))
    && (forall g {:trigger K.vjp(e.metadata, Somes(ins), Some(out), g)} :: Like(g, out) ==>
          K.vjp(e.metadata, Somes(ins), Some(out), g).Some?)
  }

  ghost predicate Lawful(K: Kernels, J: Jvp, t: TapeView) {
    && K.Valid() && AddsPointwise(K) && WellFormed(t) && Resident(t)
    && forall i {:trigger LocalLaws(K, J, t, i)} :: 0 <= i < |t.entries| ==> LocalLaws(K, J, t, i)
  }

  /** The tangents after pushing `leaf` through the first `n` entries. */
  ghost function Pushed(J: Jvp, t: TapeView, leaf: map<TensorId, Tensor>, n: nat): (tan: map<TensorId, Tensor>)
    requires WellFormed(t) && Resident(t) && n <= |t.entries|
    requires forall id: TensorId :: id < t.nextId ==> id in leaf
    ensures forall id: TensorId :: id < t.nextId ==> id in tan
  {
    if n == 0 then leaf
    else
      var tan := Pushed(J, t, leaf, n - 1);
      var e := t.entries[n - 1];
      InputsResident(t, n - 1);
      InputsOlder(t, n - 1);
      tan[e.output := J(e.metadata, Values(t, e.inputs), Tangents(tan, e.inputs))]
  }

  lemma InputsOlder(t: TapeView, i: nat)
    requires WellFormed(t) && i < |t.entries|
    ensures t.entries[i].output < t.nextId
    ensures forall k {:trigger t.entries[i].inputs[k]} :: 0 <= k < |t.entries[i].inputs| ==> t.entries[i].inputs[k] < t.entries[i].output
  {
  }

  /** Entry `i` pushes its input tangents to its output tangent. */
  ghost predicate PushesAt(J: Jvp, t: TapeView, tan: map<TensorId, Tensor>, i: nat)
    requires WellFormed(t) && Resident(t) && TangentsFit(t, tan) && i < |t.entries|
  {
    EntryIdsFit(t, tan, i);
    var e := t.entries[i];
    tan[e.output] == J(e.metadata, Values(t, e.inputs), Tangents(tan, e.inputs))
  }

  lemma PushFits(K: Kernels, J: Jvp, t: TapeView, tan: map<TensorId, Tensor>, i: nat)
    requires Lawful(K, J, t) && i < |t.entries| && TangentsFit(t, tan)
    ensures forall k {:trigger t.entries[i].inputs[k]} :: 0 <= k < |t.entries[i].inputs| ==>
              t.entries[i].inputs[k] in t.tensors && t.entries[i].inputs[k] in tan
    ensures var e := t.entries[i]; e.output in t.tensors && TangentsFor(Tangents(tan, e.inputs), Values(t, e.inputs))
    ensures var e := t.entries[i];
            Like(J(e.metadata, Values(t, e.inputs), Tangents(tan, e.inputs)), t.tensors[e.output])
  {
    EntryIdsFit(t, tan, i);
    assert LocalLaws(K, J, t, i);
  }

  lemma KeepsPush(J: Jvp, t: TapeView, tan: map<TensorId, Tensor>, i: nat, id: TensorId, v: Tensor)
    requires WellFormed(t) && Resident(t) && TangentsFit(t, tan) && i < |t.entries| && PushesAt(J, t, tan, i)
    requires id > t.entries[i].output && TangentsFit(t, tan[id := v])
    ensures PushesAt(J, t, tan[id := v], i)
  {
    EntryIdsFit(t, tan, i);
    var e := t.entries[i];
    assert Tangents(tan[id := v], e.inputs) == Tangents(tan, e.inputs);
  }

  /** The first `n` entries satisfy their equations. */
  ghost predicate PushesUpTo(J: Jvp, t: TapeView, tan: map<TensorId, Tensor>, n: nat)
    requires WellFormed(t) && Resident(t) && n <= |t.entries|
  {
    TangentsFit(t, tan) && forall i {:trigger PushesAt(J, t, tan, i)} :: 0 <= i < n ==> PushesAt(J, t, tan, i)
  }

  /** One more entry: its own equation holds, and the earlier ones still do. */
  lemma PushOne(K: Kernels, J: Jvp, t: TapeView, tan: map<TensorId, Tensor>, n: nat)
    requires Lawful(K, J, t) && n < |t.entries| && PushesUpTo(J, t, tan, n)
    ensures forall k {:trigger t.entries[n].inputs[k]} :: 0 <= k < |t.entries[n].inputs| ==>
              t.entries[n].inputs[k] in t.tensors && t.entries[n].inputs[k] in tan
    ensures var e := t.entries[n];
            var next := tan[e.output := J(e.metadata, Values(t, e.inputs), Tangents(tan, e.inputs))];
            PushesUpTo(J, t, next, n + 1)
  {
    PushFits(K, J, t, tan, n);
    var e := t.entries[n];
    var v := J(e.metadata, Values(t, e.inputs), Tangents(tan, e.inputs));
    var next := tan[e.output := v];
    assert TangentsFit(t, next);
    forall i | 0 <= i <= n ensures PushesAt(J, t, next, i) {
      if i < n {
        KeepsPush(J, t, tan, i, e.output, v);
      } else {
        InputsOlder(t, n);
        assert Tangents(next, e.inputs) == Tangents(tan, e.inputs);
      }
    }
  }

  /** Every entry satisfies its equation. */
  lemma {:induction false} PushedIs(K: Kernels, J: Jvp, t: TapeView, leaf: map<TensorId, Tensor>, n: nat)
    requires Lawful(K, J, t) && TangentsFit(t, leaf) && n <= |t.entries|
    ensures PushesUpTo(J, t, Pushed(J, t, leaf, n), n)
  {
    if n == 0 {
      PushedNone(J, t, leaf);
    } else {
      PushedIs(K, J, t, leaf, n - 1);
      PushedOne(K, J, t, leaf, n - 1, n);
    }
  }

  lemma PushedNone(J: Jvp, t: TapeView, leaf: map<TensorId, Tensor>)
    requires WellFormed(t) && Resident(t) && TangentsFit(t, leaf)
    ensures PushesUpTo(J, t, Pushed(J, t, leaf, 0), 0)
  {
  }

  lemma PushedOne(K: Kernels, J: Jvp, t: TapeView, leaf: map<TensorId, Tensor>, m: nat, n: nat)
    requires Lawful(K, J, t) && n == m + 1 <= |t.entries|
    requires forall id: TensorId :: id < t.nextId ==> id in leaf
    requires PushesUpTo(J, t, Pushed(J, t, leaf, m), m)
    ensures PushesUpTo(J, t, Pushed(J, t, leaf, n), n)
  {
    var tan := Pushed(J, t, leaf, m);
    PushOne(K, J, t, tan, m);
    assert n - 1 == m;
  }

  /** The leaves keep their tangents. */
  lemma {:induction false} PushedKeepsLeaf(J: Jvp, t: TapeView, leaf: map<TensorId, Tensor>, n: nat, id: TensorId)
    requires WellFormed(t) && Resident(t) && n <= |t.entries| && id < t.nextId && !WrittenFrom(t, 0, id)
    requires forall id: TensorId :: id < t.nextId ==> id in leaf
    ensures Pushed(J, t, leaf, n)[id] == leaf[id]
  {
    if n > 0 {
      PushedKeepsLeaf(J, t, leaf, n - 1, id);
      assert t.entries[n - 1].output != id;
    }
  }

  /** Everything the parameters must satisfy besides their shapes. */
  ghost predicate RoutedAll(t: TapeView, tan: map<TensorId, Tensor>, ps: seq<ParamId>)
    requires WellFormed(t) && Resident(t) && TangentsFit(t, tan)
  {
    && (forall i, j :: 0 <= i < j < |ps| ==> ps[i] != ps[j])
    && forall i {:trigger t.entries[i]} :: 0 <= i < |t.entries| ==> RoutedTo(t, tan, ps, i)
  }

  ghost predicate AllLaws(K: Kernels, J: Jvp, t: TapeView, tan: map<TensorId, Tensor>)
    requires WellFormed(t) && Resident(t) && TangentsFit(t, tan)
  {
    forall i {:trigger t.entries[i]} :: 0 <= i < |t.entries| ==> EntryLaw(K, J, t, tan, i)
  }

  lemma LawfulAndRouted(K: Kernels, J: Jvp, t: TapeView, tan: map<TensorId, Tensor>, ps: seq<ParamId>)
    requires Lawful(K, J, t) && TangentsFit(t, tan) && AllLaws(K, J, t, tan) && RoutedAll(t, tan, ps)
    ensures Differentiable(K, J, t, tan, ps)
  {
    forall i | 0 <= i < |t.entries| ensures EntryLaw(K, J, t, tan, i) && RoutedTo(t, tan, ps, i) {
      var e := t.entries[i];
    }
  }

  lemma PushIsDifferentiable(K: Kernels, J: Jvp, t: TapeView, leaf: map<TensorId, Tensor>, ps: seq<ParamId>)
    requires Lawful(K, J, t) && TangentsFit(t, leaf)
    ensures TangentsFit(t, Pushed(J, t, leaf, |t.entries|))
    ensures RoutedAll(t, Pushed(J, t, leaf, |t.entries|), ps) ==> Differentiable(K, J, t, Pushed(J, t, leaf, |t.entries|), ps)
  {
    PushedIs(K, J, t, leaf, |t.entries|);
    var tan := Pushed(J, t, leaf, |t.entries|);
    forall i | 0 <= i < |t.entries| ensures EntryLaw(K, J, t, tan, i) {
      assert PushesAt(J, t, tan, i);
      PushFits(K, J, t, tan, i);
      assert LocalLaws(K, J, t, i);
      EntryLawFromLocal(K, J, t, tan, i);
    }
    if RoutedAll(t, tan, ps) { LawfulAndRouted(K, J, t, tan, ps); }
  }

  lemma EntryLawFromLocal(K: Kernels, J: Jvp, t: TapeView, tan: map<TensorId, Tensor>, i: nat)
    requires WellFormed(t) && Resident(t) && TangentsFit(t, tan) && i < |t.entries|
    requires PushesAt(J, t, tan, i) && LocalLaws(K, J, t, i)
    ensures EntryLaw(K, J, t, tan, i)
  {
    EntryIdsFit(t, tan, i);
    var e := t.entries[i];
    var ins, tans := Values(t, e.inputs), Tangents(tan, e.inputs);
    assert TangentsFor(tans, ins);
    forall g | Like(g, t.tensors[e.output]) ensures LocalAdjoint(K, J, e.metadata, ins, t.tensors[e.output], tans, g) {
    }
  }

  // ---------------------------------------------------------------- success

  /** The buffer of `pid`, if it can be moved, has the shape of tensor `id`. */
  ghost predicate BufferLike(t: TapeView, params: Params, pid: ParamId, id: TensorId) {
    id in t.tensors && (pid in params && !params[pid].frozen ==> Like(params[pid].grad, t.tensors[id]))
  }

  /** The buffers of the parameters of entry `i` have the shapes of the operands they belong to. */
  ghost predicate EntryBuffersFit(t: TapeView, params: Params, i: nat)
    requires WellFormed(t) && i < |t.entries|
  {
    var e := t.entries[i];
    match e.metadata
    case LoRAApply(_, _, a, b) => BufferLike(t, params, a, e.inputs[2]) && BufferLike(t, params, b, e.inputs[3])
    case MatMul(_, _, _, _, _) => e.paramId.Some? ==> BufferLike(t, params, e.paramId.value, e.inputs[0])
    case RmsNorm(_, w) => w.Some? ==> BufferLike(t, params, w.value, e.inputs[1])
    case Embedding(_, _, _, w) => w.Some? ==> BufferLike(t, params, w.value, e.inputs[0])
    case _ => true
  }

  ghost predicate BuffersFit(t: TapeView, params: Params)
    requires WellFormed(t)
  {
    forall i {:trigger t.entries[i]} {:trigger EntryBuffersFit(t, params, i)} :: 0 <= i < |t.entries| ==> EntryBuffersFit(t, params, i)
  }

  /** The same, route by route. */
  lemma RouteFits(t: TapeView, params: Params, i: nat, r: nat)
    requires WellFormed(t) && i < |t.entries| && r < |ParamRoutes(t.entries[i])| && EntryBuffersFit(t, params, i)
    ensures var (pid, k) := ParamRoutes(t.entries[i])[r];
            k < |t.entries[i].inputs| && BufferLike(t, params, pid, t.entries[i].inputs[k])
  {
  }

  /** A buffer that gains a gradient of its own shape keeps it. */
  lemma BuffersKeepShape(t: TapeView, params: Params, i: nat, pid: ParamId, v: TrainableParam)
    requires WellFormed(t) && i < |t.entries| && EntryBuffersFit(t, params, i)
    requires pid in params && v.frozen == params[pid].frozen && Like(v.grad, params[pid].grad)
    ensures EntryBuffersFit(t, params[pid := v], i)
  {
  }

  lemma BuffersStayFit(K: Kernels, t: TapeView, params: Params, pid: ParamId, id: TensorId, g: Tensor)
    requires WellFormed(t) && AddsPointwise(K) && BuffersFit(t, params) && BufferLike(t, params, pid, id) && Like(g, t.tensors[id])
    ensures var q := AccumulateParam(K.add, params, pid, g);
            q.Kept? && BuffersFit(t, q.p)
  {
    if pid in params && !params[pid].frozen {
      assert Like(params[pid].grad, g);
      var v := params[pid].(grad := K.add(params[pid].grad, g).value);
      var next := params[pid := v];
      forall i | 0 <= i < |t.entries| ensures EntryBuffersFit(t, next, i) {
        BuffersKeepShape(t, params, i, pid, v);
      }
    }
  }

  lemma {:induction false} RoutesSucceed(K: Kernels, t: TapeView, i: nat, p: Params, gs: seq<Tensor>, n: nat)
    requires WellFormed(t) && AddsPointwise(K) && BuffersFit(t, p) && i < |t.entries|
    requires var e := t.entries[i];
             |gs| == NumGrads(e.metadata) && GradsMatchInputs(t, i, gs) && n <= |ParamRoutes(e)|
    ensures var r := RouteParams(AccumulateSink(K), p, ParamRoutes(t.entries[i]), gs, n);
            r.Kept? && BuffersFit(t, r.p)
  {
    if n > 0 {
      RoutesSucceed(K, t, i, p, gs, n - 1);
      var e := t.entries[i];
      var q := RouteParams(AccumulateSink(K), p, ParamRoutes(e), gs, n - 1).p;
      var (pid, k) := ParamRoutes(e)[n - 1];
      RouteFits(t, q, i, n - 1);
      BuffersStayFit(K, t, q, pid, e.inputs[k], gs[k]);
      assert RouteParams(AccumulateSink(K), p, ParamRoutes(e), gs, n) == AccumulateParam(K.add, q, pid, gs[k]);
    }
  }

  /** The backward kernel of entry `i` succeeds, with gradients of the inputs' shapes. */
  lemma KernelSucceeds(K: Kernels, J: Jvp, t: TapeView, tan: map<TensorId, Tensor>, i: nat, g: Tensor)
    requires Lawful(K, J, t) && TangentsFit(t, tan) && i < |t.entries|
    requires t.entries[i].output in t.tensors && Like(g, t.tensors[t.entries[i].output])
    ensures var e := t.entries[i];
            var gs := K.vjp(e.metadata, Operands(t, map[], e), GetAny(t, map[], e.output), g);
            gs.Some? && |gs.value| == NumGrads(e.metadata) && GradsMatchInputs(t, i, gs.value)
  {
    PushFits(K, J, t, tan, i);
    var e := t.entries[i];
    var ins, tans := Values(t, e.inputs), Tangents(tan, e.inputs);
    assert Operands(t, map[], e) == Somes(ins);
    assert LocalLaws(K, J, t, i);
    assert LocalAdjoint(K, J, e.metadata, ins, t.tensors[e.output], tans, g);
  }

  lemma StepSucceeds(K: Kernels, J: Jvp, t: TapeView, tan: map<TensorId, Tensor>, i: nat, s: SweepState<Params>)
    requires Lawful(K, J, t) && TangentsFit(t, tan) && i < |t.entries|
    requires s.overlay == map[] && GradsFit(t, s.grads) && BuffersFit(t, s.params)
    ensures |t.entries[i].inputs| == Arity(t.entries[i].metadata)
    ensures var r := StepEntry(K, t, AccumulateSink(K), t.entries[i], s);
            r.Running? && r.s.overlay == map[] && GradsFit(t, r.s.grads) && BuffersFit(t, r.s.params)
  {
    var e := t.entries[i];
    if e.output in s.grads {
      ResidentEnter(K, t, i, s.active);
      ResidentOperandsPresent(t, i);
      KernelSucceeds(K, J, t, tan, i, s.grads[e.output]);
      var gs := K.vjp(e.metadata, Operands(t, map[], e), GetAny(t, map[], e.output), s.grads[e.output]).value;
      RoutesSucceed(K, t, i, s.params, gs, |ParamRoutes(e)|);
      InputsPairing(K, t, tan, i, s.grads, gs, NumRouted(e.metadata));
    }
  }

  /** With lawful kernels the backward pass never fails, as long as every parameter buffer it may
      move has the shape of the operand it is routed for. */
  lemma {:induction false} SweepSucceeds(K: Kernels, J: Jvp, t: TapeView, tan: map<TensorId, Tensor>, n: nat, s: SweepState<Params>)
    requires Lawful(K, J, t) && TangentsFit(t, tan) && n <= |t.entries|
    requires s.overlay == map[] && GradsFit(t, s.grads) && BuffersFit(t, s.params)
    ensures SweepDown(K, t, AccumulateSink(K), n, 0, s).Running?
  {
    if n > 0 {
      StepSucceeds(K, J, t, tan, n - 1, s);
      SweepSucceeds(K, J, t, tan, n - 1, StepEntry(K, t, AccumulateSink(K), t.entries[n - 1], s).s);
    }
  }

  // ---------------------------------------------------------------- the two theorems together

  /** What the caller supplies: tangents for the leaves, parameters that receive the LoRA gradients
      of the tensors they are registered for, buffers that fit, and a fitting loss gradient. */
  ghost predicate Posed(J: Jvp, t: TapeView, leaf: map<TensorId, Tensor>, ps: seq<ParamId>, lossGrad: Tensor, lossId: TensorId, params: Params)
    requires WellFormed(t) && Resident(t)
  {
    && TangentsFit(t, leaf)
    && (var tan := Pushed(J, t, leaf, |t.entries|); TangentsFit(t, tan) ==> RoutedAll(t, tan, ps))
    && ParamsFit(t, ps, params) && BuffersFit(t, params)
    && lossId < t.nextId && lossId in t.tensors && Like(lossGrad, t.tensors[lossId])
  }

  /** The run succeeded, and its gradients pair with the leaf tangents as the loss gradient pairs
      with the pushed tangent. */
  ghost predicate IsAdjointRun(J: Jvp, t: TapeView, leaf: map<TensorId, Tensor>, ps: seq<ParamId>, lossGrad: Tensor, lossId: TensorId,
                               params: Params, r: Run<Params>)
    requires WellFormed(t) && Resident(t) && TangentsFit(t, leaf)
  {
    var tan := Pushed(J, t, leaf, |t.entries|);
    && r.Running? && lossId in tan
    && Dot(lossGrad.data, tan[lossId].data) ==
       LivePairing(t, leaf, 0, r.s.grads) + ParamPairing(t, tan, ps, r.s.params) - ParamPairing(t, tan, ps, params)
  }

  /** Main theorem, nothing freed. With lawful kernels the backward pass succeeds and computes the
      adjoint of the forward push. No operation needs to be replayable. */
  lemma FullBackwardIsTheAdjoint(K: Kernels, J: Jvp, t: TapeView, leaf: map<TensorId, Tensor>, ps: seq<ParamId>,
                                 lossGrad: Tensor, lossId: TensorId, params: Params)
    requires Lawful(K, J, t) && Posed(J, t, leaf, ps, lossGrad, lossId, params)
    ensures IsAdjointRun(J, t, leaf, ps, lossGrad, lossId, params, BackwardRun(K, t, AccumulateSink(K), lossGrad, lossId, params))
  {
    var tan := Pushed(J, t, leaf, |t.entries|);
    PushIsDifferentiable(K, J, t, leaf, ps);
    BackwardIsTheAdjoint(K, J, t, tan, ps, lossGrad, lossId, params);
    SweepSucceeds(K, J, t, tan, |t.entries|, Start(lossGrad, lossId, params));
    LeavesKeepTangents(K, J, t, leaf, BackwardRun(K, t, AccumulateSink(K), lossGrad, lossId, params).s.grads);
  }

  /** Main theorem, after freeing. On a tape whose segments can be replayed the same holds of the
      pass over the *freed* tape. */
  lemma FreedBackwardIsTheAdjoint(K: Kernels, J: Jvp, t: TapeView, leaf: map<TensorId, Tensor>, ps: seq<ParamId>,
                                  lossGrad: Tensor, lossId: TensorId, params: Params)
    requires Checkpointable(K, t) && Lawful(K, J, t) && Posed(J, t, leaf, ps, lossGrad, lossId, params)
    ensures WellFormed(Freed(t))
    ensures IsAdjointRun(J, t, leaf, ps, lossGrad, lossId, params, BackwardRun(K, Freed(t), AccumulateSink(K), lossGrad, lossId, params))
  {
    CheckpointingPreservesBackward(K, t, AccumulateSink(K), lossGrad, lossId, params);
    FullBackwardIsTheAdjoint(K, J, t, leaf, ps, lossGrad, lossId, params);
  }

  lemma LeavesKeepTangents(K: Kernels, J: Jvp, t: TapeView, leaf: map<TensorId, Tensor>, grads: map<TensorId, Tensor>)
    requires Lawful(K, J, t) && TangentsFit(t, leaf)
    ensures LivePairing(t, Pushed(J, t, leaf, |t.entries|), 0, grads) == LivePairing(t, leaf, 0, grads)
  {
    PushedIs(K, J, t, leaf, |t.entries|);
    var tan := Pushed(J, t, leaf, |t.entries|);
    forall id | 0 <= id < t.nextId ensures LiveTerm(t, tan, 0, grads, id) == LiveTerm(t, leaf, 0, grads, id) {
      if !WrittenFrom(t, 0, id) { PushedKeepsLeaf(J, t, leaf, |t.entries|, id); }
    }
    SumExt(t.nextId, id => LiveTerm(t, tan, 0, grads, id), id => LiveTerm(t, leaf, 0, grads, id));
  }
}
