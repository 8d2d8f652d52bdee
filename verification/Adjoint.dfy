/** Reverse-mode correctness: the backward sweep computes the adjoint of the whole tape. Pairing
    the loss gradient with a forward-pushed tangent equals pairing the final leaf gradients (and
    the parameter buffers) with the leaf tangents. */
module Adjoint {
  import opened Sums
  import opened Tensors
  import opened TapeModel
  import opened Sweep
  import opened Checkpoint

  type Params = map<ParamId, TrainableParam>

  /** `TrainableParam::accumulate_grad` behind the registry lookup of the plain backward pass. */
  function AccumulateParam(add: (Tensor, Tensor) -> Option<Tensor>, params: Params, pid: ParamId, g: Tensor): SinkResult<Params> {
    if pid !in params || params[pid].frozen then Kept(params)
    else
      match add(params[pid].grad, g)
      case None => Refused(KernelFailed, params)
      case Some(sum) => Kept(params[pid := params[pid].(grad := sum)])
  }

  function AccumulateSink(K: Kernels): Sink<Params> {
    (params: Params, pid: ParamId, g: Tensor) => AccumulateParam(K.add, params, pid, g)
  }

  /** Addition of equal shapes is pointwise. */
  ghost predicate AddsPointwise(K: Kernels) {
    forall a, b {:trigger K.add(a, b)} :: Like(a, b) ==> K.add(a, b) == Some(Tensor(a.shape, AddSeq(a.data, b.data)))
  }

  // ---------------------------------------------------------------- tangents

  /** The forward derivative of one operation: inputs and input tangents to output tangent. */
  type Jvp = (Metadata, seq<Tensor>, seq<Tensor>) -> Tensor

  ghost predicate TangentsFit(t: TapeView, tan: map<TensorId, Tensor>) {
    forall id: TensorId {:trigger id in tan} {:trigger tan[id]} :: id < t.nextId ==> id in t.tensors && id in tan && Like(tan[id], t.tensors[id])
  }

  function Tangents(tan: map<TensorId, Tensor>, ids: seq<TensorId>): (r: seq<Tensor>)
    requires forall k :: 0 <= k < |ids| ==> ids[k] in tan
    ensures |r| == |ids|
  {
    seq(|ids|, k requires 0 <= k < |ids| => tan[ids[k]])
  }

  lemma EntryIdsFit(t: TapeView, tan: map<TensorId, Tensor>, i: nat)
    requires WellFormed(t) && Resident(t) && TangentsFit(t, tan) && i < |t.entries|
    ensures var e := t.entries[i];
            && e.output in t.tensors && e.output in tan && e.output < t.nextId
            && forall k {:trigger e.inputs[k]} :: 0 <= k < |e.inputs| ==>
                 e.inputs[k] in t.tensors && e.inputs[k] in tan && e.inputs[k] < e.output
  {
    InputsResident(t, i);
    var e := t.entries[i];
    forall k | 0 <= k < |e.inputs| ensures e.inputs[k] in tan && e.inputs[k] < e.output {
      assert t.entries[i].inputs[k] < t.entries[i].output;
    }
  }

  /** Sum of the first `n` pairings of input gradients with input tangents. */
  function PairSum(gs: seq<Tensor>, tans: seq<Tensor>, n: nat): real
    requires n <= |gs| && n <= |tans|
  {
    if n == 0 then 0.0 else PairSum(gs, tans, n - 1) + Dot(gs[n - 1].data, tans[n - 1].data)
  }

  function Somes(ts: seq<Tensor>): seq<Option<Tensor>> {
    seq(|ts|, k requires 0 <= k < |ts| => Some(ts[k]))
  }

  /** The local law: a backward kernel is the adjoint of its operation's derivative, and its
      gradients have the shapes of the inputs. */
  ghost predicate LocalAdjoint(K: Kernels, J: Jvp, m: Metadata, ins: seq<Tensor>, out: Tensor, tans: seq<Tensor>, g: Tensor)
    requires |ins| == |tans| == Arity(m)
  {
    var r := K.vjp(m, Somes(ins), Some(out), g);
    r.Some? ==>
      && |r.value| == NumGrads(m)
      && (forall k {:trigger r.value[k]} :: 0 <= k < NumGrads(m) ==> Like(r.value[k], ins[k]))
      && Dot(g.data, J(m, ins, tans).data) == PairSum(r.value, tans, NumGrads(m))
  }

  /** Entry `i` pushes its input tangents to its output tangent, and its backward kernel is
      locally adjoint there. */
  ghost predicate EntryLaw(K: Kernels, J: Jvp, t: TapeView, tan: map<TensorId, Tensor>, i: nat)
    requires WellFormed(t) && Resident(t) && TangentsFit(t, tan) && i < |t.entries|
  {
    EntryIdsFit(t, tan, i);
    var e := t.entries[i];
    var ins, tans := Values(t, e.inputs), Tangents(tan, e.inputs);
    && tan[e.output] == J(e.metadata, ins, tans)
    && forall g {:trigger K.vjp(e.metadata, Somes(ins), Some(t.tensors[e.output]), g)} ::
         Like(g, t.tensors[e.output]) ==> LocalAdjoint(K, J, e.metadata, ins, t.tensors[e.output], tans, g)
  }

  /** A LoRA side `pid` that an entry reads as tensor `id`: in `ps` it is registered for that very
      tensor; outside `ps` (frozen, say) the tensor is not moved. */
  ghost predicate SideRouted(t: TapeView, tan: map<TensorId, Tensor>, ps: seq<ParamId>, pid: ParamId, id: TensorId)
    requires id in tan
  {
    if pid in ps then pid in t.paramTensors && t.paramTensors[pid] == id else IsZero(tan[id].data)
  }

  /** LoRA's A is the third operand of entry `i` and its B the fourth. The parameters of other
      operations are not in `ps`: their gradients also reach the gradient map. */
  ghost predicate RoutedTo(t: TapeView, tan: map<TensorId, Tensor>, ps: seq<ParamId>, i: nat)
    requires WellFormed(t) && Resident(t) && TangentsFit(t, tan) && i < |t.entries|
  {
    EntryIdsFit(t, tan, i);
    var e := t.entries[i];
    match e.metadata
    case LoRAApply(_, _, a, b) => SideRouted(t, tan, ps, a, e.inputs[2]) && SideRouted(t, tan, ps, b, e.inputs[3])
    case MatMul(_, _, _, _, _) => e.paramId.Some? ==> e.paramId.value !in ps
    case RmsNorm(_, w) => w.Some? ==> w.value !in ps
    case Embedding(_, _, _, w) => w.Some? ==> w.value !in ps
    case _ => true
  }

  ghost predicate Differentiable(K: Kernels, J: Jvp, t: TapeView, tan: map<TensorId, Tensor>, ps: seq<ParamId>) {
    && K.Valid() && AddsPointwise(K) && WellFormed(t) && Resident(t) && TangentsFit(t, tan)
    && (forall i, j :: 0 <= i < j < |ps| ==> ps[i] != ps[j])
    && (forall i {:trigger t.entries[i]} :: 0 <= i < |t.entries| ==> EntryLaw(K, J, t, tan, i) && RoutedTo(t, tan, ps, i))
  }

  // ---------------------------------------------------------------- the conserved pairing

  ghost predicate WrittenFrom(t: TapeView, i: nat, id: TensorId) {
    exists j :: i <= j < |t.entries| && t.entries[j].output == id
  }

  ghost predicate GradsFit(t: TapeView, grads: map<TensorId, Tensor>) {
    forall id {:trigger grads[id]} :: id in grads ==> id < t.nextId && id in t.tensors && Like(grads[id], t.tensors[id])
  }

  ghost function LiveTerm(t: TapeView, tan: map<TensorId, Tensor>, i: nat, grads: map<TensorId, Tensor>, id: int): real {
    if 0 <= id && id in grads && id in tan && !WrittenFrom(t, i, id) then Dot(grads[id].data, tan[id].data) else 0.0
  }

  /** Pairing of gradients and tangents over the tensors not written by entries `i..`. At
      `i == 0` these are the leaves. */
  ghost function LivePairing(t: TapeView, tan: map<TensorId, Tensor>, i: nat, grads: map<TensorId, Tensor>): real {
    Sum(t.nextId, id => LiveTerm(t, tan, i, grads, id))
  }

  function ParamPairing(t: TapeView, tan: map<TensorId, Tensor>, ps: seq<ParamId>, params: Params): real {
    if ps == [] then 0.0
    else
      var p := ps[|ps| - 1];
      ParamPairing(t, tan, ps[..|ps| - 1], params) +
      if p in params && p in t.paramTensors && t.paramTensors[p] in tan
      then Dot(params[p].grad.data, tan[t.paramTensors[p]].data) else 0.0
  }

  ghost predicate ParamsFit(t: TapeView, ps: seq<ParamId>, params: Params) {
    forall p {:trigger p in ps} :: p in ps ==>
      p in params && !params[p].frozen && p in t.paramTensors &&
      t.paramTensors[p] < t.nextId && t.paramTensors[p] in t.tensors && Like(params[p].grad, t.tensors[t.paramTensors[p]])
  }

  lemma AccumulatePairing(K: Kernels, t: TapeView, tan: map<TensorId, Tensor>, i: nat, grads: map<TensorId, Tensor>, id: TensorId, g: Tensor)
    requires AddsPointwise(K) && TangentsFit(t, tan) && GradsFit(t, grads)
    requires id < t.nextId && id in t.tensors && Like(g, t.tensors[id]) && !WrittenFrom(t, i, id)
    ensures id in tan
    ensures var r := AccumulateTensorGrad(K, grads, id, g);
            && r.Some? && GradsFit(t, r.value)
            && LivePairing(t, tan, i, r.value) == LivePairing(t, tan, i, grads) + Dot(g.data, tan[id].data)
  {
    var r := AccumulateTensorGrad(K, grads, id, g);
    assert Like(tan[id], t.tensors[id]);
    if id in grads {
      assert Like(grads[id], g);
      DotAdd(grads[id].data, g.data, tan[id].data);
    }
    var f := (x: int) => LiveTerm(t, tan, i, grads, x);
    var h := (x: int) => LiveTerm(t, tan, i, r.value, x);
    SumChange(t.nextId, f, h, id);
    SumExt(t.nextId, f, x => LiveTerm(t, tan, i, grads, x));
    SumExt(t.nextId, h, x => LiveTerm(t, tan, i, r.value, x));
  }

  /** Retiring entry `i`'s output from the live tensors. */
  lemma RetireOutput(t: TapeView, tan: map<TensorId, Tensor>, i: nat, grads: map<TensorId, Tensor>)
    requires WellFormed(t) && Resident(t) && TangentsFit(t, tan) && i < |t.entries|
    ensures var o := t.entries[i].output;
            LivePairing(t, tan, i + 1, grads) ==
            LivePairing(t, tan, i, grads) + if o in grads && o in tan then Dot(grads[o].data, tan[o].data) else 0.0
  {
    var o := t.entries[i].output;
    var f := (x: int) => LiveTerm(t, tan, i, grads, x);
    var h := (x: int) => LiveTerm(t, tan, i + 1, grads, x);
    forall x | 0 <= x < t.nextId && x != o ensures f(x) == h(x) {
      assert WrittenFrom(t, i, x) <==> WrittenFrom(t, i + 1, x);
    }
    assert WrittenFrom(t, i, o);
    assert !WrittenFrom(t, i + 1, o);
    SumChange(t.nextId, f, h, o);
  }

  /** An entry's inputs are older than anything written by it or after it. */
  lemma InputsNotWrittenFrom(t: TapeView, i: nat, k: nat)
    requires WellFormed(t) && i < |t.entries| && k < |t.entries[i].inputs|
    ensures !WrittenFrom(t, i, t.entries[i].inputs[k])
  {
    assert t.entries[i].inputs[k] < t.entries[i].output;
    assert forall j :: i < j < |t.entries| ==> t.entries[i].output < t.entries[j].output;
  }

  /** The gradients `gs` have the shapes of entry `i`'s leading inputs. */
  ghost predicate GradsMatchInputs(t: TapeView, i: nat, gs: seq<Tensor>) {
    && i < |t.entries| && |gs| <= |t.entries[i].inputs|
    && forall k {:trigger gs[k]} :: 0 <= k < |gs| ==>
         t.entries[i].inputs[k] in t.tensors && Like(gs[k], t.tensors[t.entries[i].inputs[k]])
  }

  lemma {:induction false} InputsPairing(K: Kernels, t: TapeView, tan: map<TensorId, Tensor>, i: nat, grads: map<TensorId, Tensor>, gs: seq<Tensor>, n: nat)
    requires WellFormed(t) && Resident(t) && TangentsFit(t, tan) && AddsPointwise(K) && GradsFit(t, grads)
    requires GradsMatchInputs(t, i, gs) && n <= |gs|
    ensures forall k :: 0 <= k < |t.entries[i].inputs| ==> t.entries[i].inputs[k] in tan
    ensures var r := AccumulateInputs(K, grads, t.entries[i], gs, n);
            && r.Some? && GradsFit(t, r.value)
            && LivePairing(t, tan, i, r.value) ==
               LivePairing(t, tan, i, grads) + PairSum(gs, Tangents(tan, t.entries[i].inputs), n)
  {
    EntryIdsFit(t, tan, i);
    var e := t.entries[i];
    if n > 0 {
      InputsPairing(K, t, tan, i, grads, gs, n - 1);
      var mid := AccumulateInputs(K, grads, e, gs, n - 1).value;
      var id := e.inputs[n - 1];
      InputsNotWrittenFrom(t, i, n - 1);
      assert id < t.nextId && id in t.tensors && Like(gs[n - 1], t.tensors[id]) by {
        assert id < e.output < t.nextId;
      }
      AccumulatePairing(K, t, tan, i, mid, id, gs[n - 1]);
      assert AccumulateInputs(K, grads, e, gs, n) == AccumulateTensorGrad(K, mid, id, gs[n - 1]);
      assert Tangents(tan, e.inputs)[n - 1] == tan[id];
    }
  }

  lemma {:induction false} ParamPairingUnchanged(t: TapeView, tan: map<TensorId, Tensor>, ps: seq<ParamId>, a: Params, p: ParamId, v: TrainableParam)
    requires p !in ps
    ensures ParamPairing(t, tan, ps, a[p := v]) == ParamPairing(t, tan, ps, a)
  {
    if ps != [] { ParamPairingUnchanged(t, tan, ps[..|ps| - 1], a, p, v); }
  }

  lemma {:induction false} ParamPairingAt(t: TapeView, tan: map<TensorId, Tensor>, ps: seq<ParamId>, a: Params, p: ParamId, v: TrainableParam)
    requires p in ps && forall i, j :: 0 <= i < j < |ps| ==> ps[i] != ps[j]
    requires p in a && p in t.paramTensors && t.paramTensors[p] in tan
    ensures ParamPairing(t, tan, ps, a[p := v]) ==
            ParamPairing(t, tan, ps, a) - Dot(a[p].grad.data, tan[t.paramTensors[p]].data) + Dot(v.grad.data, tan[t.paramTensors[p]].data)
  {
    var n := |ps| - 1;
    if ps[n] == p {
      ParamPairingUnchanged(t, tan, ps[..n], a, p, v);
    } else {
      assert p in ps[..n];
      ParamPairingAt(t, tan, ps[..n], a, p, v);
    }
  }

  /** What one routed contribution `(pid, k)` of entry `i` adds to the parameter pairing. */
  function Contribution(t: TapeView, tan: map<TensorId, Tensor>, e: TapeEntry, k: nat, g: Tensor): real {
    if e.metadata.LoRAApply? && k < |e.inputs| && e.inputs[k] in tan then Dot(g.data, tan[e.inputs[k]].data) else 0.0
  }

  /** One routed contribution moves the parameter pairing by its own pairing. */
  lemma ContributionPairing(K: Kernels, t: TapeView, tan: map<TensorId, Tensor>, ps: seq<ParamId>, i: nat, r: nat, p: Params, g: Tensor)
    requires WellFormed(t) && Resident(t) && TangentsFit(t, tan) && AddsPointwise(K) && ParamsFit(t, ps, p)
    requires forall i, j :: 0 <= i < j < |ps| ==> ps[i] != ps[j]
    requires i < |t.entries| && RoutedTo(t, tan, ps, i) && r < |ParamRoutes(t.entries[i])|
    requires var k := ParamRoutes(t.entries[i])[r].1;
             k < |t.entries[i].inputs| && t.entries[i].inputs[k] in t.tensors && Like(g, t.tensors[t.entries[i].inputs[k]])
    ensures var (pid, k) := ParamRoutes(t.entries[i])[r];
            var q := AccumulateParam(K.add, p, pid, g);
            q.Kept? ==>
              && ParamsFit(t, ps, q.p)
              && ParamPairing(t, tan, ps, q.p) == ParamPairing(t, tan, ps, p) + Contribution(t, tan, t.entries[i], k, g)
  {
    var e := t.entries[i];
    var (pid, k) := ParamRoutes(e)[r];
    EntryIdsFit(t, tan, i);
    var id := e.inputs[k];
    assert id in tan && Like(tan[id], t.tensors[id]);
    var q := AccumulateParam(K.add, p, pid, g);
    if pid in ps {
      var sum := K.add(p[pid].grad, g);
      assert Like(p[pid].grad, g);
      DotAdd(p[pid].grad.data, g.data, tan[id].data);
      ParamPairingAt(t, tan, ps, p, pid, p[pid].(grad := sum.value));
    } else {
      if q.Kept? && pid in p { ParamPairingUnchanged(t, tan, ps, p, pid, q.p[pid]); assert q.p == p[pid := q.p[pid]]; }
      if e.metadata.LoRAApply? { DotZero(g.data, tan[id].data); }
    }
  }

  /** All of one entry's contributions together. */
  lemma RoutesPairing(K: Kernels, t: TapeView, tan: map<TensorId, Tensor>, ps: seq<ParamId>, i: nat, p: Params, gs: seq<Tensor>)
    requires WellFormed(t) && Resident(t) && TangentsFit(t, tan) && AddsPointwise(K) && ParamsFit(t, ps, p)
    requires forall i, j :: 0 <= i < j < |ps| ==> ps[i] != ps[j]
    requires i < |t.entries| && RoutedTo(t, tan, ps, i)
    requires var e := t.entries[i];
             |e.inputs| == Arity(e.metadata) && |gs| == NumGrads(e.metadata) && GradsMatchInputs(t, i, gs)
    ensures var e := t.entries[i];
            var r := RouteParams(AccumulateSink(K), p, ParamRoutes(e), gs, |ParamRoutes(e)|);
            r.Kept? ==>
              && ParamsFit(t, ps, r.p)
              && ParamPairing(t, tan, ps, r.p) == ParamPairing(t, tan, ps, p) +
                 (if e.metadata.LoRAApply? then Contribution(t, tan, e, 2, gs[2]) + Contribution(t, tan, e, 3, gs[3]) else 0.0)
  {
    var e := t.entries[i];
    var routes := ParamRoutes(e);
    var sink := AccumulateSink(K);
    var p0 := RouteParams(sink, p, routes, gs, 0);
    assert p0 == Kept(p);
    if |routes| >= 1 {
      ContributionPairing(K, t, tan, ps, i, 0, p, gs[routes[0].1]);
      var p1 := RouteParams(sink, p, routes, gs, 1);
      assert p1 == AccumulateParam(K.add, p, routes[0].0, gs[routes[0].1]);
      if |routes| == 2 && p1.Kept? {
        ContributionPairing(K, t, tan, ps, i, 1, p1.p, gs[routes[1].1]);
        assert RouteParams(sink, p, routes, gs, 2) == AccumulateParam(K.add, p1.p, routes[1].0, gs[routes[1].1]);
      }
    }
  }

  /** Delivering one entry's gradients moves the two pairings by the local pairing in all. */
  lemma DeliverPairing(K: Kernels, t: TapeView, tan: map<TensorId, Tensor>, ps: seq<ParamId>, i: nat, gs: seq<Tensor>, s: SweepState<Params>)
    requires WellFormed(t) && Resident(t) && TangentsFit(t, tan) && AddsPointwise(K)
    requires forall i, j :: 0 <= i < j < |ps| ==> ps[i] != ps[j]
    requires i < |t.entries| && RoutedTo(t, tan, ps, i)
    requires GradsFit(t, s.grads) && ParamsFit(t, ps, s.params)
    requires var e := t.entries[i];
             |e.inputs| == Arity(e.metadata) && |gs| == NumGrads(e.metadata) && GradsMatchInputs(t, i, gs)
    ensures forall k :: 0 <= k < |t.entries[i].inputs| ==> t.entries[i].inputs[k] in tan
    ensures var r := Deliver(K, AccumulateSink(K), t.entries[i], gs, s, map[], false);
            r.Running? ==>
              && GradsFit(t, r.s.grads) && ParamsFit(t, ps, r.s.params)
              && LivePairing(t, tan, i, r.s.grads) + ParamPairing(t, tan, ps, r.s.params) ==
                 LivePairing(t, tan, i, s.grads) + ParamPairing(t, tan, ps, s.params) +
                 PairSum(gs, Tangents(tan, t.entries[i].inputs), |gs|)
  {
    var e := t.entries[i];
    var tans := (EntryIdsFit(t, tan, i); Tangents(tan, e.inputs));
    InputsPairing(K, t, tan, i, s.grads, gs, NumRouted(e.metadata));
    RoutesPairing(K, t, tan, ps, i, s.params, gs);
    if e.metadata.LoRAApply? {
      assert PairSum(gs, tans, 3) == PairSum(gs, tans, 2) + Contribution(t, tan, e, 2, gs[2]);
      assert PairSum(gs, tans, 4) == PairSum(gs, tans, 3) + Contribution(t, tan, e, 3, gs[3]);
    }
  }

  lemma StepPairing(K: Kernels, J: Jvp, t: TapeView, tan: map<TensorId, Tensor>, ps: seq<ParamId>, i: nat, s: SweepState<Params>)
    requires Differentiable(K, J, t, tan, ps) && i < |t.entries|
    requires s.overlay == map[] && GradsFit(t, s.grads) && ParamsFit(t, ps, s.params)
    ensures |t.entries[i].inputs| == Arity(t.entries[i].metadata)
    ensures var r := StepEntry(K, t, AccumulateSink(K), t.entries[i], s);
            r.Running? ==>
              && r.s.overlay == map[] && GradsFit(t, r.s.grads) && ParamsFit(t, ps, r.s.params)
              && LivePairing(t, tan, i, r.s.grads) + ParamPairing(t, tan, ps, r.s.params) ==
                 LivePairing(t, tan, i + 1, s.grads) + ParamPairing(t, tan, ps, s.params)
  {
    var e := t.entries[i];
    RetireOutput(t, tan, i, s.grads);
    EntryIdsFit(t, tan, i);
    if e.output in s.grads {
      ResidentEnter(K, t, i, s.active);
      var g := s.grads[e.output];
      assert Like(g, t.tensors[e.output]);
      var ins, tans := Values(t, e.inputs), Tangents(tan, e.inputs);
      assert Operands(t, map[], e) == Somes(ins);
      var gs := K.vjp(e.metadata, Somes(ins), Some(t.tensors[e.output]), g);
      if gs.Some? {
        assert EntryLaw(K, J, t, tan, i);
        assert LocalAdjoint(K, J, e.metadata, ins, t.tensors[e.output], tans, g);
        DeliverPairing(K, t, tan, ps, i, gs.value, s);
      }
    }
  }

  lemma {:induction false} SweepPairing(K: Kernels, J: Jvp, t: TapeView, tan: map<TensorId, Tensor>, ps: seq<ParamId>, n: nat, s: SweepState<Params>)
    requires Differentiable(K, J, t, tan, ps) && n <= |t.entries|
    requires s.overlay == map[] && GradsFit(t, s.grads) && ParamsFit(t, ps, s.params)
    ensures var r := SweepDown(K, t, AccumulateSink(K), n, 0, s);
            r.Running? ==>
              LivePairing(t, tan, 0, r.s.grads) + ParamPairing(t, tan, ps, r.s.params) ==
              LivePairing(t, tan, n, s.grads) + ParamPairing(t, tan, ps, s.params)
  {
    if n > 0 {
      StepPairing(K, J, t, tan, ps, n - 1, s);
      var r := StepEntry(K, t, AccumulateSink(K), t.entries[n - 1], s);
      if r.Running? { SweepPairing(K, J, t, tan, ps, n - 1, r.s); }
    }
  }

  /** Main theorem. For every tape, every loss and every tangent, reverse mode is adjoint to
      forward mode: the loss gradient paired with the pushed tangent is the sum over leaves of
      final gradient paired with tangent, plus what the parameter buffers gained. */
  lemma BackwardIsTheAdjoint(K: Kernels, J: Jvp, t: TapeView, tan: map<TensorId, Tensor>, ps: seq<ParamId>,
                             lossGrad: Tensor, lossId: TensorId, params: Params)
    requires Differentiable(K, J, t, tan, ps) && ParamsFit(t, ps, params)
    requires lossId < t.nextId && lossId in t.tensors && Like(lossGrad, t.tensors[lossId])
    ensures lossId in tan
    ensures var r := BackwardRun(K, t, AccumulateSink(K), lossGrad, lossId, params);
            r.Running? ==>
              Dot(lossGrad.data, tan[lossId].data) ==
              LivePairing(t, tan, 0, r.s.grads) + ParamPairing(t, tan, ps, r.s.params) - ParamPairing(t, tan, ps, params)
  {
    assert Like(tan[lossId], t.tensors[lossId]);
    var n := |t.entries|;
    var s := Start(lossGrad, lossId, params);
    var f := (x: int) => LiveTerm(t, tan, n, s.grads, x);
    SumSingle(t.nextId, f, lossId);
    SumExt(t.nextId, f, x => LiveTerm(t, tan, n, s.grads, x));
    SweepPairing(K, J, t, tan, ps, n, s);
  }
}
