/** The backward passes as they run: loops over the tape with an overlay of replayed activations,
    writing into the registry of trainable parameters. Each is proved against the sweep. */
module BackwardPass {
  import opened Tensors
  import opened TapeModel
  import opened Sweep
  import opened Adjoint
  import opened FusedStep

  class TrainableParams {
    var params: Params

    constructor ()
      ensures params == map[]
    {
      params := map[];
    }

    method Insert(p: TrainableParam)
      modifies this
      ensures params == old(params)[p.id := p]
    {
      params := params[p.id := p];
    }

    /** The lookup and `accumulate_grad` of one contribution. */
    method Accumulate(K: Kernels, pid: ParamId, g: Tensor) returns (ok: bool)
      modifies this
      ensures var r := AccumulateParam(K.add, old(params), pid, g);
              params == r.p && (ok <==> r.Kept?) && (r.Refused? ==> r.err == KernelFailed)
    {
      if pid in params && !params[pid].frozen {
        var sum := K.add(params[pid].grad, g);
        if sum.None? { return false; }
        params := params[pid := params[pid].(grad := sum.value)];
      }
      ok := true;
    }
  }

  /** An optimizer: its state and its per-parameter step. */
  class Optimizer<O> {
    var state: O
    const stepParam: StepParam<O>

    constructor (state: O, stepParam: StepParam<O>)
      ensures this.state == state && this.stepParam == stepParam
    {
      this.state, this.stepParam := state, stepParam;
    }
  }

  method ReplayInto(K: Kernels, tape: Tape, seg: nat, overlay: Overlay) returns (r: Result<(Overlay, bool)>)
    ensures r == ReplaySegment(K, tape.View(), seg, overlay, |tape.entries|)
  {
    ghost var t := tape.View();
    var ov, any := overlay, false;
    for i := 0 to |tape.entries|
      invariant ReplaySegment(K, t, seg, overlay, i) == Ok((ov, any))
    {
      var e := tape.entries[i];
      if e.segmentIdx == seg && e.output !in ov && e.output !in tape.tensors {
        var ins: seq<Tensor> := [];
        for k := 0 to |e.inputs|
          invariant ResolveInputs(t, ov, e, k) == Some(ins)
        {
          var x := if e.inputs[k] in ov then Some(ov[e.inputs[k]])
                   else if e.inputs[k] in tape.tensors then Some(tape.tensors[e.inputs[k]]) else None;
          if x.None? && e.metadata.LoRAApply? && k >= 2 {
            var pid := if k == 2 then e.metadata.a else e.metadata.b;
            if pid in tape.paramTensors && tape.paramTensors[pid] in tape.tensors {
              x := Some(tape.tensors[tape.paramTensors[pid]]);
            }
          }
          if x.None? {
            UnresolvedStays(t, ov, e, k + 1, |e.inputs|);
            FailureStays(K, t, seg, overlay, i + 1, |t.entries|);
            return Err(MissingTensor);
          }
          ins := ins + [x.value];
        }
        var out := K.replay(e.metadata, ins);
        if out.None? {
          FailureStays(K, t, seg, overlay, i + 1, |t.entries|);
          return Err(KernelFailed);
        }
        ov, any := ov[e.output := out.value], true;
      }
    }
    r := Ok((ov, any));
  }

  lemma {:induction false} UnresolvedStays(t: TapeView, ov: Overlay, e: TapeEntry, n: nat, m: nat)
    requires n <= m <= |e.inputs| && ResolveInputs(t, ov, e, n).None?
    ensures ResolveInputs(t, ov, e, m).None?
  {
    if n < m { UnresolvedStays(t, ov, e, n, m - 1); }
  }

  lemma {:induction false} FailureStays(K: Kernels, t: TapeView, seg: nat, ov: Overlay, n: nat, m: nat)
    requires n <= m <= |t.entries| && ReplaySegment(K, t, seg, ov, n).Err?
    ensures ReplaySegment(K, t, seg, ov, m) == ReplaySegment(K, t, seg, ov, n)
  {
    if n < m { FailureStays(K, t, seg, ov, n, m - 1); }
  }

  method EvictSegmentOverlay(tape: Tape, seg: nat, overlay: Overlay) returns (ov: Overlay)
    ensures ov == Evicted(tape.View(), seg, overlay)
  {
    ghost var t := tape.View();
    ov := overlay;
    for i := 0 to |tape.entries|
      invariant forall id :: id in ov <==>
        id in overlay && !exists j :: 0 <= j < i && t.entries[j].segmentIdx == seg && t.entries[j].output == id
      invariant forall id :: id in ov ==> ov[id] == overlay[id]
    {
      if tape.entries[i].segmentIdx == seg { ov := ov - {tape.entries[i].output}; }
    }
    assert forall id :: id in overlay ==>
      (InSegment(t, seg, id) <==> exists j :: 0 <= j < |t.entries| && t.entries[j].segmentIdx == seg && t.entries[j].output == id);
  }

  /** Evict on leaving a segment, then replay if the entry misses anything. */
  method EnterEntry(K: Kernels, tape: Tape, e: TapeEntry, overlay: Overlay, active: Option<nat>) returns (r: Result<(Overlay, bool)>)
    ensures r == Enter(K, tape.View(), e, overlay, active)
  {
    var ov := overlay;
    if active.Some? && active.value != e.segmentIdx {
      ov := EvictSegmentOverlay(tape, active.value, ov);
    }
    var missing := e.output !in ov && e.output !in tape.tensors;
    for k := 0 to |e.inputs|
      invariant missing <==> Dropped(tape.View(), ov, e.output) ||
                             exists j :: 0 <= j < k && Dropped(tape.View(), ov, e.inputs[j])
    {
      missing := missing || (e.inputs[k] !in ov && e.inputs[k] !in tape.tensors);
    }
    if missing {
      r := ReplayInto(K, tape, e.segmentIdx, ov);
    } else {
      r := Ok((ov, false));
    }
  }

  /** The local gradients of one entry, as each backward arm computes them. */
  method LocalGradients(K: Kernels, tape: Tape, e: TapeEntry, ov: Overlay, g: Tensor) returns (r: Result<seq<Tensor>>)
    requires K.Valid() && |e.inputs| == Arity(e.metadata)
    ensures var ins, out := Operands(tape.View(), ov, e), GetAny(tape.View(), ov, e.output);
            r == if !OperandsPresent(e.metadata, ins, out) then Err(MissingTensor)
                 else if K.vjp(e.metadata, ins, out, g).None? then Err(KernelFailed)
                 else Ok(K.vjp(e.metadata, ins, out, g).value)
  {
    var ins: seq<Option<Tensor>> := [];
    for k := 0 to |e.inputs|
      invariant ins == Operands(tape.View(), ov, e)[..k]
    {
      ins := ins + [if e.inputs[k] in ov then Some(ov[e.inputs[k]])
                    else if e.inputs[k] in tape.tensors then Some(tape.tensors[e.inputs[k]]) else None];
    }
    assert ins == Operands(tape.View(), ov, e);
    var out := if e.output in ov then Some(ov[e.output])
               else if e.output in tape.tensors then Some(tape.tensors[e.output]) else None;
    if !OperandsPresent(e.metadata, ins, out) { return Err(MissingTensor); }
    var gs := K.vjp(e.metadata, ins, out, g);
    if gs.None? { return Err(KernelFailed); }
    r := Ok(gs.value);
  }

  /** Propagates the leading gradients to the gradient map. */
  method PropagateInputs(K: Kernels, grads: map<TensorId, Tensor>, e: TapeEntry, gs: seq<Tensor>, n: nat) returns (r: Option<map<TensorId, Tensor>>)
    requires n <= |gs| && n <= |e.inputs|
    ensures r == AccumulateInputs(K, grads, e, gs, n)
  {
    var acc := grads;
    for k := 0 to n
      invariant AccumulateInputs(K, grads, e, gs, k) == Some(acc)
    {
      var id := e.inputs[k];
      if id in acc {
        var sum := K.add(acc[id], gs[k]);
        if sum.None? {
          FailedAccumulationStays(K, grads, e, gs, k + 1, n);
          return None;
        }
        acc := acc[id := sum.value];
      } else {
        acc := acc[id := gs[k]];
      }
    }
    r := Some(acc);
  }

  lemma {:induction false} FailedAccumulationStays(K: Kernels, grads: map<TensorId, Tensor>, e: TapeEntry, gs: seq<Tensor>, n: nat, m: nat)
    requires n <= m <= |gs| && m <= |e.inputs| && AccumulateInputs(K, grads, e, gs, n).None?
    ensures AccumulateInputs(K, grads, e, gs, m).None?
  {
    if n < m { FailedAccumulationStays(K, grads, e, gs, n, m - 1); }
  }

  lemma {:induction false} RefusalStays<P>(sink: Sink<P>, p: P, routes: seq<(ParamId, nat)>, gs: seq<Tensor>, n: nat, m: nat)
    requires n <= m <= |routes| && forall i :: 0 <= i < |routes| ==> routes[i].1 < |gs|
    requires RouteParams(sink, p, routes, gs, n).Refused?
    ensures RouteParams(sink, p, routes, gs, m) == RouteParams(sink, p, routes, gs, n)
  {
    if n < m { RefusalStays(sink, p, routes, gs, n, m - 1); }
  }

  /** What a caller sees of a run. */
  ghost predicate Reports<P>(run: Run<P>, r: Result<map<TensorId, Tensor>>, replays: seq<nat>) {
    match run
    case Running(s) => r == Ok(s.grads) && replays == s.replays
    case Failed(er, _) => r == Err(er)
  }

  ghost function FinalParams<P>(run: Run<P>): P {
    match run case Running(s) => s.params case Failed(_, p) => p
  }

  /** `backward`: accumulates every contribution into the registry. */
  method Backward(K: Kernels, tape: Tape, lossGrad: Tensor, lossId: TensorId, tp: TrainableParams)
    returns (r: Result<map<TensorId, Tensor>>, replays: seq<nat>)
    requires K.Valid() && WellFormed(tape.View())
    modifies tp
    ensures var run := BackwardRun(K, tape.View(), AccumulateSink(K), lossGrad, lossId, old(tp.params));
            Reports(run, r, replays) && tp.params == FinalParams(run)
  {
    ghost var t := tape.View();
    ghost var sink := AccumulateSink(K);
    ghost var start := Start(lossGrad, lossId, tp.params);
    var grads: map<TensorId, Tensor> := map[lossId := lossGrad];
    var overlay: Overlay := map[];
    var active: Option<nat> := None;
    replays := [];
    var i := |tape.entries|;
    while i > 0
      invariant 0 <= i <= |tape.entries| && tape.View() == t
      invariant SweepDown(K, t, sink, |t.entries|, 0, start) ==
                SweepDown(K, t, sink, i, 0, SweepState(grads, tp.params, overlay, active, replays))
    {
      i := i - 1;
      var e := tape.entries[i];
      if e.output in grads {
        var entered := EnterEntry(K, tape, e, overlay, active);
        if entered.Err? { return Err(entered.error), replays; }
        var local := LocalGradients(K, tape, e, entered.value.0, grads[e.output]);
        if local.Err? { return Err(local.error), replays; }
        var gs := local.value;
        var routes := ParamRoutes(e);
        ghost var before := tp.params;
        for k := 0 to |routes|
          invariant tape.View() == t
          invariant RouteParams(sink, before, routes, gs, k) == Kept(tp.params)
        {
          var ok := tp.Accumulate(K, routes[k].0, gs[routes[k].1]);
          if !ok {
            RefusalStays(sink, before, routes, gs, k + 1, |routes|);
            return Err(KernelFailed), replays;
          }
        }
        var sum := PropagateInputs(K, grads, e, gs, NumRouted(e.metadata));
        if sum.None? { return Err(KernelFailed), replays; }
        grads, overlay, active := sum.value, entered.value.0, Some(e.segmentIdx);
        if entered.value.1 { replays := replays + [e.segmentIdx]; }
      }
    }
    r := Ok(grads);
  }

  /** One contribution of the fused pass, written into the registry and the optimizer. */
  method StepContribution<O>(K: Kernels, tp: TrainableParams, opt: Optimizer<O>, stepped: set<ParamId>, pid: ParamId, g: Tensor)
    returns (res: Result<set<ParamId>>)
    modifies tp, opt
    ensures var r := FusedContribution(K.add, opt.stepParam, Fused(old(tp.params), old(opt.state), stepped), pid, g);
            && tp.params == r.p.params && opt.state == r.p.opt
            && res == match r { case Kept(f) => Ok(f.stepped) case Refused(er, _) => Err(er) }
  {
    if pid !in tp.params { return Ok(stepped); }
    if pid in stepped { return Err(MultipleContributions); }
    var ok := tp.Accumulate(K, pid, g);
    if !ok { return Err(KernelFailed); }
    var o := opt.stepParam(opt.state, pid, tp.params[pid]);
    opt.state := o.opt;
    tp.params := tp.params[pid := o.param];
    if !o.ok { return Err(KernelFailed); }
    tp.params := tp.params[pid := ZeroGrad(o.param)];
    res := Ok(stepped + {pid});
  }

  /** `backward_step`: steps the optimizer as soon as a parameter's gradient is known. */
  method BackwardStep<O>(K: Kernels, tape: Tape, lossGrad: Tensor, lossId: TensorId, tp: TrainableParams, opt: Optimizer<O>)
    returns (r: Result<map<TensorId, Tensor>>, replays: seq<nat>)
    requires K.Valid() && WellFormed(tape.View())
    modifies tp, opt
    ensures var run := BackwardRun(K, tape.View(), FusedSink(K, opt.stepParam), lossGrad, lossId, Fused(old(tp.params), old(opt.state), {}));
            Reports(run, r, replays) && tp.params == FinalParams(run).params && opt.state == FinalParams(run).opt
  {
    ghost var t := tape.View();
    ghost var sink := FusedSink(K, opt.stepParam);
    ghost var start := Start(lossGrad, lossId, Fused(tp.params, opt.state, {}));
    var grads: map<TensorId, Tensor> := map[lossId := lossGrad];
    var overlay: Overlay := map[];
    var active: Option<nat> := None;
    var stepped: set<ParamId> := {};
    replays := [];
    var i := |tape.entries|;
    while i > 0
      invariant 0 <= i <= |tape.entries| && tape.View() == t
      invariant SweepDown(K, t, sink, |t.entries|, 0, start) ==
                SweepDown(K, t, sink, i, 0, SweepState(grads, Fused(tp.params, opt.state, stepped), overlay, active, replays))
    {
      i := i - 1;
      var e := tape.entries[i];
      if e.output in grads {
        var entered := EnterEntry(K, tape, e, overlay, active);
        if entered.Err? { return Err(entered.error), replays; }
        var local := LocalGradients(K, tape, e, entered.value.0, grads[e.output]);
        if local.Err? { return Err(local.error), replays; }
        var gs := local.value;
        var routes := ParamRoutes(e);
        ghost var before := Fused(tp.params, opt.state, stepped);
        for k := 0 to |routes|
          invariant tape.View() == t
          invariant RouteParams(sink, before, routes, gs, k) == Kept(Fused(tp.params, opt.state, stepped))
        {
          var res := StepContribution(K, tp, opt, stepped, routes[k].0, gs[routes[k].1]);
          if res.Err? {
            RefusalStays(sink, before, routes, gs, k + 1, |routes|);
            return Err(res.error), replays;
          }
          stepped := res.value;
        }
        var sum := PropagateInputs(K, grads, e, gs, NumRouted(e.metadata));
        if sum.None? { return Err(KernelFailed), replays; }
        grads, overlay, active := sum.value, entered.value.0, Some(e.segmentIdx);
        if entered.value.1 { replays := replays + [e.segmentIdx]; }
      }
    }
    r := Ok(grads);
  }

  /** `drain_and_step`: the fused pass, then the tape is emptied if it succeeded. */
  method DrainAndStep<O>(K: Kernels, tape: Tape, lossGrad: Tensor, lossId: TensorId, tp: TrainableParams, opt: Optimizer<O>)
    returns (r: Result<map<TensorId, Tensor>>)
    requires K.Valid() && WellFormed(tape.View())
    modifies tape, tp, opt
    ensures var run := BackwardRun(K, old(tape.View()), FusedSink(K, opt.stepParam), lossGrad, lossId, Fused(old(tp.params), old(opt.state), {}));
            && tp.params == FinalParams(run).params && opt.state == FinalParams(run).opt
            && match run
               case Running(s) => r == Ok(s.grads) && tape.View() == TapeView([], map[], map[], 0, old(tape.checkpointSegs), old(tape.currentSegment), map[])
               case Failed(er, _) => r == Err(er) && tape.View() == old(tape.View())
  {
    var replays;
    r, replays := BackwardStep(K, tape, lossGrad, lossId, tp, opt);
    if r.Ok? { tape.Clear(); }
  }
}
