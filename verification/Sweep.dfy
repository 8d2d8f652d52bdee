/** The reverse sweep over a tape, with lazy segment replay. The numeric kernels are parameters;
    so is what happens to a parameter gradient (accumulate it, or step the optimizer at once),
    which lets one traversal specify both backward passes. */
module Sweep {
  import opened Tensors
  import opened TapeModel

  /** `replay` recomputes an output from its inputs, `vjp` maps an output gradient to input
      gradients (it sees the inputs and the output where the code looks them up), `add` is
      the device addition used by every accumulation. `None` is an error return. */
  datatype Kernels = Kernels(
    replay: (Metadata, seq<Tensor>) -> Option<Tensor>,
    vjp: (Metadata, seq<Option<Tensor>>, Option<Tensor>, Tensor) -> Option<seq<Tensor>>,
    add: (Tensor, Tensor) -> Option<Tensor>)
  {
    /** A backward kernel returns one gradient for each of its leading inputs. */
    ghost predicate Valid() {
      forall m, ins, out, g :: vjp(m, ins, out, g).Some? ==> |vjp(m, ins, out, g).value| == NumGrads(m)
    }
  }

  type Overlay = map<TensorId, Tensor>

  function NumGrads(m: Metadata): (n: nat)
    ensures n <= Arity(m)
  {
    if m.Rope? then 1 else Arity(m)
  }

  /** How many leading input gradients go to the gradient map. LoRA's A and B gradients only
      reach the parameter buffers. */
  function NumRouted(m: Metadata): (n: nat)
    ensures n <= NumGrads(m)
  {
    if m.LoRAApply? then 2 else NumGrads(m)
  }

  function ParamRoutes(e: TapeEntry): (rs: seq<(ParamId, nat)>)
    ensures forall i :: 0 <= i < |rs| ==> rs[i].1 < NumGrads(e.metadata)
  {
    match e.metadata
    case LoRAApply(_, _, a, b) => [(a, 2), (b, 3)]
    case MatMul(_, _, _, _, _) => if e.paramId.Some? then [(e.paramId.value, 0)] else []
    case RmsNorm(_, w) => if w.Some? then [(w.value, 1)] else []
    case Embedding(_, _, _, w) => if w.Some? then [(w.value, 0)] else []
    case _ => []
  }

  // ---------------------------------------------------------------- replay

  function GetAny(t: TapeView, ov: Overlay, id: TensorId): Option<Tensor> {
    if id in ov then Some(ov[id]) else if id in t.tensors then Some(t.tensors[id]) else None
  }

  /** Replay's lookup of input `k`: LoRA's A and B fall back to the parameter map. */
  function ResolveInput(t: TapeView, ov: Overlay, e: TapeEntry, k: nat): Option<Tensor>
    requires k < |e.inputs|
  {
    var direct := GetAny(t, ov, e.inputs[k]);
    if direct.None? && e.metadata.LoRAApply? && k >= 2 then
      var pid := if k == 2 then e.metadata.a else e.metadata.b;
      if pid in t.paramTensors && t.paramTensors[pid] in t.tensors
      then Some(t.tensors[t.paramTensors[pid]]) else None
    else direct
  }

  function ResolveInputs(t: TapeView, ov: Overlay, e: TapeEntry, n: nat): (r: Option<seq<Tensor>>)
    requires n <= |e.inputs|
    ensures r.Some? ==> |r.value| == n
  {
    if n == 0 then Some([])
    else
      match ResolveInputs(t, ov, e, n - 1)
      case None => None
      case Some(ts) =>
        match ResolveInput(t, ov, e, n - 1)
        case None => None
        case Some(x) => Some(ts + [x])
  }

  function ReplayEntry(K: Kernels, t: TapeView, e: TapeEntry, ov: Overlay): Result<Tensor> {
    match ResolveInputs(t, ov, e, |e.inputs|)
    case None => Err(MissingTensor)
    case Some(ins) =>
      match K.replay(e.metadata, ins)
      case None => Err(KernelFailed)
      case Some(out) => Ok(out)
  }

  predicate Dropped(t: TapeView, ov: Overlay, id: TensorId) {
    id !in ov && id !in t.tensors
  }

  /** Replaying the first `n` entries' share of segment `seg`; the flag says whether anything
      was recomputed. */
  function ReplaySegment(K: Kernels, t: TapeView, seg: nat, ov: Overlay, n: nat): Result<(Overlay, bool)>
    requires n <= |t.entries|
  {
    if n == 0 then Ok((ov, false))
    else
      match ReplaySegment(K, t, seg, ov, n - 1)
      case Err(er) => Err(er)
      case Ok((mid, any)) =>
        var e := t.entries[n - 1];
        if e.segmentIdx != seg || !Dropped(t, mid, e.output) then Ok((mid, any))
        else
          match ReplayEntry(K, t, e, mid)
          case Err(er) => Err(er)
          case Ok(out) => Ok((mid[e.output := out], true))
  }

  predicate Missing(t: TapeView, ov: Overlay, e: TapeEntry) {
    Dropped(t, ov, e.output) || exists k :: 0 <= k < |e.inputs| && Dropped(t, ov, e.inputs[k])
  }

  function EnsureResolved(K: Kernels, t: TapeView, e: TapeEntry, ov: Overlay): Result<(Overlay, bool)> {
    if Missing(t, ov, e) then ReplaySegment(K, t, e.segmentIdx, ov, |t.entries|) else Ok((ov, false))
  }

  predicate InSegment(t: TapeView, seg: nat, id: TensorId) {
    exists i :: 0 <= i < |t.entries| && t.entries[i].segmentIdx == seg && t.entries[i].output == id
  }

  function Evicted(t: TapeView, seg: nat, ov: Overlay): Overlay {
    map id | id in ov && !InSegment(t, seg, id) :: ov[id]
  }

  // ---------------------------------------------------------------- one entry

  datatype SinkResult<P> = Kept(p: P) | Refused(err: Error, p: P)

  /** What becomes of a parameter's gradient contribution. */
  type Sink<!P> = (P, ParamId, Tensor) -> SinkResult<P>

  datatype SweepState<P> = SweepState(
    grads: map<TensorId, Tensor>,
    params: P,
    overlay: Overlay,
    active: Option<nat>,
    replays: seq<nat>)            // the segments replayed so far, in order

  datatype Run<P> = Running(s: SweepState<P>) | Failed(err: Error, params: P)

  function Enter(K: Kernels, t: TapeView, e: TapeEntry, ov: Overlay, active: Option<nat>): Result<(Overlay, bool)> {
    var kept := if active.Some? && active.value != e.segmentIdx then Evicted(t, active.value, ov) else ov;
    EnsureResolved(K, t, e, kept)
  }

  function Operands(t: TapeView, ov: Overlay, e: TapeEntry): (r: seq<Option<Tensor>>)
    ensures |r| == |e.inputs|
  {
    seq(|e.inputs|, k requires 0 <= k < |e.inputs| => GetAny(t, ov, e.inputs[k]))
  }

  /** The operands each backward arm insists on. */
  predicate OperandsPresent(m: Metadata, ins: seq<Option<Tensor>>, out: Option<Tensor>)
    requires |ins| == Arity(m)
  {
    match m
    case LoRAApply(_, _, _, _) => ins[0].Some? && ins[1].Some? && ins[2].Some? && ins[3].Some?
    case MatMul(_, _, _, _, _) => ins[0].Some? && ins[1].Some?
    case SiluMul => ins[0].Some? && ins[1].Some?
    case RmsNorm(_, _) => ins[0].Some? && ins[1].Some?
    case Rope => ins[1].Some? && ins[2].Some?
    case Softmax => out.Some?
    case Add => true
    case Scale(_) => true
    case Embedding(_, _, _, _) => true
  }

  function AccumulateTensorGrad(K: Kernels, grads: map<TensorId, Tensor>, id: TensorId, g: Tensor): Option<map<TensorId, Tensor>> {
    if id in grads then
      match K.add(grads[id], g)
      case None => None
      case Some(sum) => Some(grads[id := sum])
    else Some(grads[id := g])
  }

  function AccumulateInputs(K: Kernels, grads: map<TensorId, Tensor>, e: TapeEntry, gs: seq<Tensor>, n: nat): Option<map<TensorId, Tensor>>
    requires n <= |gs| && n <= |e.inputs|
  {
    if n == 0 then Some(grads)
    else
      match AccumulateInputs(K, grads, e, gs, n - 1)
      case None => None
      case Some(mid) => AccumulateTensorGrad(K, mid, e.inputs[n - 1], gs[n - 1])
  }

  function RouteParams<P>(sink: Sink<P>, p: P, routes: seq<(ParamId, nat)>, gs: seq<Tensor>, n: nat): SinkResult<P>
    requires n <= |routes| && forall i :: 0 <= i < |routes| ==> routes[i].1 < |gs|
  {
    if n == 0 then Kept(p)
    else
      match RouteParams(sink, p, routes, gs, n - 1)
      case Refused(er, q) => Refused(er, q)
      case Kept(q) => sink(q, routes[n - 1].0, gs[routes[n - 1].1])
  }

  function StepEntry<P>(K: Kernels, t: TapeView, sink: Sink<P>, e: TapeEntry, s: SweepState<P>): Run<P>
    requires K.Valid() && |e.inputs| == Arity(e.metadata)
  {
    if e.output !in s.grads then Running(s)
    else
      match Enter(K, t, e, s.overlay, s.active)
      case Err(er) => Failed(er, s.params)
      case Ok((ov, replayed)) =>
        var ins := Operands(t, ov, e);
        var out := GetAny(t, ov, e.output);
        if !OperandsPresent(e.metadata, ins, out) then Failed(MissingTensor, s.params)
        else
          match K.vjp(e.metadata, ins, out, s.grads[e.output])
          case None => Failed(KernelFailed, s.params)
          case Some(gs) => Deliver(K, sink, e, gs, s, ov, replayed)
  }

  /** Parameter buffers first, then the gradient map. */
  function Deliver<P>(K: Kernels, sink: Sink<P>, e: TapeEntry, gs: seq<Tensor>, s: SweepState<P>, ov: Overlay, replayed: bool): Run<P>
    requires |e.inputs| == Arity(e.metadata) && |gs| == NumGrads(e.metadata)
  {
    var routes := ParamRoutes(e);
    match RouteParams(sink, s.params, routes, gs, |routes|)
    case Refused(er, p) => Failed(er, p)
    case Kept(p) =>
      match AccumulateInputs(K, s.grads, e, gs, NumRouted(e.metadata))
      case None => Failed(KernelFailed, p)
      case Some(grads) =>
        Running(SweepState(grads, p, ov, Some(e.segmentIdx), if replayed then s.replays + [e.segmentIdx] else s.replays))
  }

  /** Processes entries n-1, n-2, ..., lo. */
  function SweepDown<P>(K: Kernels, t: TapeView, sink: Sink<P>, n: nat, lo: nat, s: SweepState<P>): Run<P>
    requires K.Valid() && WellFormed(t) && lo <= n <= |t.entries|
    decreases n
  {
    if n == lo then Running(s)
    else
      match StepEntry(K, t, sink, t.entries[n - 1], s)
      case Failed(er, p) => Failed(er, p)
      case Running(s') => SweepDown(K, t, sink, n - 1, lo, s')
  }

  function Start<P>(lossGrad: Tensor, lossId: TensorId, params: P): SweepState<P> {
    SweepState(map[lossId := lossGrad], params, map[], None, [])
  }

  function BackwardRun<P>(K: Kernels, t: TapeView, sink: Sink<P>, lossGrad: Tensor, lossId: TensorId, params: P): Run<P>
    requires K.Valid() && WellFormed(t)
  {
    SweepDown(K, t, sink, |t.entries|, 0, Start(lossGrad, lossId, params))
  }
}
