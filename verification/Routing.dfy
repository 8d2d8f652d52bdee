/** What one step of the backward sweep does, operation by operation: which local gradient reaches
    which parameter and which input. Every position is written out, as in the arms of the two
    backward passes. */
module Routing {
  import opened Tensors
  import opened TapeModel
  import opened Sweep
  import opened Adjoint
  import opened FusedStep

  /** Entry `e` is reached with its output gradient, the overlay `ov` holds what replay supplies, and
      the backward kernel of `e` returns the local gradients `gs`. */
  ghost predicate Computes<P>(K: Kernels, t: TapeView, e: TapeEntry, s: SweepState<P>, ov: Overlay, gs: seq<Tensor>)
    requires |e.inputs| == Arity(e.metadata)
  {
    && e.output in s.grads
    && (exists replayed :: Enter(K, t, e, s.overlay, s.active) == Ok((ov, replayed)))
    && OperandsPresent(e.metadata, Operands(t, ov, e), GetAny(t, ov, e.output))
    && K.vjp(e.metadata, Operands(t, ov, e), GetAny(t, ov, e.output), s.grads[e.output]) == Some(gs)
  }

  /** A step that completes on an entry with an output gradient has computed its local gradients. */
  lemma StepComputes<P>(K: Kernels, t: TapeView, sink: Sink<P>, e: TapeEntry, s: SweepState<P>) returns (ov: Overlay, gs: seq<Tensor>)
    requires K.Valid() && |e.inputs| == Arity(e.metadata) && e.output in s.grads && StepEntry(K, t, sink, e, s).Running?
    ensures Computes(K, t, e, s, ov, gs)
  {
    ov := Enter(K, t, e, s.overlay, s.active).value.0;
    gs := K.vjp(e.metadata, Operands(t, ov, e), GetAny(t, ov, e.output), s.grads[e.output]).value;
  }

  /** Which operands a backward arm insists on: without one the step fails before any gradient is
      computed, with all of them it runs the kernel. */
  lemma InsistsOn<P>(K: Kernels, t: TapeView, sink: Sink<P>, e: TapeEntry, s: SweepState<P>, ov: Overlay, replayed: bool)
    requires K.Valid() && |e.inputs| == Arity(e.metadata) && e.output in s.grads && Enter(K, t, e, s.overlay, s.active) == Ok((ov, replayed))
    ensures var there := match e.metadata
              case LoRAApply(_, _, _, _) => GetAny(t, ov, e.inputs[0]).Some? && GetAny(t, ov, e.inputs[1]).Some? &&
                                            GetAny(t, ov, e.inputs[2]).Some? && GetAny(t, ov, e.inputs[3]).Some?
              case MatMul(_, _, _, _, _) => GetAny(t, ov, e.inputs[0]).Some? && GetAny(t, ov, e.inputs[1]).Some?
              case SiluMul => GetAny(t, ov, e.inputs[0]).Some? && GetAny(t, ov, e.inputs[1]).Some?
              case RmsNorm(_, _) => GetAny(t, ov, e.inputs[0]).Some? && GetAny(t, ov, e.inputs[1]).Some?
              case Rope => GetAny(t, ov, e.inputs[1]).Some? && GetAny(t, ov, e.inputs[2]).Some?
              case Softmax => GetAny(t, ov, e.output).Some?
              case Add => true
              case Scale(_) => true
              case Embedding(_, _, _, _) => true;
            var r := StepEntry(K, t, sink, e, s);
            && (!there ==> r == Failed(MissingTensor, s.params))
            && (there && (forall gs :: !Computes(K, t, e, s, ov, gs)) ==> r == Failed(KernelFailed, s.params))
  {
    var kernel := K.vjp(e.metadata, Operands(t, ov, e), GetAny(t, ov, e.output), s.grads[e.output]);
    if kernel.Some? && OperandsPresent(e.metadata, Operands(t, ov, e), GetAny(t, ov, e.output)) {
      assert Computes(K, t, e, s, ov, kernel.value);
    }
  }

  // ---------------------------------------------------------------- gradients of inputs

  /** One input gains one gradient, and nothing else changes. */
  predicate Gains(K: Kernels, was: map<TensorId, Tensor>, id: TensorId, g: Tensor, now: map<TensorId, Tensor>) {
    && now.Keys == was.Keys + {id}
    && (forall o :: o in was && o != id ==> now[o] == was[o])
    && if id in was then K.add(was[id], g) == Some(now[id]) else now[id] == g
  }

  /** Input `id` gains `g`, then input `id'` gains `g'`. */
  ghost predicate GainsTwo(K: Kernels, was: map<TensorId, Tensor>, id: TensorId, g: Tensor, id': TensorId, g': Tensor, now: map<TensorId, Tensor>) {
    exists mid :: Gains(K, was, id, g, mid) && Gains(K, mid, id', g', now)
  }

  lemma OneInput(K: Kernels, was: map<TensorId, Tensor>, e: TapeEntry, gs: seq<Tensor>, now: map<TensorId, Tensor>)
    requires |gs| > 0 && |e.inputs| > 0 && AccumulateInputs(K, was, e, gs, 1) == Some(now)
    ensures Gains(K, was, e.inputs[0], gs[0], now)
  {
    assert AccumulateInputs(K, was, e, gs, 0) == Some(was);
  }

  lemma TwoInputs(K: Kernels, was: map<TensorId, Tensor>, e: TapeEntry, gs: seq<Tensor>, now: map<TensorId, Tensor>)
    requires |gs| > 1 && |e.inputs| > 1 && AccumulateInputs(K, was, e, gs, 2) == Some(now)
    ensures GainsTwo(K, was, e.inputs[0], gs[0], e.inputs[1], gs[1], now)
  {
    var mid := AccumulateInputs(K, was, e, gs, 1).value;
    OneInput(K, was, e, gs, mid);
    assert AccumulateTensorGrad(K, mid, e.inputs[1], gs[1]) == Some(now);
    assert Gains(K, mid, e.inputs[1], gs[1], now);
  }

  lemma OneRoute<P>(sink: Sink<P>, p: P, pid: ParamId, k: nat, gs: seq<Tensor>)
    requires k < |gs|
    ensures RouteParams(sink, p, [(pid, k)], gs, 1) == sink(p, pid, gs[k])
  {
    assert RouteParams(sink, p, [(pid, k)], gs, 0) == Kept(p);
  }

  lemma TwoRoutes<P>(sink: Sink<P>, p: P, pid: ParamId, k: nat, pid': ParamId, k': nat, gs: seq<Tensor>)
    requires k < |gs| && k' < |gs|
    ensures var one := sink(p, pid, gs[k]);
            RouteParams(sink, p, [(pid, k), (pid', k')], gs, 2) == if one.Kept? then sink(one.p, pid', gs[k']) else one
  {
    assert RouteParams(sink, p, [(pid, k), (pid', k')], gs, 0) == Kept(p);
    assert RouteParams(sink, p, [(pid, k), (pid', k')], gs, 1) == sink(p, pid, gs[k]);
  }

  // ---------------------------------------------------------------- the arms, for every sink

  /** LoRA: the third gradient goes to parameter A, then the fourth to parameter B; base and x gain
      the first and the second, and the operands A and B gain nothing. */
  lemma LoraStep<P>(K: Kernels, t: TapeView, sink: Sink<P>, e: TapeEntry, s: SweepState<P>, ov: Overlay, gs: seq<Tensor>)
    requires K.Valid() && e.metadata.LoRAApply? && |e.inputs| == 4 && Computes(K, t, e, s, ov, gs)
    requires StepEntry(K, t, sink, e, s).Running?
    ensures |gs| == 4
    ensures var (r, first) := (StepEntry(K, t, sink, e, s).s, sink(s.params, e.metadata.a, gs[2]));
            && first.Kept? && sink(first.p, e.metadata.b, gs[3]) == Kept(r.params)
            && GainsTwo(K, s.grads, e.inputs[0], gs[0], e.inputs[1], gs[1], r.grads)
  {
    TwoRoutes(sink, s.params, e.metadata.a, 2, e.metadata.b, 3, gs);
    TwoInputs(K, s.grads, e, gs, StepEntry(K, t, sink, e, s).s.grads);
  }

  /** A parameter that may be missing from the entry takes one gradient. */
  ghost predicate Takes<P>(sink: Sink<P>, was: P, pid: Option<ParamId>, g: Tensor, now: P) {
    if pid.Some? then sink(was, pid.value, g) == Kept(now) else now == was
  }

  /** Matrix product: the first gradient goes to the entry's parameter; both operands gain theirs. */
  lemma MatMulStep<P>(K: Kernels, t: TapeView, sink: Sink<P>, e: TapeEntry, s: SweepState<P>, ov: Overlay, gs: seq<Tensor>)
    requires K.Valid() && e.metadata.MatMul? && |e.inputs| == 2 && Computes(K, t, e, s, ov, gs)
    requires StepEntry(K, t, sink, e, s).Running?
    ensures |gs| == 2
    ensures var r := StepEntry(K, t, sink, e, s).s;
            Takes(sink, s.params, e.paramId, gs[0], r.params) && GainsTwo(K, s.grads, e.inputs[0], gs[0], e.inputs[1], gs[1], r.grads)
  {
    if e.paramId.Some? { OneRoute(sink, s.params, e.paramId.value, 0, gs); }
    TwoInputs(K, s.grads, e, gs, StepEntry(K, t, sink, e, s).s.grads);
  }

  /** Normalisation: the second gradient goes to the weight parameter; both operands gain theirs. */
  lemma RmsNormStep<P>(K: Kernels, t: TapeView, sink: Sink<P>, e: TapeEntry, s: SweepState<P>, ov: Overlay, gs: seq<Tensor>)
    requires K.Valid() && e.metadata.RmsNorm? && |e.inputs| == 2 && Computes(K, t, e, s, ov, gs)
    requires StepEntry(K, t, sink, e, s).Running?
    ensures |gs| == 2
    ensures var r := StepEntry(K, t, sink, e, s).s;
            Takes(sink, s.params, e.metadata.normWeight, gs[1], r.params) && GainsTwo(K, s.grads, e.inputs[0], gs[0], e.inputs[1], gs[1], r.grads)
  {
    if e.metadata.normWeight.Some? { OneRoute(sink, s.params, e.metadata.normWeight.value, 1, gs); }
    TwoInputs(K, s.grads, e, gs, StepEntry(K, t, sink, e, s).s.grads);
  }

  /** Embedding: its one gradient goes to the table parameter and to the table. */
  lemma EmbeddingStep<P>(K: Kernels, t: TapeView, sink: Sink<P>, e: TapeEntry, s: SweepState<P>, ov: Overlay, gs: seq<Tensor>)
    requires K.Valid() && e.metadata.Embedding? && |e.inputs| == 1 && Computes(K, t, e, s, ov, gs)
    requires StepEntry(K, t, sink, e, s).Running?
    ensures |gs| == 1
    ensures var r := StepEntry(K, t, sink, e, s).s;
            Takes(sink, s.params, e.metadata.tableWeight, gs[0], r.params) && Gains(K, s.grads, e.inputs[0], gs[0], r.grads)
  {
    if e.metadata.tableWeight.Some? { OneRoute(sink, s.params, e.metadata.tableWeight.value, 0, gs); }
    OneInput(K, s.grads, e, gs, StepEntry(K, t, sink, e, s).s.grads);
  }

  /** The other operations have no parameter. Sums and gated products pass a gradient to both
      operands; scaling, softmax and rotation to the first only, so never to the rotation tables. */
  lemma PlainStep<P>(K: Kernels, t: TapeView, sink: Sink<P>, e: TapeEntry, s: SweepState<P>, ov: Overlay, gs: seq<Tensor>)
    requires K.Valid() && |e.inputs| == Arity(e.metadata) && Computes(K, t, e, s, ov, gs)
    requires e.metadata.Add? || e.metadata.SiluMul? || e.metadata.Scale? || e.metadata.Softmax? || e.metadata.Rope?
    requires StepEntry(K, t, sink, e, s).Running?
    ensures var r := StepEntry(K, t, sink, e, s).s;
            && r.params == s.params
            && if e.metadata.Add? || e.metadata.SiluMul?
               then |gs| == 2 && GainsTwo(K, s.grads, e.inputs[0], gs[0], e.inputs[1], gs[1], r.grads)
               else |gs| == 1 && Gains(K, s.grads, e.inputs[0], gs[0], r.grads)
  {
    if e.metadata.Add? || e.metadata.SiluMul? {
      TwoInputs(K, s.grads, e, gs, StepEntry(K, t, sink, e, s).s.grads);
    } else {
      OneInput(K, s.grads, e, gs, StepEntry(K, t, sink, e, s).s.grads);
    }
  }

  // ---------------------------------------------------------------- the accumulating sink

  /** The buffer of `pid` gained `g` if it can be moved; its data and every other parameter stayed. */
  predicate BufferGained(K: Kernels, was: Params, pid: ParamId, g: Tensor, now: Params) {
    && now.Keys == was.Keys
    && (forall o :: o in was && o != pid ==> now[o] == was[o])
    && (pid in was && was[pid].frozen ==> now[pid] == was[pid])
    && (pid in was && !was[pid].frozen ==>
          now[pid] == was[pid].(grad := now[pid].grad) && K.add(was[pid].grad, g) == Some(now[pid].grad))
  }

  lemma Accumulates(K: Kernels, was: Params, pid: ParamId, g: Tensor, now: Params)
    requires AccumulateSink(K)(was, pid, g) == Kept(now)
    ensures BufferGained(K, was, pid, g, now)
  {
    assert AccumulateParam(K.add, was, pid, g) == Kept(now);
  }

  /** Plain backward, LoRA: A's buffer gains the third gradient and B's the fourth. */
  lemma LoraBuffersGain(K: Kernels, t: TapeView, e: TapeEntry, s: SweepState<Params>, ov: Overlay, gs: seq<Tensor>) returns (mid: Params)
    requires K.Valid() && e.metadata.LoRAApply? && |e.inputs| == 4 && Computes(K, t, e, s, ov, gs)
    requires StepEntry(K, t, AccumulateSink(K), e, s).Running?
    ensures |gs| == 4
    ensures BufferGained(K, s.params, e.metadata.a, gs[2], mid)
    ensures BufferGained(K, mid, e.metadata.b, gs[3], StepEntry(K, t, AccumulateSink(K), e, s).s.params)
  {
    LoraStep(K, t, AccumulateSink(K), e, s, ov, gs);
    mid := AccumulateSink(K)(s.params, e.metadata.a, gs[2]).p;
    Accumulates(K, s.params, e.metadata.a, gs[2], mid);
    Accumulates(K, mid, e.metadata.b, gs[3], StepEntry(K, t, AccumulateSink(K), e, s).s.params);
  }

  /** Plain backward, the others: a product's parameter gains the first gradient, a norm's weight the
      second, an embedding's table the only one. */
  lemma BuffersGain(K: Kernels, t: TapeView, e: TapeEntry, s: SweepState<Params>, ov: Overlay, gs: seq<Tensor>)
    requires K.Valid() && |e.inputs| == Arity(e.metadata) && !e.metadata.LoRAApply? && Computes(K, t, e, s, ov, gs)
    requires StepEntry(K, t, AccumulateSink(K), e, s).Running?
    ensures var now := StepEntry(K, t, AccumulateSink(K), e, s).s.params;
            match e.metadata
            case MatMul(_, _, _, _, _) =>
              |gs| == 2 && if e.paramId.Some? then BufferGained(K, s.params, e.paramId.value, gs[0], now) else now == s.params
            case RmsNorm(_, w) => |gs| == 2 && if w.Some? then BufferGained(K, s.params, w.value, gs[1], now) else now == s.params
            case Embedding(_, _, _, w) => |gs| == 1 && if w.Some? then BufferGained(K, s.params, w.value, gs[0], now) else now == s.params
            case _ => now == s.params
  {
    var now := StepEntry(K, t, AccumulateSink(K), e, s).s.params;
    match e.metadata
    case MatMul(_, _, _, _, _) =>
      MatMulStep(K, t, AccumulateSink(K), e, s, ov, gs);
      if e.paramId.Some? { Accumulates(K, s.params, e.paramId.value, gs[0], now); }
    case RmsNorm(_, w) =>
      RmsNormStep(K, t, AccumulateSink(K), e, s, ov, gs);
      if w.Some? { Accumulates(K, s.params, w.value, gs[1], now); }
    case Embedding(_, _, _, w) =>
      EmbeddingStep(K, t, AccumulateSink(K), e, s, ov, gs);
      if w.Some? { Accumulates(K, s.params, w.value, gs[0], now); }
    case _ =>
      PlainStep(K, t, AccumulateSink(K), e, s, ov, gs);
  }

  // ---------------------------------------------------------------- the stepping sink

  /** Parameter `pid`, if registered, was stepped once, for the first time, on its buffer plus `g` (on
      its buffer alone if frozen), and its gradient was zeroed; everything else stayed. */
  ghost predicate SteppedOn<O>(K: Kernels, step: StepParam<O>, was: Fused<O>, pid: ParamId, g: Tensor, now: Fused<O>) {
    if pid !in was.params then now == was
    else
      && pid !in was.stepped && now.stepped == was.stepped + {pid} && now.params.Keys == was.params.Keys
      && (forall o :: o in was.params && o != pid ==> now.params[o] == was.params[o])
      && (was.params[pid].frozen || K.add(was.params[pid].grad, g).Some?)
      && var ready := if was.params[pid].frozen then was.params[pid] else was.params[pid].(grad := K.add(was.params[pid].grad, g).value);
         var o := step(was.opt, pid, ready);
         && o.ok && now.opt == o.opt
         && now.params[pid] == o.param.(grad := now.params[pid].grad) && Like(now.params[pid].grad, o.param.grad)
         && forall i {:trigger now.params[pid].grad.data[i]} :: 0 <= i < |now.params[pid].grad.data| ==> now.params[pid].grad.data[i] == 0.0
  }

  lemma StepsOn<O>(K: Kernels, step: StepParam<O>, was: Fused<O>, pid: ParamId, g: Tensor, now: Fused<O>)
    requires FusedSink(K, step)(was, pid, g) == Kept(now)
    ensures SteppedOn(K, step, was, pid, g, now)
  {
    assert FusedContribution(K.add, step, was, pid, g) == Kept(now);
  }

  /** Fused backward, LoRA: A is stepped on the third gradient, then B on the fourth. */
  lemma LoraParamsStepped<O>(K: Kernels, t: TapeView, step: StepParam<O>, e: TapeEntry, s: SweepState<Fused<O>>, ov: Overlay, gs: seq<Tensor>)
    returns (mid: Fused<O>)
    requires K.Valid() && e.metadata.LoRAApply? && |e.inputs| == 4 && Computes(K, t, e, s, ov, gs)
    requires StepEntry(K, t, FusedSink(K, step), e, s).Running?
    ensures |gs| == 4
    ensures SteppedOn(K, step, s.params, e.metadata.a, gs[2], mid)
    ensures SteppedOn(K, step, mid, e.metadata.b, gs[3], StepEntry(K, t, FusedSink(K, step), e, s).s.params)
  {
    LoraStep(K, t, FusedSink(K, step), e, s, ov, gs);
    mid := BothStepped(K, step, s.params, e.metadata.a, gs[2], e.metadata.b, gs[3], StepEntry(K, t, FusedSink(K, step), e, s).s.params);
  }

  lemma BothStepped<O>(K: Kernels, step: StepParam<O>, was: Fused<O>, a: ParamId, g: Tensor, b: ParamId, h: Tensor, now: Fused<O>) returns (mid: Fused<O>)
    requires var first := FusedSink(K, step)(was, a, g); first.Kept? && FusedSink(K, step)(first.p, b, h) == Kept(now)
    ensures SteppedOn(K, step, was, a, g, mid) && SteppedOn(K, step, mid, b, h, now)
  {
    mid := FusedSink(K, step)(was, a, g).p;
    StepsOn(K, step, was, a, g, mid);
    StepsOn(K, step, mid, b, h, now);
  }

  /** Fused backward, the others. */
  lemma ParamsStepped<O>(K: Kernels, t: TapeView, step: StepParam<O>, e: TapeEntry, s: SweepState<Fused<O>>, ov: Overlay, gs: seq<Tensor>)
    requires K.Valid() && |e.inputs| == Arity(e.metadata) && !e.metadata.LoRAApply? && Computes(K, t, e, s, ov, gs)
    requires StepEntry(K, t, FusedSink(K, step), e, s).Running?
    ensures var now := StepEntry(K, t, FusedSink(K, step), e, s).s.params;
            match e.metadata
            case MatMul(_, _, _, _, _) =>
              |gs| == 2 && if e.paramId.Some? then SteppedOn(K, step, s.params, e.paramId.value, gs[0], now) else now == s.params
            case RmsNorm(_, w) => |gs| == 2 && if w.Some? then SteppedOn(K, step, s.params, w.value, gs[1], now) else now == s.params
            case Embedding(_, _, _, w) => |gs| == 1 && if w.Some? then SteppedOn(K, step, s.params, w.value, gs[0], now) else now == s.params
            case _ => now == s.params
  {
    var now := StepEntry(K, t, FusedSink(K, step), e, s).s.params;
    match e.metadata
    case MatMul(_, _, _, _, _) =>
      MatMulStep(K, t, FusedSink(K, step), e, s, ov, gs);
      if e.paramId.Some? { StepsOn(K, step, s.params, e.paramId.value, gs[0], now); }
    case RmsNorm(_, w) =>
      RmsNormStep(K, t, FusedSink(K, step), e, s, ov, gs);
      if w.Some? { StepsOn(K, step, s.params, w.value, gs[1], now); }
    case Embedding(_, _, _, w) =>
      EmbeddingStep(K, t, FusedSink(K, step), e, s, ov, gs);
      if w.Some? { StepsOn(K, step, s.params, w.value, gs[0], now); }
    case _ =>
      PlainStep(K, t, FusedSink(K, step), e, s, ov, gs);
  }

  // ---------------------------------------------------------------- replay

  /** The operand that replay feeds to input `k` of entry `e`: the replayed or resident tensor, or for
      LoRA's A and B the tensor their parameter is registered for. */
  ghost predicate FedTo(t: TapeView, ov: Overlay, e: TapeEntry, k: nat, x: Tensor)
    requires k < |e.inputs|
  {
    var id := e.inputs[k];
    if id in ov then x == ov[id]
    else if id in t.tensors then x == t.tensors[id]
    else match e.metadata
      case LoRAApply(_, _, a, b) =>
        || (k == 2 && a in t.paramTensors && t.paramTensors[a] in t.tensors && x == t.tensors[t.paramTensors[a]])
        || (k == 3 && b in t.paramTensors && t.paramTensors[b] in t.tensors && x == t.tensors[t.paramTensors[b]])
      case _ => false
  }

  /** Nothing can be fed to input `k`. */
  ghost predicate Nowhere(t: TapeView, ov: Overlay, e: TapeEntry, k: nat)
    requires k < |e.inputs|
  {
    forall x :: !FedTo(t, ov, e, k, x)
  }

  lemma ResolvedIsFed(t: TapeView, ov: Overlay, e: TapeEntry, k: nat, x: Tensor)
    requires k < |e.inputs| && (e.metadata.LoRAApply? ==> k < 4)
    ensures ResolveInput(t, ov, e, k) == Some(x) <==> FedTo(t, ov, e, k, x)
  {
  }

  lemma {:induction false} ResolvedAreFed(t: TapeView, ov: Overlay, e: TapeEntry, n: nat)
    requires n <= |e.inputs| && (e.metadata.LoRAApply? ==> |e.inputs| == 4)
    ensures var r := ResolveInputs(t, ov, e, n);
            && (r.Some? ==> forall k {:trigger r.value[k]} :: 0 <= k < n ==> FedTo(t, ov, e, k, r.value[k]))
            && (r.None? ==> exists k: nat {:trigger Nowhere(t, ov, e, k)} :: k < n && Nowhere(t, ov, e, k))
  {
    if n > 0 {
      ResolvedAreFed(t, ov, e, n - 1);
      var x := ResolveInput(t, ov, e, n - 1);
      if x.Some? {
        ResolvedIsFed(t, ov, e, n - 1, x.value);
      } else {
        var k: nat := n - 1;
        forall y ensures !FedTo(t, ov, e, k, y) { ResolvedIsFed(t, ov, e, k, y); }
        assert Nowhere(t, ov, e, k);
      }
    }
  }

  /** Replaying an entry runs its forward kernel on exactly these operands, and fails for a missing
      tensor exactly when one of them is nowhere. */
  lemma ReplayFeeds(K: Kernels, t: TapeView, e: TapeEntry, ov: Overlay)
    requires |e.inputs| == Arity(e.metadata)
    ensures ReplayEntry(K, t, e, ov) == Err(MissingTensor) <==> exists k: nat {:trigger Nowhere(t, ov, e, k)} :: k < |e.inputs| && Nowhere(t, ov, e, k)
    ensures ReplayEntry(K, t, e, ov) != Err(MissingTensor) ==>
              exists ins :: |ins| == |e.inputs| && (forall k {:trigger ins[k]} :: 0 <= k < |ins| ==> FedTo(t, ov, e, k, ins[k])) &&
                            ReplayEntry(K, t, e, ov) == if K.replay(e.metadata, ins).None? then Err(KernelFailed) else Ok(K.replay(e.metadata, ins).value)
  {
    ResolvedAreFed(t, ov, e, |e.inputs|);
    var r := ResolveInputs(t, ov, e, |e.inputs|);
    if r.Some? {
      forall k: nat | k < |e.inputs| ensures !Nowhere(t, ov, e, k) { assert FedTo(t, ov, e, k, r.value[k]); }
    }
  }
}
