/** The lost operand nobody misses. The backward arm of an addition does not insist on its operands:
    without one it cannot know the shape to reduce the gradient to, and hands it on whole. Where the
    addition was broadcast the freed sweep succeeds with a gradient of the wrong shape. */
module LostAddends {
  import opened Tensors
  import opened TapeModel
  import opened Sweep
  import opened Checkpoint
  import opened CpuKernels
  import opened LostEdges

  // ---------------------------------------------------------------- the overlay stays confined

  lemma {:induction false} ReplayStaysConfined(K: Kernels, f: TapeView, seg: nat, ov: Overlay, n: nat)
    requires Confined(f, ov, Some(seg)) && n <= |f.entries|
    ensures var r := ReplaySegment(K, f, seg, ov, n); r.Ok? ==> Confined(f, r.value.0, Some(seg))
  {
    if n > 0 {
      ReplayStaysConfined(K, f, seg, ov, n - 1);
      if f.entries[n - 1].segmentIdx == seg { assert InSegment(f, seg, f.entries[n - 1].output); }
    }
  }

  lemma EnterStaysConfined(K: Kernels, f: TapeView, e: TapeEntry, ov: Overlay, active: Option<nat>)
    requires Confined(f, ov, active)
    ensures var r := Enter(K, f, e, ov, active); r.Ok? ==> Confined(f, r.value.0, Some(e.segmentIdx))
  {
    ReplayStaysConfined(K, f, e.segmentIdx, KeptOverlay(f, e.segmentIdx, ov, active), |f.entries|);
  }

  lemma StepStaysConfined<P>(K: Kernels, f: TapeView, sink: Sink<P>, e: TapeEntry, s: SweepState<P>)
    requires K.Valid() && |e.inputs| == Arity(e.metadata) && Confined(f, s.overlay, s.active)
    ensures var r := StepEntry(K, f, sink, e, s); r.Running? ==> Confined(f, r.s.overlay, r.s.active)
  {
    EnterStaysConfined(K, f, e, s.overlay, s.active);
  }

  lemma ResidentConfinedIsEmpty(t: TapeView, ov: Overlay, active: Option<nat>)
    requires WellFormed(t) && Resident(t) && Confined(t, ov, active)
    ensures ov == map[]
  {
    forall id ensures id !in ov {
      OutputsAreResident(t, if active.Some? then active.value else 0, id);
    }
  }

  lemma OutputsAreResident(t: TapeView, seg: nat, id: TensorId)
    requires WellFormed(t) && Resident(t)
    ensures InSegment(t, seg, id) ==> id in t.tensors
  {
  }

  // ---------------------------------------------------------------- the only reader of a tensor

  /** Input `k` of entry `j` is read nowhere else. */
  ghost predicate OnlyReader(t: TapeView, j: nat, k: nat) {
    && j < |t.entries| && k < |t.entries[j].inputs|
    && forall m, q {:trigger t.entries[m].inputs[q]} :: 0 <= m < |t.entries| && 0 <= q < |t.entries[m].inputs| ==>
         (t.entries[m].inputs[q] == t.entries[j].inputs[k] ==> m == j && q == k)
  }

  lemma UnreadElsewhere(t: TapeView, j: nat, k: nat, m: nat)
    requires OnlyReader(t, j, k) && m < |t.entries| && m != j
    ensures t.entries[j].inputs[k] !in t.entries[m].inputs
  {
    assert forall q :: 0 <= q < |t.entries[m].inputs| ==> t.entries[m].inputs[q] != t.entries[j].inputs[k];
  }

  /** What the sweep knew when it came to entry `j`, for a run that gave its output a gradient. */
  ghost predicate ReaderDecides<P>(K: Kernels, t: TapeView, sink: Sink<P>, j: nat, k: nat, at: SweepState<P>, last: SweepState<P>)
    requires K.Valid() && j < |t.entries| && k < |t.entries[j].inputs| == Arity(t.entries[j].metadata)
  {
    var (o, x) := (t.entries[j].output, t.entries[j].inputs[k]);
    var r := StepEntry(K, t, sink, t.entries[j], at);
    && Confined(t, at.overlay, at.active) && x !in at.grads
    && o in at.grads && o in last.grads && at.grads[o] == last.grads[o]
    && r.Running? && (x in r.s.grads <==> x in last.grads) && (x in last.grads ==> last.grads[x] == r.s.grads[x])
  }

  lemma {:induction false} ReachesReader<P>(K: Kernels, t: TapeView, sink: Sink<P>, j: nat, k: nat, n: nat, s: SweepState<P>)
    returns (at: SweepState<P>)
    requires K.Valid() && WellFormed(t) && OnlyReader(t, j, k) && j < n <= |t.entries|
    requires Confined(t, s.overlay, s.active) && t.entries[j].inputs[k] !in s.grads
    requires var r := SweepDown(K, t, sink, n, 0, s); r.Running? && t.entries[j].output in r.s.grads
    ensures k < |t.entries[j].inputs| == Arity(t.entries[j].metadata)
    ensures ReaderDecides(K, t, sink, j, k, at, SweepDown(K, t, sink, n, 0, s).s)
  {
    var e := t.entries[n - 1];
    var r := StepEntry(K, t, sink, e, s);
    StepReaches(K, t, sink, e, s);
    if n - 1 > j {
      UnreadElsewhere(t, j, k, n - 1);
      StepStaysConfined(K, t, sink, e, s);
      at := ReachesReader(K, t, sink, j, k, n - 1, r.s);
    } else {
      at := s;
      OwnOutputUnread(t, j);
      UnreadIsFinal(K, t, sink, j, r.s, e.output);
      forall m | 0 <= m < j ensures e.inputs[k] !in t.entries[m].inputs { UnreadElsewhere(t, j, k, m); }
      UnreadIsFinal(K, t, sink, j, r.s, e.inputs[k]);
    }
  }

  // ---------------------------------------------------------------- additions

  /** One step of an addition whose operand `k` is read nowhere else: the operand's gradient is
      the output's, reduced to the operand's shape if the operand can be found. */
  lemma AddendGradient<P>(o: Kernels, t: TapeView, sink: Sink<P>, j: nat, k: nat, at: SweepState<P>)
    requires o.Valid() && WellFormed(t) && OnlyReader(t, j, k) && t.entries[j].metadata.Add?
    requires t.entries[j].output in at.grads && t.entries[j].inputs[k] !in at.grads
    ensures |t.entries[j].inputs| == 2
    ensures var e := t.entries[j];
            var r := StepEntry(Cpu(o), t, sink, e, at);
            r.Running? ==>
              && e.inputs[k] in r.s.grads && Enter(Cpu(o), t, e, at.overlay, at.active).Ok?
              && Some(r.s.grads[e.inputs[k]]) ==
                 ReducedFor(at.grads[e.output], GetAny(t, Enter(Cpu(o), t, e, at.overlay, at.active).value.0, e.inputs[k]))
  {
    var K, e := Cpu(o), t.entries[j];
    assert |e.inputs| == Arity(e.metadata);
    assert e.inputs[0] != e.inputs[1] by { assert t.entries[j].inputs[1 - k] == e.inputs[1 - k]; }
    var r := StepEntry(K, t, sink, e, at);
    if r.Running? {
      var ov := Enter(K, t, e, at.overlay, at.active).value.0;
      var ins := Operands(t, ov, e);
      var gs := K.vjp(e.metadata, ins, GetAny(t, ov, e.output), at.grads[e.output]).value;
      assert Some(gs[k]) == ReducedFor(at.grads[e.output], ins[k]);
      AddendPlaced(K, e, at.grads, gs, k);
    }
  }

  lemma AddendPlaced(K: Kernels, e: TapeEntry, grads: map<TensorId, Tensor>, gs: seq<Tensor>, k: nat)
    requires |e.inputs| == |gs| == 2 && k < 2 && e.inputs[0] != e.inputs[1] && e.inputs[k] !in grads
    ensures var r := AccumulateInputs(K, grads, e, gs, 2);
            r.Some? ==> e.inputs[k] in r.value && r.value[e.inputs[k]] == gs[k]
  {
    assert AccumulateInputs(K, grads, e, gs, 0) == Some(grads);
    assert AccumulateInputs(K, grads, e, gs, 1) == AccumulateTensorGrad(K, grads, e.inputs[0], gs[0]);
  }

  /** Main result. For every tape on which freeing loses an addend that only this addition reads,
      and for every loss and sink: where the full run reduces the output's gradient to the addend's
      shape, the freed run, if it finishes, hands the gradient on unreduced. */
  lemma LostAddendIsNotReduced<P>(o: Kernels, t: TapeView, sink: Sink<P>, lossGrad: Tensor, lossId: TensorId, params: P, i: nat, j: nat, k: nat)
    requires o.Valid() && WellFormed(t) && Resident(t) && LostEdge(t, i, j, k)
    requires t.entries[j].metadata.Add? && OnlyReader(t, j, k) && lossId != t.entries[j].inputs[k]
    ensures WellFormed(Freed(t)) && t.entries[j].inputs[k] in t.tensors
    ensures var (out, x) := (t.entries[j].output, t.entries[j].inputs[k]);
            var full := BackwardRun(Cpu(o), t, sink, lossGrad, lossId, params);
            var freed := BackwardRun(Cpu(o), Freed(t), sink, lossGrad, lossId, params);
            && (full.Running? && out in full.s.grads ==>
                  x in full.s.grads && Some(full.s.grads[x]) == Reduced(full.s.grads[out], t.tensors[x].shape))
            && (freed.Running? && out in freed.s.grads ==>
                  x in freed.s.grads && freed.s.grads[x] == freed.s.grads[out])
  {
    LostAfterFreeing(t, i, j, k);
    InputsResident(t, j);
    FullAddend(o, t, sink, lossGrad, lossId, params, j, k);
    FreedAddend(o, t, sink, lossGrad, lossId, params, i, j, k);
  }

  lemma FullAddend<P>(o: Kernels, t: TapeView, sink: Sink<P>, lossGrad: Tensor, lossId: TensorId, params: P, j: nat, k: nat)
    requires o.Valid() && WellFormed(t) && Resident(t) && OnlyReader(t, j, k) && t.entries[j].metadata.Add? && lossId != t.entries[j].inputs[k]
    ensures t.entries[j].inputs[k] in t.tensors
    ensures var (out, x) := (t.entries[j].output, t.entries[j].inputs[k]);
            var full := BackwardRun(Cpu(o), t, sink, lossGrad, lossId, params);
            full.Running? && out in full.s.grads ==>
              x in full.s.grads && Some(full.s.grads[x]) == Reduced(full.s.grads[out], t.tensors[x].shape)
  {
    InputsResident(t, j);
    var full := BackwardRun(Cpu(o), t, sink, lossGrad, lossId, params);
    if full.Running? && t.entries[j].output in full.s.grads {
      var at := ReachesReader(Cpu(o), t, sink, j, k, |t.entries|, Start(lossGrad, lossId, params));
      ResidentConfinedIsEmpty(t, at.overlay, at.active);
      ResidentEnter(Cpu(o), t, j, at.active);
      AddendGradient(o, t, sink, j, k, at);
    }
  }

  lemma FreedAddend<P>(o: Kernels, t: TapeView, sink: Sink<P>, lossGrad: Tensor, lossId: TensorId, params: P, i: nat, j: nat, k: nat)
    requires o.Valid() && WellFormed(t) && LostEdge(t, i, j, k) && WellFormed(Freed(t)) && Lost(Freed(t), j, k)
    requires t.entries[j].metadata.Add? && OnlyReader(t, j, k) && lossId != t.entries[j].inputs[k]
    ensures var (out, x) := (t.entries[j].output, t.entries[j].inputs[k]);
            var freed := BackwardRun(Cpu(o), Freed(t), sink, lossGrad, lossId, params);
            freed.Running? && out in freed.s.grads ==> x in freed.s.grads && freed.s.grads[x] == freed.s.grads[out]
  {
    var f := Freed(t);
    var freed := BackwardRun(Cpu(o), f, sink, lossGrad, lossId, params);
    if freed.Running? && t.entries[j].output in freed.s.grads {
      assert OnlyReader(f, j, k);
      var at := ReachesReader(Cpu(o), f, sink, j, k, |f.entries|, Start(lossGrad, lossId, params));
      AddendGradient(o, f, sink, j, k, at);
      EnterStaysConfined(Cpu(o), f, f.entries[j], at.overlay, at.active);
    }
  }
}
