/** What freeing costs when an entry reads a tensor of a later segment and freeing drops it. Replay
    rebuilds only the reader's own segment, so the tensor never comes back: the sweep over the freed
    tape stops as soon as that entry has a gradient, or, where the backward kernel does not insist
    on the operand, goes on without it. */
module LostEdges {
  import opened Tensors
  import opened TapeModel
  import opened Sweep
  import opened Checkpoint

  /** The overlay holds outputs of the active segment only, and nothing that is resident. */
  ghost predicate Confined(f: TapeView, ov: Overlay, active: Option<nat>) {
    forall id {:trigger id in ov} :: id in ov ==> id !in f.tensors && active.Some? && InSegment(f, active.value, id)
  }

  /** Input `k` of entry `j` has been dropped and no entry of the reader's segment produces it. */
  ghost predicate Lost(f: TapeView, j: nat, k: nat) {
    && WellFormed(f) && j < |f.entries| && k < |f.entries[j].inputs|
    && f.entries[j].inputs[k] !in f.tensors && !InSegment(f, f.entries[j].segmentIdx, f.entries[j].inputs[k])
  }

  /** Replay may take input `k` from the parameter map instead. */
  predicate FallsBack(f: TapeView, e: TapeEntry, k: nat) {
    && e.metadata.LoRAApply? && k >= 2
    && var pid := if k == 2 then e.metadata.a else e.metadata.b;
       pid in f.paramTensors && f.paramTensors[pid] in f.tensors
  }

  /** Entry `j`'s output has been dropped too, and cannot be replayed without input `k`. */
  ghost predicate Unreplayable(f: TapeView, j: nat, k: nat)
    requires Lost(f, j, k)
  {
    f.entries[j].output !in f.tensors && !FallsBack(f, f.entries[j], k)
  }

  /** The backward arm insists on operand `k`. */
  predicate Demands(m: Metadata, k: nat) {
    match m
    case LoRAApply(_, _, _, _) => true
    case MatMul(_, _, _, _, _) => true
    case SiluMul => true
    case RmsNorm(_, _) => true
    case Rope => k >= 1
    case _ => false
  }

  lemma DemandsIsExact(m: Metadata, ins: seq<Option<Tensor>>, out: Option<Tensor>)
    requires |ins| == Arity(m)
    ensures OperandsPresent(m, ins, out) <==>
              (m.Softmax? ==> out.Some?) && forall k: nat :: k < |ins| && Demands(m, k) ==> ins[k].Some?
  {
    if m.Rope? && OperandsPresent(m, ins, out) {
      assert ins[1].Some? && ins[2].Some?;
    }
  }

  /** What a sweep over `f` keeps: the overlay is confined, and the output of an unreplayable
      entry is never in it. */
  ghost predicate Deprived(f: TapeView, j: nat, k: nat, ov: Overlay, active: Option<nat>)
    requires Lost(f, j, k)
  {
    Confined(f, ov, active) && (Unreplayable(f, j, k) ==> f.entries[j].output !in ov)
  }

  // ---------------------------------------------------------------- one segment

  lemma {:induction false} UnresolvedInput(t: TapeView, ov: Overlay, e: TapeEntry, k: nat, n: nat)
    requires k < n <= |e.inputs| && ResolveInput(t, ov, e, k).None?
    ensures ResolveInputs(t, ov, e, n).None?
  {
    if k < n - 1 { UnresolvedInput(t, ov, e, k, n - 1); }
  }

  lemma SameOutput(t: TapeView, i: nat, j: nat)
    requires WellFormed(t) && i < |t.entries| && j < |t.entries|
    ensures t.entries[i].output == t.entries[j].output <==> i == j
  {
  }

  /** Replaying a segment keeps the overlay confined to it; replaying past an unreplayable entry
      fails. */
  lemma {:induction false} ReplayStaysDeprived(K: Kernels, f: TapeView, j: nat, k: nat, seg: nat, ov: Overlay, n: nat)
    requires Lost(f, j, k) && Deprived(f, j, k, ov, Some(seg)) && n <= |f.entries|
    ensures var r := ReplaySegment(K, f, seg, ov, n);
            r.Ok? ==> Deprived(f, j, k, r.value.0, Some(seg)) &&
                      (Unreplayable(f, j, k) && f.entries[j].segmentIdx == seg ==> n <= j)
  {
    if n > 0 {
      ReplayStaysDeprived(K, f, j, k, seg, ov, n - 1);
      var r := ReplaySegment(K, f, seg, ov, n - 1);
      if r.Ok? && f.entries[n - 1].segmentIdx == seg && Dropped(f, r.value.0, f.entries[n - 1].output) {
        EntryStaysDeprived(K, f, j, k, seg, r.value.0, n - 1);
      }
    }
  }

  /** The same for one replayed entry. */
  lemma EntryStaysDeprived(K: Kernels, f: TapeView, j: nat, k: nat, seg: nat, ov: Overlay, n: nat)
    requires Lost(f, j, k) && Deprived(f, j, k, ov, Some(seg)) && n < |f.entries| && f.entries[n].segmentIdx == seg
    requires Dropped(f, ov, f.entries[n].output)
    ensures var r := ReplayEntry(K, f, f.entries[n], ov);
            r.Ok? ==> Deprived(f, j, k, ov[f.entries[n].output := r.value], Some(seg)) && (Unreplayable(f, j, k) ==> n != j)
  {
    SameOutput(f, n, j);
    if n == j {
      DeprivedReplayFails(K, f, j, k, ov);
    }
    assert InSegment(f, seg, f.entries[n].output);
  }

  lemma DeprivedReplayFails(K: Kernels, f: TapeView, j: nat, k: nat, ov: Overlay)
    requires Lost(f, j, k) && Deprived(f, j, k, ov, Some(f.entries[j].segmentIdx))
    ensures GetAny(f, ov, f.entries[j].inputs[k]) == None
    ensures Unreplayable(f, j, k) ==> Dropped(f, ov, f.entries[j].output) && ReplayEntry(K, f, f.entries[j], ov) == Err(MissingTensor)
  {
    var e := f.entries[j];
    if Unreplayable(f, j, k) { UnresolvedInput(f, ov, e, k, |e.inputs|); }
  }

  // ---------------------------------------------------------------- one entry

  lemma KeptIsDeprived(f: TapeView, j: nat, k: nat, seg: nat, ov: Overlay, active: Option<nat>)
    requires Lost(f, j, k) && Deprived(f, j, k, ov, active)
    ensures Deprived(f, j, k, KeptOverlay(f, seg, ov, active), Some(seg))
  {
  }

  /** Entering any entry keeps the overlay deprived. Entering entry `j` leaves operand `k`
      absent, and fails if `j` is unreplayable. */
  lemma EnterStaysDeprived(K: Kernels, f: TapeView, j: nat, k: nat, m: nat, ov: Overlay, active: Option<nat>)
    requires Lost(f, j, k) && Deprived(f, j, k, ov, active) && m < |f.entries|
    ensures var r := Enter(K, f, f.entries[m], ov, active);
            r.Ok? ==>
              && Deprived(f, j, k, r.value.0, Some(f.entries[m].segmentIdx))
              && (m == j ==> !Unreplayable(f, j, k) && GetAny(f, r.value.0, f.entries[j].inputs[k]) == None)
  {
    var e := f.entries[m];
    var kept := KeptOverlay(f, e.segmentIdx, ov, active);
    KeptIsDeprived(f, j, k, e.segmentIdx, ov, active);
    ReplayStaysDeprived(K, f, j, k, e.segmentIdx, kept, |f.entries|);
    if m == j { assert Unreplayable(f, j, k) ==> Missing(f, kept, e); }
  }


  lemma StepStaysDeprived<P>(K: Kernels, f: TapeView, sink: Sink<P>, j: nat, k: nat, m: nat, s: SweepState<P>)
    requires K.Valid() && Lost(f, j, k) && Deprived(f, j, k, s.overlay, s.active) && m < |f.entries|
    ensures |f.entries[m].inputs| == Arity(f.entries[m].metadata)
    ensures var r := StepEntry(K, f, sink, f.entries[m], s);
            r.Running? ==>
              && Deprived(f, j, k, r.s.overlay, r.s.active)
              && (m == j && (Unreplayable(f, j, k) || Demands(f.entries[j].metadata, k)) ==> f.entries[j].output !in s.grads)
  {
    EnterStaysDeprived(K, f, j, k, m, s.overlay, s.active);
    var r := Enter(K, f, f.entries[m], s.overlay, s.active);
    if r.Ok? {
      var e := f.entries[m];
      DemandsIsExact(e.metadata, Operands(f, r.value.0, e), GetAny(f, r.value.0, e.output));
    }
  }

  // ---------------------------------------------------------------- gradients along a sweep

  /** A delivered entry gives a gradient to each of its routed inputs and to nothing else. */
  lemma {:induction false} AccumulateReaches(K: Kernels, grads: map<TensorId, Tensor>, e: TapeEntry, gs: seq<Tensor>, n: nat)
    requires n <= |gs| && n <= |e.inputs|
    ensures var r := AccumulateInputs(K, grads, e, gs, n);
            r.Some? ==> forall id {:trigger id in r.value} ::
              && (id in r.value <==> id in grads || id in e.inputs[..n])
              && (id in grads && id !in e.inputs[..n] ==> r.value[id] == grads[id])
  {
    if n > 0 {
      AccumulateReaches(K, grads, e, gs, n - 1);
      assert e.inputs[..n] == e.inputs[..n - 1] + [e.inputs[n - 1]];
    }
  }

  lemma StepReaches<P>(K: Kernels, t: TapeView, sink: Sink<P>, e: TapeEntry, s: SweepState<P>)
    requires K.Valid() && |e.inputs| == Arity(e.metadata)
    ensures var r := StepEntry(K, t, sink, e, s);
            r.Running? ==> forall id {:trigger id in r.s.grads} ::
              && (id in r.s.grads <==> id in s.grads || (e.output in s.grads && id in e.inputs[..NumRouted(e.metadata)]))
              && (id in s.grads && id !in e.inputs ==> r.s.grads[id] == s.grads[id])
  {
    var r := StepEntry(K, t, sink, e, s);
    if r.Running? && e.output in s.grads {
      var ov := Enter(K, t, e, s.overlay, s.active).value.0;
      var gs := K.vjp(e.metadata, Operands(t, ov, e), GetAny(t, ov, e.output), s.grads[e.output]).value;
      AccumulateReaches(K, s.grads, e, gs, NumRouted(e.metadata));
    }
  }

  /** Which tensors get a gradient depends on the tape alone: not on what was freed, and not on
      the treatment of parameters. */
  lemma {:induction false} RunsReachAlike<P, Q>(K: Kernels, t: TapeView, f: TapeView, sink: Sink<P>, other: Sink<Q>,
                                               n: nat, a: SweepState<P>, b: SweepState<Q>)
    requires K.Valid() && WellFormed(t) && WellFormed(f) && f.entries == t.entries && n <= |t.entries|
    requires a.grads.Keys == b.grads.Keys
    ensures var r := SweepDown(K, t, sink, n, 0, a);
            var q := SweepDown(K, f, other, n, 0, b);
            r.Running? && q.Running? ==> r.s.grads.Keys == q.s.grads.Keys
  {
    if n > 0 {
      var e := t.entries[n - 1];
      StepReaches(K, t, sink, e, a);
      StepReaches(K, f, other, e, b);
      var r, q := StepEntry(K, t, sink, e, a), StepEntry(K, f, other, e, b);
      if r.Running? && q.Running? {
        assert forall id :: id in a.grads <==> id in b.grads;
        assert forall id :: id in r.s.grads <==> id in q.s.grads;
        RunsReachAlike(K, t, f, sink, other, n - 1, r.s, q.s);
      }
    }
  }

  /** No entry below `n` reads `id`. */
  ghost predicate Unread(t: TapeView, n: nat, id: TensorId)
    requires n <= |t.entries|
  {
    forall m {:trigger t.entries[m]} :: 0 <= m < n ==> id !in t.entries[m].inputs
  }

  lemma OwnOutputUnread(t: TapeView, j: nat)
    requires WellFormed(t) && j < |t.entries|
    ensures Unread(t, j + 1, t.entries[j].output)
  {
    forall m | 0 <= m < j + 1 ensures t.entries[j].output !in t.entries[m].inputs {
      assert m < j ==> t.entries[m].output < t.entries[j].output;
      forall q | 0 <= q < |t.entries[m].inputs| ensures t.entries[m].inputs[q] != t.entries[j].output {
        assert t.entries[m].inputs[q] < t.entries[m].output;
      }
    }
  }

  /** A gradient no remaining entry contributes to is final. */
  lemma {:induction false} UnreadIsFinal<P>(K: Kernels, t: TapeView, sink: Sink<P>, n: nat, s: SweepState<P>, id: TensorId)
    requires K.Valid() && WellFormed(t) && n <= |t.entries| && Unread(t, n, id)
    ensures var r := SweepDown(K, t, sink, n, 0, s);
            r.Running? ==> (id in r.s.grads <==> id in s.grads) && (id in s.grads ==> r.s.grads[id] == s.grads[id])
  {
    if n > 0 {
      StepReaches(K, t, sink, t.entries[n - 1], s);
      var r := StepEntry(K, t, sink, t.entries[n - 1], s);
      if r.Running? { UnreadIsFinal(K, t, sink, n - 1, r.s, id); }
    }
  }

  // ---------------------------------------------------------------- whole runs

  lemma {:induction false} DeprivedSweep<P>(K: Kernels, f: TapeView, sink: Sink<P>, j: nat, k: nat, n: nat, s: SweepState<P>)
    requires K.Valid() && Lost(f, j, k) && j < n <= |f.entries| && Deprived(f, j, k, s.overlay, s.active)
    requires Unreplayable(f, j, k) || Demands(f.entries[j].metadata, k)
    ensures var r := SweepDown(K, f, sink, n, 0, s);
            r.Running? ==> f.entries[j].output !in r.s.grads
  {
    StepStaysDeprived(K, f, sink, j, k, n - 1, s);
    var r := StepEntry(K, f, sink, f.entries[n - 1], s);
    if r.Running? {
      if n - 1 > j {
        DeprivedSweep(K, f, sink, j, k, n - 1, r.s);
      } else {
        OwnOutputUnread(f, j);
        StepReaches(K, f, sink, f.entries[j], s);
        UnreadIsFinal(K, f, sink, j, r.s, f.entries[j].output);
      }
    }
  }

  lemma LostAfterFreeing(t: TapeView, i: nat, j: nat, k: nat)
    requires WellFormed(t) && LostEdge(t, i, j, k)
    ensures WellFormed(Freed(t)) && Lost(Freed(t), j, k)
  {
    var x := t.entries[j].inputs[k];
    forall l | 0 <= l < |t.entries| && t.entries[l].output == x ensures t.entries[l].segmentIdx != t.entries[j].segmentIdx {
      SameOutput(t, l, i);
    }
  }

  /** Main result. Wherever freeing loses an operand that the reader's backward arm demands, or
      that its replay needs, a run over the freed tape that reaches the reader fails: for every
      loss and sink, if the full run gives the reader's output a gradient, the freed run stops. */
  lemma LostEdgeStopsTheSweep<P>(K: Kernels, t: TapeView, sink: Sink<P>, lossGrad: Tensor, lossId: TensorId, params: P, i: nat, j: nat, k: nat)
    requires K.Valid() && WellFormed(t) && LostEdge(t, i, j, k)
    ensures WellFormed(Freed(t)) && Lost(Freed(t), j, k)
    ensures var full := BackwardRun(K, t, sink, lossGrad, lossId, params);
            var freed := BackwardRun(K, Freed(t), sink, lossGrad, lossId, params);
            Unreplayable(Freed(t), j, k) || Demands(t.entries[j].metadata, k) ==>
              && (freed.Running? ==> t.entries[j].output !in freed.s.grads)
              && (full.Running? && t.entries[j].output in full.s.grads ==> freed.Failed?)
  {
    LostAfterFreeing(t, i, j, k);
    var s := Start(lossGrad, lossId, params);
    RunsReachAlike(K, t, Freed(t), sink, sink, |t.entries|, s, s);
    if Unreplayable(Freed(t), j, k) || Demands(t.entries[j].metadata, k) {
      DeprivedSweep(K, Freed(t), sink, j, k, |t.entries|, s);
    }
  }
}
