/** Checkpointing preserves meaning: sweeping a tape whose recomputable activations were freed
    gives exactly the run of the fully resident tape, and replays each segment at most once. */
module Checkpoint {
  import opened Tensors
  import opened TapeModel
  import opened Sweep

  function Values(t: TapeView, ids: seq<TensorId>): (r: seq<Tensor>)
    requires forall k :: 0 <= k < |ids| ==> ids[k] in t.tensors
    ensures |r| == |ids|
  {
    seq(|ids|, k requires 0 <= k < |ids| => t.tensors[ids[k]])
  }

  /** Every recorded output is what replay would compute from the recorded inputs. */
  ghost predicate Replayable(K: Kernels, t: TapeView)
    requires WellFormed(t) && Resident(t)
  {
    forall i {:trigger t.entries[i]} :: 0 <= i < |t.entries| ==> ReplayableEntry(K, t, i)
  }

  ghost predicate ReplayableEntry(K: Kernels, t: TapeView, i: nat)
    requires WellFormed(t) && Resident(t) && i < |t.entries|
  {
    InputsResident(t, i);
    var e := t.entries[i];
    K.replay(e.metadata, Values(t, e.inputs)) == Some(t.tensors[e.output])
  }

  lemma InputsResident(t: TapeView, i: nat)
    requires WellFormed(t) && Resident(t) && i < |t.entries|
    ensures forall k {:trigger t.entries[i].inputs[k]} :: 0 <= k < |t.entries[i].inputs| ==> t.entries[i].inputs[k] in t.tensors
    ensures t.entries[i].output in t.tensors
  {
    assert t.entries[i].output < t.nextId;
    forall k | 0 <= k < |t.entries[i].inputs|
      ensures t.entries[i].inputs[k] in t.tensors
    {
      assert t.entries[i].inputs[k] < t.entries[i].output;
    }
  }

  /** The tape is an honest record of a forward pass and its segments can be replayed. */
  ghost predicate Checkpointable(K: Kernels, t: TapeView) {
    K.Valid() && WellFormed(t) && Resident(t) && NoLostEdges(t) && Replayable(K, t)
  }

  /** `f` is `t` with some tensors dropped, but with every input kept whose producer is not in
      the reader's own segment. This is what the retention pass guarantees. */
  ghost predicate Thinned(t: TapeView, f: TapeView) {
    && f.entries == t.entries && f.nextId == t.nextId
    && (forall id {:trigger id in f.tensors} :: id in f.tensors ==> id in t.tensors && f.tensors[id] == t.tensors[id])
    && (forall j, k {:trigger t.entries[j].inputs[k]} :: 0 <= j < |t.entries| && 0 <= k < |t.entries[j].inputs| ==>
          t.entries[j].inputs[k] in f.tensors || ProducedInSegment(t, j, t.entries[j].inputs[k]))
  }

  ghost predicate ProducedInSegment(t: TapeView, j: nat, id: TensorId)
    requires j < |t.entries|
  {
    exists i {:trigger t.entries[i]} :: 0 <= i < j && t.entries[i].output == id && t.entries[i].segmentIdx == t.entries[j].segmentIdx
  }

  lemma FreedIsThinned(t: TapeView)
    requires WellFormed(t) && Resident(t) && NoLostEdges(t)
    ensures WellFormed(Freed(t)) && Thinned(t, Freed(t))
  {
    forall j, k | 0 <= j < |t.entries| && 0 <= k < |t.entries[j].inputs|
      ensures t.entries[j].inputs[k] in Freed(t).tensors || ProducedInSegment(t, j, t.entries[j].inputs[k])
    {
      FreedKeepsCrossSegmentInputs(t, j, k);
    }
  }

  /** Freeing keeps all that replay needs exactly when no entry reads a freed tensor of a later
      segment. */
  lemma ThinnedIffNoLostEdges(t: TapeView)
    requires WellFormed(t) && Resident(t)
    ensures Thinned(t, Freed(t)) <==> NoLostEdges(t)
  {
    if NoLostEdges(t) { FreedIsThinned(t); }
    if Thinned(t, Freed(t)) {
      forall i: nat, j: nat, k: nat ensures !LostEdge(t, i, j, k) {
        if ForwardEdge(t, i, j, k) {
          NotOwnSegment(t, i, j, k);
          assert t.entries[j].inputs[k] in Freed(t).tensors;
        }
      }
    }
  }

  lemma SameProducer(t: TapeView, i: nat, j: nat)
    requires WellFormed(t) && i < |t.entries| && j < |t.entries| && t.entries[i].output == t.entries[j].output
    ensures i == j
  {
  }

  lemma NotOwnSegment(t: TapeView, i: nat, j: nat, k: nat)
    requires WellFormed(t) && ForwardEdge(t, i, j, k)
    ensures !ProducedInSegment(t, j, t.entries[j].inputs[k])
  {
    forall l | 0 <= l < j && t.entries[l].output == t.entries[j].inputs[k] ensures t.entries[l].segmentIdx != t.entries[j].segmentIdx {
      SameProducer(t, l, i);
    }
  }

  /** An overlay never disagrees with the values the full tape would hold, and never shadows
      a tensor that survived. */
  ghost predicate Faithful(t: TapeView, f: TapeView, ov: Overlay) {
    && (forall id {:trigger id in ov} :: id in ov ==> id in t.tensors && ov[id] == t.tensors[id])
    && (forall id {:trigger id in ov} :: id in ov ==> id !in f.tensors)
  }

  /** Entry `j`'s inputs are all available once the entries before it in its segment are. */
  lemma InputsAvailable(K: Kernels, t: TapeView, f: TapeView, ov: Overlay, j: nat)
    requires Checkpointable(K, t) && Thinned(t, f) && Faithful(t, f, ov) && j < |t.entries|
    requires forall i {:trigger t.entries[i]} :: 0 <= i < j && t.entries[i].segmentIdx == t.entries[j].segmentIdx ==>
               !Dropped(f, ov, t.entries[i].output)
    ensures forall k {:trigger t.entries[j].inputs[k]} :: 0 <= k < |t.entries[j].inputs| ==>
              GetAny(f, ov, t.entries[j].inputs[k]) == GetAny(t, map[], t.entries[j].inputs[k]) &&
              t.entries[j].inputs[k] in t.tensors && !Dropped(f, ov, t.entries[j].inputs[k])
  {
    InputsResident(t, j);
    forall k | 0 <= k < |t.entries[j].inputs|
      ensures !Dropped(f, ov, t.entries[j].inputs[k])
    {
      assert t.entries[j].inputs[k] in f.tensors || ProducedInSegment(t, j, t.entries[j].inputs[k]);
    }
  }

  lemma {:induction false} ResolvedInputsAreTheRecordedOnes(t: TapeView, f: TapeView, ov: Overlay, e: TapeEntry, n: nat)
    requires n <= |e.inputs|
    requires forall k :: 0 <= k < |e.inputs| ==> e.inputs[k] in t.tensors
    requires forall k :: 0 <= k < n ==> GetAny(f, ov, e.inputs[k]) == Some(t.tensors[e.inputs[k]])
    ensures ResolveInputs(f, ov, e, n) == Some(Values(t, e.inputs[..n]))
  {
    if n > 0 {
      ResolvedInputsAreTheRecordedOnes(t, f, ov, e, n - 1);
      assert Values(t, e.inputs[..n]) == Values(t, e.inputs[..n - 1]) + [t.tensors[e.inputs[n - 1]]];
    } else {
      assert Values(t, e.inputs[..0]) == [];
    }
  }

  lemma EntryReplays(K: Kernels, t: TapeView, f: TapeView, ov: Overlay, j: nat)
    requires Checkpointable(K, t) && Thinned(t, f) && Faithful(t, f, ov) && j < |t.entries|
    requires forall i {:trigger t.entries[i]} :: 0 <= i < j && t.entries[i].segmentIdx == t.entries[j].segmentIdx ==>
               !Dropped(f, ov, t.entries[i].output)
    ensures t.entries[j].output in t.tensors
    ensures ReplayEntry(K, f, t.entries[j], ov) == Ok(t.tensors[t.entries[j].output])
  {
    var e := t.entries[j];
    InputsAvailable(K, t, f, ov, j);
    InputsResident(t, j);
    ResolvedInputsAreTheRecordedOnes(t, f, ov, e, |e.inputs|);
    assert e.inputs[..|e.inputs|] == e.inputs;
    assert ReplayableEntry(K, t, j);
  }

  /** The overlay `mid` is `ov` plus replayed outputs of the first `n` entries' share of `seg`. */
  ghost predicate Rebuilt(t: TapeView, f: TapeView, seg: nat, ov: Overlay, mid: Overlay, n: nat)
    requires n <= |t.entries|
  {
    && Faithful(t, f, mid) && ov.Keys <= mid.Keys
    && (forall id {:trigger id in mid} :: id in mid && id !in ov ==> InSegment(t, seg, id))
    && (forall i {:trigger t.entries[i]} :: 0 <= i < n && t.entries[i].segmentIdx == seg ==>
          !Dropped(f, mid, t.entries[i].output))
  }

  ghost predicate SomeDropped(t: TapeView, f: TapeView, seg: nat, ov: Overlay) {
    exists i {:trigger t.entries[i]} ::
      0 <= i < |t.entries| && t.entries[i].segmentIdx == seg && Dropped(f, ov, t.entries[i].output)
  }

  /** Replaying a segment of a freed tape succeeds and rebuilds the recorded values. */
  lemma {:induction false} SegmentReplays(K: Kernels, t: TapeView, f: TapeView, seg: nat, ov: Overlay, n: nat)
    requires Checkpointable(K, t) && Thinned(t, f) && Faithful(t, f, ov) && n <= |t.entries|
    ensures ReplaySegment(K, f, seg, ov, n).Ok?
    ensures Rebuilt(t, f, seg, ov, ReplaySegment(K, f, seg, ov, n).value.0, n)
    ensures ReplaySegment(K, f, seg, ov, n).value.1 ==> SomeDropped(t, f, seg, ov)
  {
    if n > 0 {
      SegmentReplays(K, t, f, seg, ov, n - 1);
      var mid := ReplaySegment(K, f, seg, ov, n - 1).value.0;
      var e := t.entries[n - 1];
      if e.segmentIdx == seg && Dropped(f, mid, e.output) {
        EntryReplays(K, t, f, mid, n - 1);
        RebuiltOne(t, f, seg, ov, mid, n - 1);
        assert Dropped(f, ov, e.output);
      } else {
        assert Rebuilt(t, f, seg, ov, mid, n);
        assert ReplaySegment(K, f, seg, ov, n) == ReplaySegment(K, f, seg, ov, n - 1);
      }
    }
  }

  lemma RebuiltOne(t: TapeView, f: TapeView, seg: nat, ov: Overlay, mid: Overlay, n: nat)
    requires n < |t.entries| && Rebuilt(t, f, seg, ov, mid, n)
    requires t.entries[n].segmentIdx == seg && Dropped(f, mid, t.entries[n].output)
    requires t.entries[n].output in t.tensors
    ensures Rebuilt(t, f, seg, ov, mid[t.entries[n].output := t.tensors[t.entries[n].output]], n + 1)
  {
    assert InSegment(t, seg, t.entries[n].output);
  }

  /** After entering entry `j`, all it needs is available with its recorded value. */
  lemma EnterResolves(K: Kernels, t: TapeView, f: TapeView, j: nat, ov: Overlay, active: Option<nat>)
    requires Checkpointable(K, t) && Thinned(t, f) && Faithful(t, f, ov) && j < |t.entries|
    ensures var e := t.entries[j];
            var r := Enter(K, f, e, ov, active);
            && r.Ok? && Faithful(t, f, r.value.0)
            && Operands(f, r.value.0, e) == Operands(t, map[], e)
            && GetAny(f, r.value.0, e.output) == GetAny(t, map[], e.output)
  {
    var e := t.entries[j];
    var kept := if active.Some? && active.value != e.segmentIdx then Evicted(f, active.value, ov) else ov;
    assert Faithful(t, f, kept);
    SegmentReplays(K, t, f, e.segmentIdx, kept, |t.entries|);
    var r := Enter(K, f, e, ov, active).value.0;
    InputsResident(t, j);
    if Missing(f, kept, e) {
      InputsAvailable(K, t, f, r, j);
    }
    forall k | 0 <= k < |e.inputs|
      ensures GetAny(f, r, e.inputs[k]) == GetAny(t, map[], e.inputs[k])
    {
      assert !Dropped(f, r, e.inputs[k]);
    }
    assert Operands(f, r, e) == Operands(t, map[], e);
  }

  lemma ResidentEnter(K: Kernels, t: TapeView, j: nat, active: Option<nat>)
    requires WellFormed(t) && Resident(t) && j < |t.entries|
    ensures Enter(K, t, t.entries[j], map[], active) == Ok((map[], false))
  {
    InputsResident(t, j);
    assert forall seg :: Evicted(t, seg, map[]) == map[];
  }

  lemma ResidentOperandsPresent(t: TapeView, j: nat)
    requires WellFormed(t) && Resident(t) && j < |t.entries|
    ensures |t.entries[j].inputs| == Arity(t.entries[j].metadata)
    ensures OperandsPresent(t.entries[j].metadata, Operands(t, map[], t.entries[j]), GetAny(t, map[], t.entries[j].output))
  {
    InputsResident(t, j);
    var e := t.entries[j];
    forall k | 0 <= k < |e.inputs| ensures Operands(t, map[], e)[k].Some? {
      assert e.inputs[k] in t.tensors;
    }
  }

  /** Two runs that hand the same gradients and parameters to the caller. */
  ghost predicate SameOutcome<P>(a: Run<P>, b: Run<P>) {
    match (a, b)
    case (Running(s), Running(r)) => s.grads == r.grads && s.params == r.params && s.active == r.active
    case (Failed(e, p), Failed(f, q)) => e == f && p == q
    case _ => false
  }

  lemma StepSimulates<P>(K: Kernels, t: TapeView, f: TapeView, sink: Sink<P>, j: nat, full: SweepState<P>, part: SweepState<P>)
    requires Checkpointable(K, t) && Thinned(t, f) && j < |t.entries|
    requires full.overlay == map[] && Faithful(t, f, part.overlay)
    requires SameOutcome(Running(full), Running(part))
    ensures |t.entries[j].inputs| == Arity(t.entries[j].metadata)
    ensures var a := StepEntry(K, t, sink, t.entries[j], full);
            var b := StepEntry(K, f, sink, t.entries[j], part);
            && SameOutcome(a, b)
            && (a.Running? ==> a.s.overlay == map[] && a.s.replays == full.replays && Faithful(t, f, b.s.overlay))
            && (a.Failed? ==> a.err == KernelFailed || exists p, id, g :: sink(p, id, g).Refused? && sink(p, id, g).err == a.err)
  {
    EnterResolves(K, t, f, j, part.overlay, part.active);
    ResidentEnter(K, t, j, full.active);
    ResidentOperandsPresent(t, j);
    var e := t.entries[j];
    if e.output in full.grads {
      var vjp := K.vjp(e.metadata, Operands(t, map[], e), GetAny(t, map[], e.output), full.grads[e.output]);
      if vjp.Some? {
        RefusalComesFromSink(sink, full.params, ParamRoutes(e), vjp.value, |ParamRoutes(e)|);
      }
    }
  }

  lemma {:induction false} RefusalComesFromSink<P>(sink: Sink<P>, p: P, routes: seq<(ParamId, nat)>, gs: seq<Tensor>, n: nat)
    requires n <= |routes| && forall i :: 0 <= i < |routes| ==> routes[i].1 < |gs|
    ensures var r := RouteParams(sink, p, routes, gs, n);
            r.Refused? ==> exists q, id, g :: sink(q, id, g).Refused? && sink(q, id, g).err == r.err
  {
    if n > 0 {
      RefusalComesFromSink(sink, p, routes, gs, n - 1);
      var r := RouteParams(sink, p, routes, gs, n - 1);
      if r.Kept? {
        var q := sink(r.p, routes[n - 1].0, gs[routes[n - 1].1]);
        assert q == RouteParams(sink, p, routes, gs, n);
      }
    }
  }

  lemma {:induction false} SweepSimulates<P>(K: Kernels, t: TapeView, f: TapeView, sink: Sink<P>, n: nat, lo: nat, full: SweepState<P>, part: SweepState<P>)
    requires Checkpointable(K, t) && Thinned(t, f) && lo <= n <= |t.entries|
    requires full.overlay == map[] && full.replays == [] && Faithful(t, f, part.overlay)
    requires SameOutcome(Running(full), Running(part))
    requires WellFormed(f)
    ensures var a := SweepDown(K, t, sink, n, lo, full);
            && SameOutcome(a, SweepDown(K, f, sink, n, lo, part))
            && (a.Running? ==> a.s.replays == [])
            && (a.Failed? ==> a.err == KernelFailed || exists p, id, g :: sink(p, id, g).Refused? && sink(p, id, g).err == a.err)
  {
    if n > lo {
      StepSimulates(K, t, f, sink, n - 1, full, part);
      var a := StepEntry(K, t, sink, t.entries[n - 1], full);
      var b := StepEntry(K, f, sink, t.entries[n - 1], part);
      if a.Running? {
        SweepSimulates(K, t, f, sink, n - 1, lo, a.s, b.s);
      }
    }
  }

  /** Main theorem. For every honest tape, every loss and every treatment of parameter
      gradients, the sweep over the freed tape returns what the sweep over the full tape
      returns, gradients, parameters and errors alike. The full sweep replays nothing, and
      neither sweep ever stops on a missing tensor unless the parameter sink itself says so. */
  lemma CheckpointingPreservesBackward<P>(K: Kernels, t: TapeView, sink: Sink<P>, lossGrad: Tensor, lossId: TensorId, params: P)
    requires Checkpointable(K, t)
    ensures WellFormed(Freed(t))
    ensures var full := BackwardRun(K, t, sink, lossGrad, lossId, params);
            var freed := BackwardRun(K, Freed(t), sink, lossGrad, lossId, params);
            && SameOutcome(full, freed)
            && (full.Running? ==> full.s.replays == [])
            && (freed.Failed? ==> freed.err == KernelFailed || exists p, id, g :: sink(p, id, g).Refused? && sink(p, id, g).err == freed.err)
  {
    var s := Start(lossGrad, lossId, params);
    FreedIsThinned(t);
    SweepSimulates(K, t, Freed(t), sink, |t.entries|, 0, s, s);
  }

  // ---------------------------------------------------------------- replay economy

  ghost predicate StrictlyDecreasing(xs: seq<nat>) {
    forall i, j :: 0 <= i < j < |xs| ==> xs[i] > xs[j]
  }

  /** The state of a sweep over the freed tape when entries `n..` are done: the overlay holds
      outputs of the active segment only, and the segments replayed so far are distinct. */
  ghost predicate Economical<P>(t: TapeView, f: TapeView, n: nat, s: SweepState<P>)
    requires n <= |t.entries|
  {
    && Faithful(t, f, s.overlay)
    && StrictlyDecreasing(s.replays)
    && match s.active
       case None => s.overlay == map[] && s.replays == []
       case Some(a) =>
         && (forall id {:trigger id in s.overlay} :: id in s.overlay ==> InSegment(t, a, id))
         && (forall x :: x in s.replays ==> x >= a)
         && (a in s.replays ==> !SomeDropped(t, f, a, s.overlay))
         && (forall i {:trigger t.entries[i]} :: 0 <= i < n ==> t.entries[i].segmentIdx <= a)
  }

  /** With nothing of its segment dropped, an entry misses nothing. */
  lemma NothingMissing(K: Kernels, t: TapeView, f: TapeView, ov: Overlay, j: nat)
    requires Checkpointable(K, t) && Thinned(t, f) && Faithful(t, f, ov) && j < |t.entries|
    requires !SomeDropped(t, f, t.entries[j].segmentIdx, ov)
    ensures !Missing(f, ov, t.entries[j])
  {
    InputsAvailable(K, t, f, ov, j);
    assert !Dropped(f, ov, t.entries[j].output);
  }

  /** What entry `j` starts from once a finished segment is evicted. */
  function KeptOverlay(t: TapeView, seg: nat, ov: Overlay, active: Option<nat>): Overlay {
    if active.Some? && active.value != seg then Evicted(t, active.value, ov) else ov
  }

  ghost predicate OverlayIn(t: TapeView, seg: nat, ov: Overlay) {
    forall id {:trigger id in ov} :: id in ov ==> InSegment(t, seg, id)
  }

  lemma EvictionEmpties(t: TapeView, f: TapeView, seg: nat, ov: Overlay)
    requires f.entries == t.entries && OverlayIn(t, seg, ov)
    ensures Evicted(f, seg, ov) == map[]
  {
    forall id | id in ov ensures InSegment(f, seg, id) {
      assert InSegment(t, seg, id);
    }
  }

  lemma EnterFromKept(K: Kernels, t: TapeView, f: TapeView, j: nat, kept: Overlay)
    requires Checkpointable(K, t) && Thinned(t, f) && j < |t.entries|
    requires Faithful(t, f, kept) && OverlayIn(t, t.entries[j].segmentIdx, kept)
    ensures var seg := t.entries[j].segmentIdx;
            var r := EnsureResolved(K, f, t.entries[j], kept);
            && r.Ok? && Faithful(t, f, r.value.0) && OverlayIn(t, seg, r.value.0)
            && (if r.value.1 then SomeDropped(t, f, seg, kept) && !SomeDropped(t, f, seg, r.value.0) else
                 !SomeDropped(t, f, seg, kept) ==> r.value.0 == kept)
  {
    var seg := t.entries[j].segmentIdx;
    SegmentReplays(K, t, f, seg, kept, |t.entries|);
    var mid := ReplaySegment(K, f, seg, kept, |t.entries|).value.0;
    assert Rebuilt(t, f, seg, kept, mid, |t.entries|);
    assert !SomeDropped(t, f, seg, mid);
    forall id | id in mid ensures InSegment(t, seg, id) {
      if id in kept { assert InSegment(t, seg, id); }
    }
    if !SomeDropped(t, f, seg, kept) { NothingMissing(K, t, f, kept, j); }
  }

  lemma EnterIsEconomical(K: Kernels, t: TapeView, f: TapeView, j: nat, ov: Overlay, active: Option<nat>)
    requires Checkpointable(K, t) && Thinned(t, f) && j < |t.entries| && Faithful(t, f, ov)
    requires if active.None? then ov == map[] else OverlayIn(t, active.value, ov)
    ensures var seg := t.entries[j].segmentIdx;
            var r := Enter(K, f, t.entries[j], ov, active);
            && r.Ok? && Faithful(t, f, r.value.0) && OverlayIn(t, seg, r.value.0)
            && (r.value.1 ==> !SomeDropped(t, f, seg, r.value.0))
            && (active == Some(seg) && !SomeDropped(t, f, seg, ov) ==> r.value == (ov, false))
  {
    var seg := t.entries[j].segmentIdx;
    if active.Some? && active.value != seg { EvictionEmpties(t, f, active.value, ov); }
    EnterFromKept(K, t, f, j, KeptOverlay(f, seg, ov, active));
  }

  /** What a step that runs does to the overlay, the active segment and the replay log. */
  lemma StepLogs<P>(K: Kernels, f: TapeView, sink: Sink<P>, e: TapeEntry, s: SweepState<P>)
    requires K.Valid() && |e.inputs| == Arity(e.metadata)
    ensures var r := StepEntry(K, f, sink, e, s);
            r.Running? && e.output in s.grads ==>
              && Enter(K, f, e, s.overlay, s.active).Ok?
              && var entered := Enter(K, f, e, s.overlay, s.active).value;
                 && r.s.overlay == entered.0 && r.s.active == Some(e.segmentIdx)
                 && r.s.replays == if entered.1 then s.replays + [e.segmentIdx] else s.replays
  {
  }

  lemma StepIsEconomical<P>(K: Kernels, t: TapeView, f: TapeView, sink: Sink<P>, j: nat, s: SweepState<P>)
    requires Checkpointable(K, t) && Thinned(t, f) && MonotoneSegments(t) && j < |t.entries| && Economical(t, f, j + 1, s)
    ensures |t.entries[j].inputs| == Arity(t.entries[j].metadata)
    ensures var r := StepEntry(K, f, sink, t.entries[j], s);
            r.Running? ==> Economical(t, f, j, r.s)
  {
    var e := t.entries[j];
    StepLogs(K, f, sink, e, s);
    var r := StepEntry(K, f, sink, e, s);
    if r.Running? {
      if e.output in s.grads {
        EnterIsEconomical(K, t, f, j, s.overlay, s.active);
        ReplayLogGrows(t, f, j, s, r.s, Enter(K, f, e, s.overlay, s.active).value);
      } else {
        StaysEconomical(t, f, j, s);
      }
    }
  }

  lemma StaysEconomical<P>(t: TapeView, f: TapeView, j: nat, s: SweepState<P>)
    requires j < |t.entries| && Economical(t, f, j + 1, s)
    ensures Economical(t, f, j, s)
  {
  }

  lemma ReplayLogGrows<P>(t: TapeView, f: TapeView, j: nat, s: SweepState<P>, r: SweepState<P>, entered: (Overlay, bool))
    requires WellFormed(t) && MonotoneSegments(t) && j < |t.entries| && Economical(t, f, j + 1, s)
    requires var seg := t.entries[j].segmentIdx;
             && Faithful(t, f, entered.0) && OverlayIn(t, seg, entered.0)
             && (entered.1 ==> !SomeDropped(t, f, seg, entered.0))
             && (s.active == Some(seg) && !SomeDropped(t, f, seg, s.overlay) ==> entered == (s.overlay, false))
             && r.overlay == entered.0 && r.active == Some(seg)
             && r.replays == if entered.1 then s.replays + [seg] else s.replays
    ensures Economical(t, f, j, r)
  {
    var seg := t.entries[j].segmentIdx;
    assert s.active.Some? ==> seg <= s.active.value;
    assert seg in s.replays ==> s.active == Some(seg) && entered == (s.overlay, false);
    forall i | 0 <= i < |s.replays| && entered.1 ensures s.replays[i] > seg {
      assert s.replays[i] in s.replays;
    }
    assert forall i {:trigger t.entries[i]} :: 0 <= i < j ==> t.entries[i].segmentIdx <= seg;
  }

  lemma {:induction false} SweepIsEconomical<P>(K: Kernels, t: TapeView, f: TapeView, sink: Sink<P>, n: nat, lo: nat, s: SweepState<P>)
    requires Checkpointable(K, t) && Thinned(t, f) && MonotoneSegments(t) && lo <= n <= |t.entries| && Economical(t, f, n, s)
    requires WellFormed(f)
    ensures var r := SweepDown(K, f, sink, n, lo, s);
            r.Running? ==> Economical(t, f, lo, r.s)
  {
    if n > lo {
      StepIsEconomical(K, t, f, sink, n - 1, s);
      var b := StepEntry(K, f, sink, t.entries[n - 1], s);
      if b.Running? { SweepIsEconomical(K, t, f, sink, n - 1, lo, b.s); }
    }
  }

  /** Main theorem. At every point of the sweep over a freed tape with monotone segments, no
      segment has been replayed twice, and the overlay holds only non-resident outputs of the
      segment being processed. */
  lemma EachSegmentReplayedAtMostOnce<P>(K: Kernels, t: TapeView, sink: Sink<P>, lossGrad: Tensor, lossId: TensorId, params: P, lo: nat)
    requires K.Valid() && WellFormed(t) && Resident(t) && MonotoneSegments(t) && Replayable(K, t) && lo <= |t.entries|
    ensures WellFormed(Freed(t))
    ensures var r := SweepDown(K, Freed(t), sink, |t.entries|, lo, Start(lossGrad, lossId, params));
            r.Running? ==>
              && (forall i, j :: 0 <= i < j < |r.s.replays| ==> r.s.replays[i] != r.s.replays[j])
              && (forall id :: id in r.s.overlay ==>
                    id !in Freed(t).tensors && r.s.active.Some? && InSegment(t, r.s.active.value, id))
  {
    MonotoneHasNoForwardEdges(t);
    FreedIsThinned(t);
    SweepIsEconomical(K, t, Freed(t), sink, |t.entries|, lo, Start(lossGrad, lossId, params));
  }
}
