/** Two tapes with a lost edge, recorded by the tape's own methods: an earlier step ended in
    segment 1, `clear` kept that segment, and the first operation of the next step was recorded
    before segment 0 was marked. */
module BackwardsTapes {
  import opened Tensors
  import opened TapeModel
  import opened Sweep
  import opened Checkpoint
  import opened BroadcastKernel
  import opened CpuKernels
  import opened LostEdges
  import opened LostAddends

  function NoSink(): Sink<()> {
    (p: (), id: ParamId, g: Tensor) => Kept(p)
  }

  /** z = f y with y = f x; y belongs to segment 1 and z to segment 0. */
  function ScaledTape(f: real, x: Tensor, y: Tensor, z: Tensor): TapeView {
    TapeView([TapeEntry([0], 1, None, Scale(f), 1), TapeEntry([1], 2, None, Scale(f), 0)],
             map[0 := x, 1 := y, 2 := z], map[], 3, 2, 0, map[0 := 0])
  }

  /** z = w + y with y = f x; y belongs to segment 1 and z to segment 0. The next segment starts
      from z. */
  function AddedTape(f: real, x: Tensor, w: Tensor, y: Tensor, z: Tensor): TapeView {
    TapeView([TapeEntry([0], 2, None, Scale(f), 1), TapeEntry([1, 2], 3, None, Add, 0)],
             map[0 := x, 1 := w, 2 := y, 3 := z], map[], 4, 2, 1, map[0 := 1, 1 := 3])
  }

  method AfterAnEarlierStep() returns (tape: Tape)
    ensures fresh(tape) && tape.View() == TapeView([], map[], map[], 0, 2, 1, map[])
  {
    tape := new Tape();
    tape.SetCheckpointSegs(2);
    tape.MarkSegmentBoundary(1, 0);
    tape.Clear();
  }

  method RecordScaled(f: real, x: Tensor, y: Tensor, z: Tensor) returns (tape: Tape)
    ensures tape.View() == ScaledTape(f, x, y, z)
  {
    tape := AfterAnEarlierStep();
    var a := tape.Register(x);
    var b := tape.Record([a], y, None, Scale(f));
    tape.MarkSegmentBoundary(0, a);
    var c := tape.Record([b], z, None, Scale(f));
    assert tape.View().tensors == ScaledTape(f, x, y, z).tensors;
  }

  method RecordAdded(f: real, x: Tensor, w: Tensor, y: Tensor, z: Tensor) returns (tape: Tape)
    ensures tape.View() == AddedTape(f, x, w, y, z)
  {
    tape := AfterAnEarlierStep();
    var a := tape.Register(x);
    var b := tape.Register(w);
    var c := tape.Record([a], y, None, Scale(f));
    tape.MarkSegmentBoundary(0, b);
    var d := tape.Record([b, c], z, None, Add);
    tape.MarkSegmentBoundary(1, d);
    assert tape.View().tensors == AddedTape(f, x, w, y, z).tensors;
  }

  // ---------------------------------------------------------------- their lost edges

  lemma ScaledShape(f: real, x: Tensor, y: Tensor, z: Tensor)
    ensures var t := ScaledTape(f, x, y, z);
            WellFormed(t) && Resident(t) && LostEdge(t, 0, 1, 0) && t.entries[1].output !in Freed(t).tensors
  {
    var t := ScaledTape(f, x, y, z);
    var e0, e1 := t.entries[0], t.entries[1];
    assert t.entries == [e0, e1] && e0.inputs[0] == 0 && e1.inputs[0] == 1;
    TwoProducers(t, 1, 0);
    KeptOfOne(t.entries, e0);
    KeptOfOne(t.entries, e1);
    KeptOfTwoEntries(t.entries);
    assert RetainSet(t) == {0} by { assert t.boundaries.Keys == {0}; }
  }

  lemma AddedShape(f: real, x: Tensor, w: Tensor, y: Tensor, z: Tensor)
    ensures var t := AddedTape(f, x, w, y, z);
            && WellFormed(t) && Resident(t) && LostEdge(t, 0, 1, 1) && OnlyReader(t, 1, 1)
            && Freed(t).tensors.Keys == {0, 1, 3}
  {
    var t := AddedTape(f, x, w, y, z);
    var e0, e1 := t.entries[0], t.entries[1];
    assert t.entries == [e0, e1] && e0.inputs[0] == 0 && e1.inputs[0] == 1 && e1.inputs[1] == 2;
    TwoProducers(t, 2, 0);
    TwoProducers(t, 2, 1);
    KeptOfOne(t.entries, e0);
    KeptOfOne(t.entries, e1);
    KeptOfTwo(t.entries, e1);
    KeptOfTwoEntries(t.entries);
    TwoBoundaries(1, 3);
    assert RetainSet(t) == {0, 1, 3};
  }

  lemma KeptOfOne(entries: seq<TapeEntry>, e: TapeEntry)
    requires |e.inputs| >= 1
    ensures KeptByInputs(entries, e, 1) == if KeepInput(entries, e, e.inputs[0]) then {e.inputs[0]} else {}
  {
    assert KeptByInputs(entries, e, 0) == {};
  }

  lemma KeptOfTwo(entries: seq<TapeEntry>, e: TapeEntry)
    requires |e.inputs| == 2
    ensures KeptByInputs(entries, e, 2) == KeptByInputs(entries, e, 1) + if KeepInput(entries, e, e.inputs[1]) then {e.inputs[1]} else {}
  {
  }

  lemma KeptOfTwoEntries(entries: seq<TapeEntry>)
    requires |entries| == 2
    ensures KeptByEntries(entries, 2) == KeptByInputs(entries, entries[0], |entries[0].inputs|) + KeptByInputs(entries, entries[1], |entries[1].inputs|)
  {
    assert KeptByEntries(entries, 0) == {};
    assert KeptByEntries(entries, 1) == KeptByInputs(entries, entries[0], |entries[0].inputs|);
  }

  lemma TwoBoundaries(a: TensorId, b: TensorId)
    ensures (map[0 as nat := a, 1 := b]).Values == {a, b}
  {
    var m := map[0 as nat := a, 1 := b];
    assert m.Keys == {0, 1} && m[0] == a && m[1] == b;
  }

  /** Of two entries, the first produces `y` and neither produces the older `x`. */
  lemma TwoProducers(t: TapeView, y: TensorId, x: TensorId)
    requires |t.entries| == 2 && t.entries[0].output == y && x < y < t.entries[1].output
    ensures ProducerSegment(t.entries, y) == Some(t.entries[0].segmentIdx) && ProducerSegment(t.entries, x) == None
  {
    assert t.entries[..1] == [t.entries[0]] && [t.entries[0]][..0] == [];
    assert ProducerSegment([t.entries[0]], y) == Some(t.entries[0].segmentIdx);
    assert ProducerSegment([t.entries[0]], x) == None;
  }

  // ---------------------------------------------------------------- their runs

  /** The CPU's scaling always delivers when the step can be entered. */
  lemma ScaleStepRuns(o: Kernels, t: TapeView, i: nat, s: SweepState<()>)
    requires o.Valid() && i < |t.entries| && t.entries[i].metadata.Scale? && |t.entries[i].inputs| == 1
    requires t.entries[i].output in s.grads && t.entries[i].inputs[0] !in s.grads
    requires Enter(Cpu(o), t, t.entries[i], s.overlay, s.active).Ok?
    ensures var r := StepEntry(Cpu(o), t, NoSink(), t.entries[i], s);
            && r.Running? && r.s.grads.Keys == s.grads.Keys + {t.entries[i].inputs[0]}
            && r.s.grads[t.entries[i].inputs[0]].shape == s.grads[t.entries[i].output].shape
            && (forall id :: id in s.grads ==> r.s.grads[id] == s.grads[id])
  {
    var K, e := Cpu(o), t.entries[i];
    var ov := Enter(K, t, e, s.overlay, s.active).value.0;
    var gs := K.vjp(e.metadata, Operands(t, ov, e), GetAny(t, ov, e.output), s.grads[e.output]).value;
    assert AccumulateInputs(K, s.grads, e, gs, 0) == Some(s.grads);
    assert AccumulateInputs(K, s.grads, e, gs, 1) == Some(s.grads[e.inputs[0] := gs[0]]);
  }

  /** Main result, first tape: the sweep over the full tape succeeds, the sweep over the freed
      tape fails. */
  lemma ScaledTapeStops(o: Kernels, f: real, x: Tensor, y: Tensor, z: Tensor, g: Tensor)
    requires o.Valid()
    ensures var t := ScaledTape(f, x, y, z);
            && WellFormed(t) && Resident(t) && WellFormed(Freed(t))
            && BackwardRun(Cpu(o), t, NoSink(), g, 2, ()).Running?
            && BackwardRun(Cpu(o), Freed(t), NoSink(), g, 2, ()).Failed?
  {
    var t := ScaledTape(f, x, y, z);
    ScaledShape(f, x, y, z);
    var s := Start(g, 2, ());
    ResidentEnter(Cpu(o), t, 1, s.active);
    ScaleStepRuns(o, t, 1, s);
    var s1 := StepEntry(Cpu(o), t, NoSink(), t.entries[1], s).s;
    ResidentEnter(Cpu(o), t, 0, s1.active);
    ScaleStepRuns(o, t, 0, s1);
    assert SweepDown(Cpu(o), t, NoSink(), 1, 0, s1).Running?;
    LostAfterFreeing(t, 0, 1, 0);
    assert Unreplayable(Freed(t), 1, 0);
    UnreadIsFinal(Cpu(o), t, NoSink(), 2, s, 2);
    LostEdgeStopsTheSweep(Cpu(o), t, NoSink(), g, 2, (), 0, 1, 0);
  }

  /** An addition whose operands have no gradient yet delivers both reduced gradients. */
  lemma AddStepRuns(o: Kernels, t: TapeView, i: nat, s: SweepState<()>, gl: Tensor, gr: Tensor)
    requires o.Valid() && i < |t.entries| && t.entries[i].metadata.Add? && |t.entries[i].inputs| == 2
    requires t.entries[i].output in s.grads && t.entries[i].inputs[0] != t.entries[i].inputs[1]
    requires t.entries[i].inputs[0] !in s.grads && t.entries[i].inputs[1] !in s.grads
    requires var e := t.entries[i];
             var r := Enter(Cpu(o), t, e, s.overlay, s.active);
             && r.Ok? && ReducedFor(s.grads[e.output], GetAny(t, r.value.0, e.inputs[0])) == Some(gl)
             && ReducedFor(s.grads[e.output], GetAny(t, r.value.0, e.inputs[1])) == Some(gr)
    ensures var e := t.entries[i];
            var r := StepEntry(Cpu(o), t, NoSink(), e, s);
            && r.Running? && r.s.overlay == Enter(Cpu(o), t, e, s.overlay, s.active).value.0
            && r.s.active == Some(e.segmentIdx) && r.s.grads == s.grads[e.inputs[0] := gl][e.inputs[1] := gr]
  {
    var K, e := Cpu(o), t.entries[i];
    var ov := Enter(K, t, e, s.overlay, s.active).value.0;
    var ins := Operands(t, ov, e);
    var gs := K.vjp(e.metadata, ins, GetAny(t, ov, e.output), s.grads[e.output]).value;
    assert gs == [gl, gr];
    assert AccumulateInputs(K, s.grads, e, gs, 0) == Some(s.grads);
    assert AccumulateInputs(K, s.grads, e, gs, 1) == Some(s.grads[e.inputs[0] := gl]);
    assert AccumulateInputs(K, s.grads, e, gs, 2) == Some(s.grads[e.inputs[0] := gl][e.inputs[1] := gr]);
  }

  /** The operand shapes of a broadcast addition: y, one value, is added to both values of w. */
  predicate OneOntoTwo(x: Tensor, w: Tensor, y: Tensor, g: Tensor) {
    x.shape == [1] && w.shape == [2] && y.shape == [1] && g.shape == [2]
  }

  lemma FullAddedRun(o: Kernels, f: real, x: Tensor, w: Tensor, y: Tensor, z: Tensor, g: Tensor)
    requires o.Valid() && OneOntoTwo(x, w, y, g)
    requires WellFormed(AddedTape(f, x, w, y, z)) && Resident(AddedTape(f, x, w, y, z))
    ensures var r := BackwardRun(Cpu(o), AddedTape(f, x, w, y, z), NoSink(), g, 3, ());
            r.Running? && 0 in r.s.grads && r.s.grads[0].shape == [1]
  {
    var t := AddedTape(f, x, w, y, z);
    var K, s := Cpu(o), Start(g, 3, ());
    ResidentEnter(K, t, 1, s.active);
    assert Padded([1], 1) == [1] && Broadcasts([1], [2]);
    var gr := Reduced(g, [1]).value;
    assert ReducedFor(g, Some(y)) == Some(gr) && ReducedFor(g, Some(w)) == Some(g);
    AddStepRuns(o, t, 1, s, g, gr);
    var s1 := StepEntry(K, t, NoSink(), t.entries[1], s).s;
    ResidentEnter(K, t, 0, s1.active);
    ScaleStepRuns(o, t, 0, s1);
    var s0 := StepEntry(K, t, NoSink(), t.entries[0], s1).s;
    assert SweepDown(K, t, NoSink(), 0, 0, s0) == Running(s0);
    assert SweepDown(K, t, NoSink(), 1, 0, s1) == Running(s0);
  }

  /** The addition's segment has nothing to replay. */
  lemma FreedEntersAdd(K: Kernels, f: real, x: Tensor, w: Tensor, y: Tensor, z: Tensor)
    requires Freed(AddedTape(f, x, w, y, z)).tensors.Keys == {0, 1, 3}
    ensures var t := Freed(AddedTape(f, x, w, y, z)); Enter(K, t, t.entries[1], map[], None) == Ok((map[], false))
  {
    var t := Freed(AddedTape(f, x, w, y, z));
    assert ReplaySegment(K, t, 0, map[], 0) == Ok((map[], false));
    assert ReplaySegment(K, t, 0, map[], 1) == Ok((map[], false));
    assert ReplaySegment(K, t, 0, map[], 2) == Ok((map[], false));
  }

  /** The scaling's segment replays. */
  lemma FreedEntersScale(o: Kernels, f: real, x: Tensor, w: Tensor, y: Tensor, z: Tensor)
    requires o.Valid() && Freed(AddedTape(f, x, w, y, z)).tensors.Keys == {0, 1, 3}
    ensures var t := Freed(AddedTape(f, x, w, y, z)); Enter(Cpu(o), t, t.entries[0], map[], Some(0)).Ok?
  {
    var K, t := Cpu(o), Freed(AddedTape(f, x, w, y, z));
    var e0 := t.entries[0];
    ScaleReplays(o, t, e0);
    assert ReplaySegment(K, t, 1, map[], 0) == Ok((map[], false));
    assert ReplaySegment(K, t, 1, map[], 1).Ok?;
    assert ReplaySegment(K, t, 1, map[], 2) == ReplaySegment(K, t, 1, map[], 1) by { assert t.entries[1].segmentIdx == 0; }
    assert Evicted(t, 0, map[]) == map[];
  }

  lemma ScaleReplays(o: Kernels, t: TapeView, e: TapeEntry)
    requires o.Valid() && e.metadata.Scale? && |e.inputs| == 1 && e.inputs[0] in t.tensors
    ensures ReplayEntry(Cpu(o), t, e, map[]).Ok?
  {
    assert ResolveInputs(t, map[], e, 0) == Some([]);
    assert ResolveInput(t, map[], e, 0) == Some(t.tensors[e.inputs[0]]);
    assert ResolveInputs(t, map[], e, 1) == Some([] + [t.tensors[e.inputs[0]]]);
  }

  lemma FreedAddedRun(o: Kernels, f: real, x: Tensor, w: Tensor, y: Tensor, z: Tensor, g: Tensor)
    requires o.Valid() && OneOntoTwo(x, w, y, g)
    requires var t := Freed(AddedTape(f, x, w, y, z)); WellFormed(t) && t.tensors.Keys == {0, 1, 3}
    ensures var r := BackwardRun(Cpu(o), Freed(AddedTape(f, x, w, y, z)), NoSink(), g, 3, ());
            r.Running? && 0 in r.s.grads && r.s.grads[0].shape == [2]
  {
    var t := Freed(AddedTape(f, x, w, y, z));
    var K, s := Cpu(o), Start(g, 3, ());
    FreedEntersAdd(K, f, x, w, y, z);
    FreedEntersScale(o, f, x, w, y, z);
    assert t.tensors[1] == w && ReducedFor(g, Some(w)) == Some(g) && ReducedFor(g, None) == Some(g);
    AddStepRuns(o, t, 1, s, g, g);
    var s1 := StepEntry(K, t, NoSink(), t.entries[1], s).s;
    ScaleStepRuns(o, t, 0, s1);
    var s0 := StepEntry(K, t, NoSink(), t.entries[0], s1).s;
    assert SweepDown(K, t, NoSink(), 0, 0, s0) == Running(s0);
    assert SweepDown(K, t, NoSink(), 1, 0, s1) == Running(s0);
  }

  /** Main result, second tape: both sweeps succeed, and the leaf x, one value, is given one
      gradient value by the sweep over the full tape and two by the sweep over the freed tape. */
  lemma AddedTapeGoesWrong(o: Kernels, f: real, x: Tensor, w: Tensor, y: Tensor, z: Tensor, g: Tensor)
    requires o.Valid() && OneOntoTwo(x, w, y, g)
    ensures var t := AddedTape(f, x, w, y, z);
            && WellFormed(t) && Resident(t) && WellFormed(Freed(t)) && LostEdge(t, 0, 1, 1)
            && var full, freed := BackwardRun(Cpu(o), t, NoSink(), g, 3, ()), BackwardRun(Cpu(o), Freed(t), NoSink(), g, 3, ());
               && full.Running? && 0 in full.s.grads && full.s.grads[0].shape == x.shape
               && freed.Running? && 0 in freed.s.grads && freed.s.grads[0].shape == [2]
  {
    AddedShape(f, x, w, y, z);
    LostAfterFreeing(AddedTape(f, x, w, y, z), 0, 1, 1);
    FullAddedRun(o, f, x, w, y, z, g);
    FreedAddedRun(o, f, x, w, y, z, g);
  }
}
