/** The autograd tape: an append-only list of operations over registered tensors, split into
    checkpoint segments, with the retention pass that drops recomputable activations. */
module TapeModel {
  import opened Tensors

  type TensorId = nat

  datatype Metadata =
    | MatMul(transposeA: bool, transposeB: bool, m: nat, k: nat, n: nat)
    | Add
    | Scale(factor: real)
    | LoRAApply(alpha: real, rank: nat, a: ParamId, b: ParamId)
    | SiluMul
    | RmsNorm(eps: real, normWeight: Option<ParamId>)
    | Rope
    | Softmax
    | Embedding(tokenIds: seq<nat>, vocabSize: nat, hiddenDim: nat, tableWeight: Option<ParamId>)

  datatype TapeEntry = TapeEntry(
    inputs: seq<TensorId>,
    output: TensorId,
    paramId: Option<ParamId>,
    metadata: Metadata,
    segmentIdx: nat)

  /** The whole state of a tape, as a value. */
  datatype TapeView = TapeView(
    entries: seq<TapeEntry>,
    tensors: map<TensorId, Tensor>,
    paramTensors: map<ParamId, TensorId>,
    nextId: nat,
    checkpointSegs: nat,
    currentSegment: nat,
    boundaries: map<nat, TensorId>)

  function Arity(m: Metadata): (n: nat) {
    match m
    case MatMul(_, _, _, _, _) => 2
    case Add => 2
    case Scale(_) => 1
    case LoRAApply(_, _, _, _) => 4
    case SiluMul => 2
    case RmsNorm(_, _) => 2
    case Rope => 3
    case Softmax => 1
    case Embedding(_, _, _, _) => 1
  }

  /** Single assignment: an entry reads registered tensors and writes a tensor newer than all
      of them, and later entries write newer tensors. */
  ghost predicate WellFormed(t: TapeView) {
    && (forall i {:trigger t.entries[i]} :: 0 <= i < |t.entries| ==>
          |t.entries[i].inputs| == Arity(t.entries[i].metadata) && t.entries[i].output < t.nextId)
    && (forall i, k {:trigger t.entries[i].inputs[k]} :: 0 <= i < |t.entries| && 0 <= k < |t.entries[i].inputs| ==>
          t.entries[i].inputs[k] < t.entries[i].output)
    && (forall i, j {:trigger t.entries[i], t.entries[j]} :: 0 <= i < j < |t.entries| ==>
          t.entries[i].output < t.entries[j].output)
    && (forall id :: id in t.tensors ==> id < t.nextId)
  }

  /** Nothing has been freed. */
  ghost predicate Resident(t: TapeView) {
    forall id: TensorId :: id < t.nextId ==> id in t.tensors
  }

  /** Segments were entered in non-decreasing order. */
  ghost predicate MonotoneSegments(t: TapeView) {
    forall i, j {:trigger t.entries[i], t.entries[j]} :: 0 <= i < j < |t.entries| ==>
      t.entries[i].segmentIdx <= t.entries[j].segmentIdx
  }

  // ---------------------------------------------------------------- recording

  function Registered(t: TapeView, x: Tensor): TapeView {
    t.(tensors := t.tensors[t.nextId := x], nextId := t.nextId + 1)
  }

  function Recorded(t: TapeView, inputs: seq<TensorId>, out: Tensor, pid: Option<ParamId>, m: Metadata): TapeView {
    var r := Registered(t, out);
    r.(entries := r.entries + [TapeEntry(inputs, t.nextId, pid, m, t.currentSegment)])
  }

  /** Recording keeps single assignment and residency; it keeps segments monotone as long as
      the current segment is not behind one already used. */
  lemma RecordingKeepsInvariants(t: TapeView, inputs: seq<TensorId>, out: Tensor, pid: Option<ParamId>, m: Metadata)
    requires WellFormed(t)
    requires |inputs| == Arity(m) && forall k :: 0 <= k < |inputs| ==> inputs[k] < t.nextId
    ensures WellFormed(Recorded(t, inputs, out, pid, m))
    ensures Resident(t) ==> Resident(Recorded(t, inputs, out, pid, m))
    ensures MonotoneSegments(Recorded(t, inputs, out, pid, m)) <==>
            MonotoneSegments(t) && forall i :: 0 <= i < |t.entries| ==> t.entries[i].segmentIdx <= t.currentSegment
  {
    var r := Recorded(t, inputs, out, pid, m);
    var n := |t.entries|;
    assert forall i :: 0 <= i < n ==> r.entries[i] == t.entries[i];
    assert r.entries[n] == TapeEntry(inputs, t.nextId, pid, m, t.currentSegment);
    if MonotoneSegments(r) {
      forall i | 0 <= i < n ensures t.entries[i].segmentIdx <= t.currentSegment {
        assert r.entries[i].segmentIdx <= r.entries[n].segmentIdx;
      }
      forall i, j | 0 <= i < j < n ensures t.entries[i].segmentIdx <= t.entries[j].segmentIdx {
        assert r.entries[i].segmentIdx <= r.entries[j].segmentIdx;
      }
    }
  }

  // ---------------------------------------------------------------- retention

  /** The segment of the (last) entry that writes `id`. */
  function ProducerSegment(entries: seq<TapeEntry>, id: TensorId): Option<nat> {
    if entries == [] then None
    else
      var last := entries[|entries| - 1];
      if last.output == id then Some(last.segmentIdx)
      else ProducerSegment(entries[..|entries| - 1], id)
  }

  predicate KeepInput(entries: seq<TapeEntry>, e: TapeEntry, id: TensorId) {
    match ProducerSegment(entries, id)
    case Some(seg) => seg < e.segmentIdx
    case None => true
  }

  function KeptByInputs(entries: seq<TapeEntry>, e: TapeEntry, k: nat): set<TensorId>
    requires k <= |e.inputs|
  {
    if k == 0 then {}
    else KeptByInputs(entries, e, k - 1) +
         (if KeepInput(entries, e, e.inputs[k - 1]) then {e.inputs[k - 1]} else {})
  }

  function KeptByEntries(entries: seq<TapeEntry>, n: nat): set<TensorId>
    requires n <= |entries|
  {
    if n == 0 then {}
    else KeptByEntries(entries, n - 1) + KeptByInputs(entries, entries[n - 1], |entries[n - 1].inputs|)
  }

  function RetainSet(t: TapeView): set<TensorId> {
    t.boundaries.Values + t.paramTensors.Values + KeptByEntries(t.entries, |t.entries|)
  }

  function Freed(t: TapeView): TapeView {
    if t.checkpointSegs <= 1 then t
    else t.(tensors := map id | id in t.tensors && id in RetainSet(t) :: t.tensors[id])
  }

  lemma {:induction false} ProducerIs(entries: seq<TapeEntry>, i: nat)
    requires i < |entries|
    requires forall a, b {:trigger entries[a], entries[b]} :: 0 <= a < b < |entries| ==> entries[a].output < entries[b].output
    ensures ProducerSegment(entries, entries[i].output) == Some(entries[i].segmentIdx)
  {
    var n := |entries| - 1;
    if i < n {
      assert entries[..n][i] == entries[i];
      ProducerIs(entries[..n], i);
    }
  }

  lemma {:induction false} NoProducer(entries: seq<TapeEntry>, id: TensorId)
    requires forall i :: 0 <= i < |entries| ==> entries[i].output != id
    ensures ProducerSegment(entries, id) == None
  {
    if entries != [] { NoProducer(entries[..|entries| - 1], id); }
  }

  lemma {:induction false} KeptByInputsHas(entries: seq<TapeEntry>, e: TapeEntry, n: nat, k: nat)
    requires k < n <= |e.inputs| && KeepInput(entries, e, e.inputs[k])
    ensures e.inputs[k] in KeptByInputs(entries, e, n)
  {
    if k < n - 1 { KeptByInputsHas(entries, e, n - 1, k); }
  }

  lemma {:induction false} KeptByEntriesHas(entries: seq<TapeEntry>, n: nat, j: nat, k: nat)
    requires j < n <= |entries| && k < |entries[j].inputs| && KeepInput(entries, entries[j], entries[j].inputs[k])
    ensures entries[j].inputs[k] in KeptByEntries(entries, n)
  {
    if j < n - 1 {
      KeptByEntriesHas(entries, n - 1, j, k);
    } else {
      KeptByInputsHas(entries, entries[j], |entries[j].inputs|, k);
    }
  }

  // ---------------------------------------------------------------- what freeing keeps and drops

  /** Entry `i` is the last to write `id`. */
  ghost predicate LastWriter(entries: seq<TapeEntry>, i: nat, id: TensorId) {
    i < |entries| && entries[i].output == id && forall j :: i < j < |entries| ==> entries[j].output != id
  }

  lemma {:induction false} ProducerIsLastWriter(entries: seq<TapeEntry>, id: TensorId)
    ensures var p := ProducerSegment(entries, id);
            && (p.None? ==> forall i :: 0 <= i < |entries| ==> entries[i].output != id)
            && (p.Some? ==> exists i: nat :: LastWriter(entries, i, id) && entries[i].segmentIdx == p.value)
  {
    if entries != [] {
      var n := |entries| - 1;
      if entries[n].output == id {
        assert LastWriter(entries, n, id);
      } else {
        ProducerIsLastWriter(entries[..n], id);
        if i: nat :| LastWriter(entries[..n], i, id) && Some(entries[..n][i].segmentIdx) == ProducerSegment(entries[..n], id) {
          assert entries[..n][i] == entries[i] && forall j :: i < j < n ==> entries[..n][j] == entries[j];
          assert LastWriter(entries, i, id);
        } else {
          assert forall i :: 0 <= i < n ==> entries[..n][i] == entries[i];
        }
      }
    }
  }

  lemma {:induction false} KeptByInputsFrom(entries: seq<TapeEntry>, e: TapeEntry, n: nat, id: TensorId) returns (k: nat)
    requires n <= |e.inputs| && id in KeptByInputs(entries, e, n)
    ensures k < n && e.inputs[k] == id && KeepInput(entries, e, id)
  {
    if id in KeptByInputs(entries, e, n - 1) { k := KeptByInputsFrom(entries, e, n - 1, id); } else { k := n - 1; }
  }

  lemma {:induction false} KeptByEntriesFrom(entries: seq<TapeEntry>, n: nat, id: TensorId) returns (j: nat, k: nat)
    requires n <= |entries| && id in KeptByEntries(entries, n)
    ensures j < n && k < |entries[j].inputs| && entries[j].inputs[k] == id && KeepInput(entries, entries[j], id)
  {
    if id in KeptByEntries(entries, n - 1) {
      j, k := KeptByEntriesFrom(entries, n - 1, id);
    } else {
      j := n - 1;
      k := KeptByInputsFrom(entries, entries[j], |entries[j].inputs|, id);
    }
  }

  /** Entry `j` reads `id` as input `k`. */
  predicate ReadAt(t: TapeView, j: nat, k: nat, id: TensorId) {
    j < |t.entries| && k < |t.entries[j].inputs| && t.entries[j].inputs[k] == id
  }

  /** Some entry reads `id`, which no entry writes. */
  ghost predicate ReadUnproduced(t: TapeView, id: TensorId) {
    && (exists j: nat, k: nat :: ReadAt(t, j, k, id))
    && forall i :: 0 <= i < |t.entries| ==> t.entries[i].output != id
  }

  /** Some entry reads `id` in a strictly later segment than the one that wrote it (last). */
  ghost predicate ReadLater(t: TapeView, id: TensorId) {
    exists i: nat, j: nat, k: nat {:trigger LastWriter(t.entries, i, id), ReadAt(t, j, k, id)} ::
      LastWriter(t.entries, i, id) && ReadAt(t, j, k, id) && t.entries[i].segmentIdx < t.entries[j].segmentIdx
  }

  lemma ReadKeeps(t: TapeView, id: TensorId)
    ensures id in KeptByEntries(t.entries, |t.entries|) <==> ReadUnproduced(t, id) || ReadLater(t, id)
  {
    ProducerIsLastWriter(t.entries, id);
    if id in KeptByEntries(t.entries, |t.entries|) {
      var j, k := KeptByEntriesFrom(t.entries, |t.entries|, id);
      assert ReadAt(t, j, k, id);
    }
    if ReadUnproduced(t, id) {
      var j: nat, k: nat :| ReadAt(t, j, k, id);
      KeptByEntriesHas(t.entries, |t.entries|, j, k);
    }
    if ReadLater(t, id) {
      var i: nat, j: nat, k: nat :| LastWriter(t.entries, i, id) && ReadAt(t, j, k, id) && t.entries[i].segmentIdx < t.entries[j].segmentIdx;
      OneLastWriter(t.entries, id, i);
      KeptByEntriesHas(t.entries, |t.entries|, j, k);
    }
  }

  lemma OneLastWriter(entries: seq<TapeEntry>, id: TensorId, i: nat)
    requires LastWriter(entries, i, id)
    ensures ProducerSegment(entries, id) == Some(entries[i].segmentIdx)
  {
    ProducerIsLastWriter(entries, id);
    var j: nat :| LastWriter(entries, j, id) && Some(entries[j].segmentIdx) == ProducerSegment(entries, id);
    assert i == j;
  }

  /** Main result, on every tape. With more than one segment a resident tensor survives freeing if
      and only if it is a boundary, is registered for a parameter, is read without ever being
      written, or is read in a later segment than the one that wrote it; survivors keep their
      values. With at most one segment nothing is dropped. */
  lemma SurvivesIff(t: TapeView, id: TensorId)
    ensures t.checkpointSegs <= 1 ==> Freed(t) == t
    ensures t.checkpointSegs > 1 ==>
              (id in Freed(t).tensors <==>
               id in t.tensors &&
               ((exists seg :: seg in t.boundaries && t.boundaries[seg] == id) || (exists p :: p in t.paramTensors && t.paramTensors[p] == id) ||
                ReadUnproduced(t, id) || ReadLater(t, id)))
    ensures id in Freed(t).tensors ==> id in t.tensors && Freed(t).tensors[id] == t.tensors[id]
    ensures Freed(t) == t.(tensors := Freed(t).tensors)
  {
    ReadKeeps(t, id);
  }

  /** Entry `j` reads, as input `k`, what entry `i` of a later segment produced. */
  predicate ForwardEdge(t: TapeView, i: nat, j: nat, k: nat) {
    && i < |t.entries| && j < |t.entries| && k < |t.entries[j].inputs|
    && t.entries[j].inputs[k] == t.entries[i].output && t.entries[j].segmentIdx < t.entries[i].segmentIdx
  }

  /** No entry reads a tensor produced in a later segment. */
  ghost predicate NoForwardEdges(t: TapeView) {
    forall i: nat, j: nat, k: nat {:trigger ForwardEdge(t, i, j, k)} :: !ForwardEdge(t, i, j, k)
  }

  /** Freeing drops what entry `j` reads from the later segment of entry `i`. */
  predicate LostEdge(t: TapeView, i: nat, j: nat, k: nat) {
    t.checkpointSegs > 1 && ForwardEdge(t, i, j, k) && t.entries[i].output !in RetainSet(t)
  }

  /** Whatever an entry reads from a later segment survives freeing. This is all that replay needs. */
  ghost predicate NoLostEdges(t: TapeView) {
    forall i: nat, j: nat, k: nat {:trigger LostEdge(t, i, j, k)} :: !LostEdge(t, i, j, k)
  }

  lemma MonotoneHasNoForwardEdges(t: TapeView)
    requires WellFormed(t) && MonotoneSegments(t)
    ensures NoForwardEdges(t) && NoLostEdges(t)
  {
    forall i: nat, j: nat, k: nat ensures !ForwardEdge(t, i, j, k) && !LostEdge(t, i, j, k) {
      ForwardEdgeStepsBack(t, i, j, k);
    }
  }

  lemma ForwardEdgeStepsBack(t: TapeView, i: nat, j: nat, k: nat)
    requires WellFormed(t)
    ensures ForwardEdge(t, i, j, k) ==> i < j && t.entries[j].segmentIdx < t.entries[i].segmentIdx
  {
  }

  /** What replay relies on: after freeing, an input is still resident unless its producer
      lies in the reader's own segment. */
  lemma FreedKeepsCrossSegmentInputs(t: TapeView, j: nat, k: nat)
    requires WellFormed(t) && Resident(t) && NoLostEdges(t)
    requires j < |t.entries| && k < |t.entries[j].inputs|
    ensures t.entries[j].inputs[k] in Freed(t).tensors ||
            exists i :: 0 <= i < j && t.entries[i].output == t.entries[j].inputs[k] &&
                        t.entries[i].segmentIdx == t.entries[j].segmentIdx
  {
    var id := t.entries[j].inputs[k];
    assert id < t.entries[j].output < t.nextId;
    if i: nat :| i < |t.entries| && t.entries[i].output == id {
      ProducerIs(t.entries, i);
      if t.entries[i].segmentIdx < t.entries[j].segmentIdx {
        KeptByEntriesHas(t.entries, |t.entries|, j, k);
      } else if t.entries[i].segmentIdx > t.entries[j].segmentIdx {
        assert !LostEdge(t, i, j, k);
        assert t.checkpointSegs <= 1 || id in RetainSet(t);
      } else {
        assert i < j;
      }
    } else {
      NoProducer(t.entries, id);
      KeptByEntriesHas(t.entries, |t.entries|, j, k);
    }
  }

  class Tape {
    var entries: seq<TapeEntry>
    var tensors: map<TensorId, Tensor>
    var paramTensors: map<ParamId, TensorId>
    var nextId: nat
    var checkpointSegs: nat
    var currentSegment: nat
    var boundaries: map<nat, TensorId>

    ghost function View(): TapeView
      reads this
    {
      TapeView(entries, tensors, paramTensors, nextId, checkpointSegs, currentSegment, boundaries)
    }

    constructor ()
      ensures View() == TapeView([], map[], map[], 0, 0, 0, map[])
    {
      entries, tensors, paramTensors, nextId := [], map[], map[], 0;
      checkpointSegs, currentSegment, boundaries := 0, 0, map[];
    }

    method SetCheckpointSegs(segs: nat)
      modifies this
      ensures View() == old(View()).(checkpointSegs := segs)
    {
      checkpointSegs := segs;
    }

    method MarkSegmentBoundary(segmentIdx: nat, inputId: TensorId)
      modifies this
      ensures View() == old(View()).(currentSegment := segmentIdx, boundaries := old(boundaries)[segmentIdx := inputId])
    {
      currentSegment := segmentIdx;
      boundaries := boundaries[segmentIdx := inputId];
    }

    method Register(t: Tensor) returns (id: TensorId)
      modifies this
      ensures View() == Registered(old(View()), t) && id == old(nextId)
    {
      id := nextId;
      nextId := nextId + 1;
      tensors := tensors[id := t];
    }

    method RegisterParam(p: ParamId, t: Tensor) returns (id: TensorId)
      modifies this
      ensures id == old(nextId)
      ensures View() == Registered(old(View()), t).(paramTensors := old(paramTensors)[p := id])
    {
      id := Register(t);
      paramTensors := paramTensors[p := id];
    }

    /** The common body of the `record_*` methods. */
    method Record(inputs: seq<TensorId>, output: Tensor, pid: Option<ParamId>, metadata: Metadata) returns (id: TensorId)
      requires WellFormed(View())
      requires |inputs| == Arity(metadata) && forall k :: 0 <= k < |inputs| ==> inputs[k] < nextId
      modifies this
      ensures View() == Recorded(old(View()), inputs, output, pid, metadata) && id == old(nextId)
      ensures WellFormed(View()) && (old(Resident(View())) ==> Resident(View()))
    {
      RecordingKeepsInvariants(View(), inputs, output, pid, metadata);
      id := Register(output);
      entries := entries + [TapeEntry(inputs, id, pid, metadata, currentSegment)];
    }

    method FreeIntermediateActivations()
      modifies this
      ensures View() == Freed(old(View()))
    {
      if checkpointSegs <= 1 { return; }
      var retain := boundaries.Values + paramTensors.Values;
      var producer: map<TensorId, nat> := map[];
      for i := 0 to |entries|
        invariant forall id :: if id in producer then ProducerSegment(entries[..i], id) == Some(producer[id])
                                                 else ProducerSegment(entries[..i], id) == None
      {
        producer := producer[entries[i].output := entries[i].segmentIdx];
        assert entries[..i + 1][..i] == entries[..i];
      }
      assert entries[..|entries|] == entries;
      ghost var base := retain;
      for i := 0 to |entries|
        invariant retain == base + KeptByEntries(entries, i)
      {
        var e := entries[i];
        for k := 0 to |e.inputs|
          invariant retain == base + KeptByEntries(entries, i) + KeptByInputs(entries, e, k)
        {
          var inp := e.inputs[k];
          if inp in producer {
            if producer[inp] < e.segmentIdx { retain := retain + {inp}; }
          } else {
            retain := retain + {inp};
          }
        }
      }
      tensors := map id | id in tensors && id in retain :: tensors[id];
    }

    /** Empties the tape. The current segment and the segment count survive. */
    method Clear()
      modifies this
      ensures View() == TapeView([], map[], map[], 0, old(checkpointSegs), old(currentSegment), map[])
    {
      entries, tensors, paramTensors, boundaries, nextId := [], map[], map[], map[], 0;
    }
  }
}
