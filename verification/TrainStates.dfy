/** Saving an optimizer and its parameters into named blobs, and loading them back. */
module TrainStates {
  import opened Tensors
  import opened AdamWRuns
  import opened OptimizerLoops
  import opened SlotNames

  // ---------------------------------------------------------------- buffers as bytes

  type Byte = x: int | 0 <= x < 256

  datatype Format = Fp32 | Bf16 | Fp16

  /** How one value of a format is written and read. */
  datatype Wire = Wire(width: nat, put: real -> seq<Byte>, take: seq<Byte> -> real)

  ghost predicate WireOk(w: Wire) {
    w.width > 0 && forall x {:trigger w.put(x)} :: |w.put(x)| == w.width
  }

  function EncodeBuffer(w: Wire, xs: seq<real>): seq<Byte> {
    if xs == [] then [] else EncodeBuffer(w, xs[..|xs| - 1]) + w.put(xs[|xs| - 1])
  }

  function Chunks(w: Wire, bytes: seq<Byte>): seq<real>
    requires w.width > 0
    decreases |bytes|
  {
    if |bytes| < w.width then []
    else Chunks(w, bytes[..|bytes| - w.width]) + [w.take(bytes[|bytes| - w.width..])]
  }

  /** A byte count that is not a multiple of the width is an error. */
  function DecodeBuffer(w: Wire, bytes: seq<Byte>): Option<seq<real>>
    requires w.width > 0
  {
    if |bytes| % w.width != 0 then None else Some(Chunks(w, bytes))
  }

  /** The format holds these values without loss. */
  ghost predicate Exact(w: Wire, xs: seq<real>) {
    forall i {:trigger xs[i]} :: 0 <= i < |xs| ==> w.take(w.put(xs[i])) == xs[i]
  }

  lemma OneMoreWord(a: nat, w: nat)
    requires w > 0 && a % w == 0
    ensures (a + w) % w == 0
  {
    var q, r := (a + w) / w, (a + w) % w;
    DistributeWidth(a / w + 1, q, w);
    NoMultipleBetween(a / w + 1 - q, w);
  }

  lemma DistributeWidth(p: int, q: int, w: int)
    ensures (p - q) * w == (p - 1) * w + w - q * w
  {
  }

  lemma NoMultipleBetween(d: int, w: nat)
    requires 0 <= d * w < w
    ensures d == 0 && d * w == 0
  {
  }

  lemma {:induction false} BufferRoundTrip(w: Wire, xs: seq<real>)
    requires WireOk(w) && Exact(w, xs)
    ensures DecodeBuffer(w, EncodeBuffer(w, xs)) == Some(xs)
  {
    if xs == [] {
      assert EncodeBuffer(w, xs) == [] && 0 % w.width == 0;
    } else {
      var rest, x := xs[..|xs| - 1], xs[|xs| - 1];
      BufferRoundTrip(w, rest);
      var bytes := EncodeBuffer(w, rest);
      OneMoreWord(|bytes|, w.width);
      assert (bytes + w.put(x))[..|bytes|] == bytes && (bytes + w.put(x))[|bytes|..] == w.put(x);
      assert rest + [x] == xs;
    }
  }

  // ---------------------------------------------------------------- saving

  datatype Blob = Blob(shape: seq<nat>, data: seq<Byte>)

  datatype TrainState = TrainState(step: nat, fpFormat: Format, dtypes: map<string, Format>, blobs: map<string, Blob>)

  /** The wire of each format, and the format of each parameter's dtype. */
  datatype Codec = Codec(wires: Format -> Wire, format: ParamId -> Format)

  type Buffers = map<ParamId, seq<real>>

  ghost predicate CodecOk(k: Codec) {
    forall f {:trigger k.wires(f)} :: WireOk(k.wires(f))
  }

  function WithBlob(st: TrainState, key: string, b: Blob): TrainState {
    st.(blobs := st.blobs[key := b])
  }

  function SaveWeight(k: Codec, st: TrainState, id: ParamId, d: Tensor): TrainState {
    var f := k.format(id);
    WithBlob(st.(dtypes := st.dtypes[WeightSlot(id) := f], fpFormat := if f.Fp32? then st.fpFormat else f),
             WeightSlot(id), Blob(d.shape, EncodeBuffer(k.wires(f), d.data)))
  }

  function SaveMoment(k: Codec, st: TrainState, key: string, x: Buffers, id: ParamId, d: Tensor): TrainState {
    if id in x then WithBlob(st, key, Blob(d.shape, EncodeBuffer(k.wires(Fp32), x[id]))) else st
  }

  function SaveOne(k: Codec, m: Buffers, v: Buffers, params: Params, st: TrainState, id: ParamId): TrainState
    requires id in params
  {
    var d := params[id].data;
    SaveMoment(k, SaveMoment(k, SaveWeight(k, st, id, d), MSlot(id), m, id, d), VSlot(id), v, id, d)
  }

  predicate AllRegistered(order: seq<ParamId>, params: Params) {
    forall i :: 0 <= i < |order| ==> order[i] in params
  }

  /** The state after the first `n` parameters of an order are saved. */
  function SaveAll(k: Codec, step: nat, m: Buffers, v: Buffers, params: Params, order: seq<ParamId>, n: nat): TrainState
    requires n <= |order| && AllRegistered(order, params)
  {
    if n == 0 then TrainState(step, Fp32, map[], map[])
    else SaveOne(k, m, v, params, SaveAll(k, step, m, v, params, order, n - 1), order[n - 1])
  }

  /** Whose moment the moment slot of `id` holds: the one saved last of `id` and its twin. */
  function Writer(x: Buffers, order: seq<ParamId>, n: nat, id: ParamId): (w: Option<ParamId>)
    requires n <= |order|
    ensures w.Some? ==> w.value in x && (w.value == id || w.value == Twin(id))
  {
    if n == 0 then None
    else if order[n - 1] in x && (order[n - 1] == id || order[n - 1] == Twin(id)) then Some(order[n - 1])
    else Writer(x, order, n - 1, id)
  }

  ghost predicate WeightSaved(k: Codec, st: TrainState, id: ParamId, d: Tensor) {
    && WeightSlot(id) in st.blobs && WeightSlot(id) in st.dtypes
    && st.dtypes[WeightSlot(id)] == k.format(id)
    && st.blobs[WeightSlot(id)].data == EncodeBuffer(k.wires(k.format(id)), d.data)
  }

  ghost predicate MomentSaved(k: Codec, st: TrainState, key: string, x: Buffers, w: Option<ParamId>) {
    if w.None? then key !in st.blobs
    else w.value in x && key in st.blobs && st.blobs[key].data == EncodeBuffer(k.wires(Fp32), x[w.value])
  }

  /** What one save does to the slots of `id`. */
  lemma SaveOneSlots(k: Codec, m: Buffers, v: Buffers, params: Params, st: TrainState, at: ParamId, id: ParamId, wm: Option<ParamId>, wv: Option<ParamId>)
    requires at in params && id in params
    requires MomentSaved(k, st, MSlot(id), m, wm) && MomentSaved(k, st, VSlot(id), v, wv)
    ensures var r := SaveOne(k, m, v, params, st, at);
            && (at == id || WeightSaved(k, st, id, params[id].data) ==> WeightSaved(k, r, id, params[id].data))
            && MomentSaved(k, r, MSlot(id), m, if at in m && (at == id || at == Twin(id)) then Some(at) else wm)
            && MomentSaved(k, r, VSlot(id), v, if at in v && (at == id || at == Twin(id)) then Some(at) else wv)
  {
    WeightSlotInjective(at, id);
    MomentSlotShared(at, id);
    SlotKindsDisjoint(at, id);
    SlotKindsDisjoint(id, at);
    var d := params[at].data;
    var a := SaveWeight(k, st, at, d);
    var b := SaveMoment(k, a, MSlot(at), m, at, d);
    assert MomentSaved(k, b, MSlot(id), m, if at in m && (at == id || at == Twin(id)) then Some(at) else wm);
    assert MomentSaved(k, b, VSlot(id), v, wv);
  }

  /** The slots of `id` after `n` parameters of an order are saved. */
  ghost predicate SlotsSaved(k: Codec, st: TrainState, m: Buffers, v: Buffers, params: Params, order: seq<ParamId>, n: nat, id: ParamId)
    requires n <= |order| && id in params
  {
    && (id in Visited(order, n) ==> WeightSaved(k, st, id, params[id].data))
    && MomentSaved(k, st, MSlot(id), m, Writer(m, order, n, id))
    && MomentSaved(k, st, VSlot(id), v, Writer(v, order, n, id))
  }

  lemma OneMoreSaved(k: Codec, m: Buffers, v: Buffers, params: Params, st: TrainState, order: seq<ParamId>, n: nat, id: ParamId)
    requires 0 < n <= |order| && id in params && order[n - 1] in params && SlotsSaved(k, st, m, v, params, order, n - 1, id)
    ensures SlotsSaved(k, SaveOne(k, m, v, params, st, order[n - 1]), m, v, params, order, n, id)
  {
    SaveOneSlots(k, m, v, params, st, order[n - 1], id, Writer(m, order, n - 1, id), Writer(v, order, n - 1, id));
  }

  lemma {:induction false} SavedSlots(k: Codec, step: nat, m: Buffers, v: Buffers, params: Params, order: seq<ParamId>, n: nat, id: ParamId)
    requires n <= |order| && id in params && AllRegistered(order, params)
    ensures SlotsSaved(k, SaveAll(k, step, m, v, params, order, n), m, v, params, order, n, id)
  {
    if n > 0 {
      SavedSlots(k, step, m, v, params, order, n - 1, id);
      OneMoreSaved(k, m, v, params, SaveAll(k, step, m, v, params, order, n - 1), order, n, id);
    }
  }

  function Visited(order: seq<ParamId>, n: nat): set<ParamId>
    requires n <= |order|
  {
    if n == 0 then {} else Visited(order, n - 1) + {order[n - 1]}
  }

  lemma {:induction false} VisitedAll(order: seq<ParamId>, n: nat, id: ParamId)
    requires n <= |order|
    ensures id in Visited(order, n) <==> id in order[..n]
  {
    if n > 0 {
      VisitedAll(order, n - 1, id);
      assert order[..n] == order[..n - 1] + [order[n - 1]];
    }
  }

  // ---------------------------------------------------------------- loading

  /** What reading a slot yields: nothing there, an error, or values of the right number. */
  datatype Read = Absent | Bad | Values(xs: seq<real>)

  function ReadBlob(st: TrainState, key: string, w: Wire, n: nat): Read
    requires w.width > 0
  {
    if key !in st.blobs then Absent
    else
      match DecodeBuffer(w, st.blobs[key].data)
      case None => Bad
      case Some(xs) => if |xs| == n then Values(xs) else Bad
  }

  datatype Loading = Loading(params: Params, m: Buffers, v: Buffers, ok: bool)

  function FormatOf(st: TrainState, key: string): Format {
    if key in st.dtypes then st.dtypes[key] else st.fpFormat
  }

  /** An error stops the load where it is; what was restored before stays. */
  function LoadOne(k: Codec, st: TrainState, s: Loading, id: ParamId): Loading
    requires CodecOk(k)
  {
    if !s.ok || id !in s.params then s
    else
      var n := |s.params[id].data.data|;
      var weight := ReadBlob(st, WeightSlot(id), k.wires(FormatOf(st, WeightSlot(id))), n);
      if weight.Bad? then s.(ok := false)
      else
        WithMoments(if weight.Values? then s.(params := s.params[id := WithData(s.params[id], weight.xs)]) else s, id,
                    ReadBlob(st, MSlot(id), k.wires(Fp32), n), ReadBlob(st, VSlot(id), k.wires(Fp32), n))
  }

  /** The moments that were read, the first before the second. */
  function WithMoments(s: Loading, id: ParamId, m: Read, v: Read): (r: Loading)
    ensures r.params == s.params
  {
    if m.Bad? then s.(ok := false)
    else
      var s' := if m.Values? then s.(m := s.m[id := m.xs]) else s;
      if v.Bad? then s'.(ok := false)
      else if v.Values? then s'.(v := s'.v[id := v.xs]) else s'
  }

  function LoadAll(k: Codec, st: TrainState, s: Loading, order: seq<ParamId>, n: nat): Loading
    requires CodecOk(k) && n <= |order|
  {
    if n == 0 then s else LoadOne(k, st, LoadAll(k, st, s, order, n - 1), order[n - 1])
  }

  /** Everything saved is representable in its format. */
  ghost predicate Representable(k: Codec, m: Buffers, v: Buffers, params: Params) {
    && (forall id {:trigger params[id]} :: id in params ==> Exact(k.wires(k.format(id)), params[id].data.data))
    && (forall id {:trigger m[id]} :: id in m ==> Exact(k.wires(Fp32), m[id]))
    && (forall id {:trigger v[id]} :: id in v ==> Exact(k.wires(Fp32), v[id]))
  }

  function ReadOf(x: Buffers, w: Option<ParamId>, n: nat): Read
    requires w.Some? ==> w.value in x
  {
    match w
    case None => Absent
    case Some(o) => if |x[o]| == n then Values(x[o]) else Bad
  }

  lemma ReadsMoment(k: Codec, st: TrainState, key: string, x: Buffers, w: Option<ParamId>, n: nat)
    requires CodecOk(k) && MomentSaved(k, st, key, x, w) && forall id {:trigger x[id]} :: id in x ==> Exact(k.wires(Fp32), x[id])
    ensures ReadBlob(st, key, k.wires(Fp32), n) == ReadOf(x, w, n)
  {
    if w.Some? { BufferRoundTrip(k.wires(Fp32), x[w.value]); }
  }

  lemma ReadsWeight(k: Codec, st: TrainState, id: ParamId, d: Tensor)
    requires CodecOk(k) && WeightSaved(k, st, id, d) && Exact(k.wires(k.format(id)), d.data)
    ensures ReadBlob(st, WeightSlot(id), k.wires(FormatOf(st, WeightSlot(id))), |d.data|) == Values(d.data)
  {
    BufferRoundTrip(k.wires(k.format(id)), d.data);
  }

  /** The registry `live` has the parameters of `params`, at their sizes; its values do not matter. */
  ghost predicate SameSizes(params: Params, live: Params) {
    params.Keys == live.Keys && forall id {:trigger live[id]} :: id in params ==> |live[id].data.data| == |params[id].data.data|
  }

  /** The saved moment that will be read for `id`, if any, has the size of `id`. */
  ghost predicate SlotFits(x: Buffers, order: seq<ParamId>, params: Params, id: ParamId)
    requires id in params
  {
    var w := Writer(x, order, |order|, id);
    w.Some? ==> |x[w.value]| == |params[id].data.data|
  }

  function Restored(x: Buffers, w: Option<ParamId>, live: Buffers, id: ParamId): Buffers
    requires w.Some? ==> w.value in x
  {
    if w.Some? then live[id := x[w.value]] else live
  }

  /** A state that holds what saving `order` leaves. */
  ghost predicate Holds(k: Codec, st: TrainState, m: Buffers, v: Buffers, params: Params, order: seq<ParamId>) {
    forall id {:trigger WeightSlot(id)} :: id in params ==>
      && WeightSaved(k, st, id, params[id].data)
      && MomentSaved(k, st, MSlot(id), m, Writer(m, order, |order|, id))
      && MomentSaved(k, st, VSlot(id), v, Writer(v, order, |order|, id))
  }

  /** Loading one parameter from such a state. */
  lemma LoadOneIs(k: Codec, st: TrainState, m: Buffers, v: Buffers, params: Params, order: seq<ParamId>, s: Loading, id: ParamId)
    requires CodecOk(k) && Holds(k, st, m, v, params, order) && Representable(k, m, v, params)
    requires s.ok && id in params && SameSizes(params, s.params)
    ensures var r := LoadOne(k, st, s, id);
            && (r.ok <==> SlotFits(m, order, params, id) && SlotFits(v, order, params, id))
            && (r.ok ==> r == Loading(s.params[id := WithData(s.params[id], params[id].data.data)],
                                      Restored(m, Writer(m, order, |order|, id), s.m, id),
                                      Restored(v, Writer(v, order, |order|, id), s.v, id), true))
  {
    var n := |params[id].data.data|;
    assert |s.params[id].data.data| == n;
    assert WeightSaved(k, st, id, params[id].data);
    ReadsWeight(k, st, id, params[id].data);
    ReadsMoment(k, st, MSlot(id), m, Writer(m, order, |order|, id), n);
    ReadsMoment(k, st, VSlot(id), v, Writer(v, order, |order|, id), n);
  }

  /** After `n` parameters of a load: what is restored so far. */
  ghost predicate RestoredSoFar(m: Buffers, v: Buffers, params: Params, order: seq<ParamId>, start: Loading, done: set<ParamId>, r: Loading) {
    && SameSizes(params, r.params)
    && forall id {:trigger RestoredAt(m, v, params, order, start, done, r, id)} :: id in params ==> RestoredAt(m, v, params, order, start, done, r, id)
  }

  ghost predicate RestoredAt(m: Buffers, v: Buffers, params: Params, order: seq<ParamId>, start: Loading, done: set<ParamId>, r: Loading, id: ParamId)
    requires params.Keys == r.params.Keys && id in params
  {
    && (id in done ==> r.params[id].data.data == params[id].data.data)
    && MomentAt(m, Writer(m, order, |order|, id), start.m, id in done, r.m, id)
    && MomentAt(v, Writer(v, order, |order|, id), start.v, id in done, r.v, id)
  }

  /** The moment of `id` is its writer's if there is one and `id` is done, and as before otherwise. */
  ghost predicate MomentAt(x: Buffers, w: Option<ParamId>, was: Buffers, done: bool, now: Buffers, id: ParamId)
    requires w.Some? ==> w.value in x
  {
    if done && w.Some? then id in now && now[id] == x[w.value]
    else (id in now <==> id in was) && (id in now ==> now[id] == was[id])
  }

  ghost predicate AllFit(m: Buffers, v: Buffers, params: Params, order: seq<ParamId>, done: set<ParamId>) {
    forall id {:trigger id in done} :: id in done && id in params ==> SlotFits(m, order, params, id) && SlotFits(v, order, params, id)
  }

  lemma OneMoreRestored(k: Codec, st: TrainState, m: Buffers, v: Buffers, params: Params, order: seq<ParamId>, start: Loading, done: set<ParamId>, s: Loading, id: ParamId)
    requires CodecOk(k) && Holds(k, st, m, v, params, order) && Representable(k, m, v, params)
    requires s.ok && id in params && RestoredSoFar(m, v, params, order, start, done, s)
    ensures var r := LoadOne(k, st, s, id);
            && (r.ok <==> SlotFits(m, order, params, id) && SlotFits(v, order, params, id))
            && (r.ok ==> RestoredSoFar(m, v, params, order, start, done + {id}, r))
  {
    LoadOneIs(k, st, m, v, params, order, s, id);
    var r := LoadOne(k, st, s, id);
    if r.ok {
      forall o | o in params ensures RestoredAt(m, v, params, order, start, done + {id}, r, o) {
        assert RestoredAt(m, v, params, order, start, done, s, o);
      }
    }
  }

  /** Where a load over `done` stands. */
  ghost predicate Progress(m: Buffers, v: Buffers, params: Params, order: seq<ParamId>, start: Loading, done: set<ParamId>, r: Loading) {
    && (r.ok <==> AllFit(m, v, params, order, done))
    && (r.ok ==> RestoredSoFar(m, v, params, order, start, done, r))
  }

  lemma OneMoreProgress(k: Codec, st: TrainState, m: Buffers, v: Buffers, params: Params, order: seq<ParamId>, start: Loading, done: set<ParamId>, s: Loading, id: ParamId)
    requires CodecOk(k) && Holds(k, st, m, v, params, order) && Representable(k, m, v, params)
    requires id in params && Progress(m, v, params, order, start, done, s)
    ensures Progress(m, v, params, order, start, done + {id}, LoadOne(k, st, s, id))
  {
    if s.ok { OneMoreRestored(k, st, m, v, params, order, start, done, s, id); }
    MoreFit(m, v, params, order, done, id);
  }

  lemma MoreFit(m: Buffers, v: Buffers, params: Params, order: seq<ParamId>, done: set<ParamId>, id: ParamId)
    requires id in params
    ensures AllFit(m, v, params, order, done + {id}) <==>
            AllFit(m, v, params, order, done) && SlotFits(m, order, params, id) && SlotFits(v, order, params, id)
  {
    assert id in done + {id};
    if AllFit(m, v, params, order, done + {id}) {
      forall o | o in done && o in params ensures SlotFits(m, order, params, o) && SlotFits(v, order, params, o) {
        assert o in done + {id};
      }
    }
  }

  lemma {:induction false} LoadRestores(k: Codec, st: TrainState, m: Buffers, v: Buffers, params: Params, order: seq<ParamId>, start: Loading, visits: seq<ParamId>, n: nat)
    requires CodecOk(k) && Holds(k, st, m, v, params, order) && Representable(k, m, v, params)
    requires start.ok && SameSizes(params, start.params) && n <= |visits| && AllRegistered(visits, params)
    ensures Progress(m, v, params, order, start, Visited(visits, n), LoadAll(k, st, start, visits, n))
  {
    if n == 0 {
      StartsOut(m, v, params, order, start);
    } else {
      LoadRestores(k, st, m, v, params, order, start, visits, n - 1);
      OneMoreProgress(k, st, m, v, params, order, start, Visited(visits, n - 1), LoadAll(k, st, start, visits, n - 1), visits[n - 1]);
    }
  }

  lemma StartsOut(m: Buffers, v: Buffers, params: Params, order: seq<ParamId>, start: Loading)
    requires start.ok && SameSizes(params, start.params)
    ensures Progress(m, v, params, order, start, {}, start)
  {
    forall id | id in params ensures RestoredAt(m, v, params, order, start, {}, start, id) {
    }
  }

  // ---------------------------------------------------------------- main results

  /** An order that visits every registered parameter, and nothing else. */
  ghost predicate Visits(order: seq<ParamId>, params: Params) {
    forall id {:trigger id in order} :: id in order <==> id in params
  }

  function Reload(k: Codec, step: nat, m: Buffers, v: Buffers, params: Params, saves: seq<ParamId>, start: Loading, loads: seq<ParamId>): Loading
    requires CodecOk(k) && Visits(saves, params)
  {
    InRegistry(saves, params);
    LoadAll(k, SaveAll(k, step, m, v, params, saves, |saves|), start, loads, |loads|)
  }

  lemma InRegistry(order: seq<ParamId>, params: Params)
    requires Visits(order, params)
    ensures AllRegistered(order, params)
  {
    forall i | 0 <= i < |order| ensures order[i] in params {
      assert order[i] in order;
    }
  }

  /** Main theorem. Save in any order, then load in any order over a registry of the same sizes. The
      load succeeds exactly when every moment slot holds a moment of the size of each parameter that
      reads it. Then every parameter's data is restored, and a parameter's moment is the one saved
      last under its slot, its own or its twin's. */
  lemma LoadAfterSave(k: Codec, step: nat, m: Buffers, v: Buffers, params: Params, saves: seq<ParamId>, start: Loading, loads: seq<ParamId>)
    requires CodecOk(k) && Representable(k, m, v, params) && Visits(saves, params) && Visits(loads, params)
    requires start.ok && SameSizes(params, start.params)
    ensures var r := Reload(k, step, m, v, params, saves, start, loads);
            && (r.ok <==> forall id {:trigger params[id]} :: id in params ==> SlotFits(m, saves, params, id) && SlotFits(v, saves, params, id))
            && (r.ok ==> RestoredSoFar(m, v, params, saves, start, params.Keys, r))
  {
    InRegistry(saves, params);
    InRegistry(loads, params);
    var st := SaveAll(k, step, m, v, params, saves, |saves|);
    SavedHolds(k, step, m, v, params, saves);
    LoadRestores(k, st, m, v, params, saves, start, loads, |loads|);
    AllVisited(loads, params);
    EverythingFits(m, v, params, saves);
  }

  lemma EverythingFits(m: Buffers, v: Buffers, params: Params, order: seq<ParamId>)
    ensures AllFit(m, v, params, order, params.Keys) <==>
            forall id {:trigger params[id]} :: id in params ==> SlotFits(m, order, params, id) && SlotFits(v, order, params, id)
  {
    if AllFit(m, v, params, order, params.Keys) {
      forall id | id in params ensures SlotFits(m, order, params, id) && SlotFits(v, order, params, id) {
        assert id in params.Keys;
      }
    }
  }

  lemma SavedHolds(k: Codec, step: nat, m: Buffers, v: Buffers, params: Params, saves: seq<ParamId>)
    requires AllRegistered(saves, params) && Visits(saves, params)
    ensures Holds(k, SaveAll(k, step, m, v, params, saves, |saves|), m, v, params, saves)
  {
    AllVisited(saves, params);
    var st := SaveAll(k, step, m, v, params, saves, |saves|);
    forall id | id in params
      ensures WeightSaved(k, st, id, params[id].data)
      ensures MomentSaved(k, st, MSlot(id), m, Writer(m, saves, |saves|, id)) && MomentSaved(k, st, VSlot(id), v, Writer(v, saves, |saves|, id))
    {
      SavedSlots(k, step, m, v, params, saves, |saves|, id);
    }
  }

  lemma AllVisited(order: seq<ParamId>, params: Params)
    requires Visits(order, params)
    ensures Visited(order, |order|) == params.Keys
  {
    assert order[..|order|] == order;
    forall id ensures id in Visited(order, |order|) <==> id in params.Keys {
      VisitedAll(order, |order|, id);
      assert id in order <==> id in params;
    }
  }

  lemma {:induction false} WriterIs(x: Buffers, order: seq<ParamId>, n: nat, id: ParamId)
    requires n <= |order|
    ensures id in order[..n] && id in x ==> Writer(x, order, n, id).Some?
    ensures Writer(x, order, n, id).Some? ==> Writer(x, order, n, id).value in order[..n]
  {
    if n > 0 {
      WriterIs(x, order, n - 1, id);
      assert order[..n] == order[..n - 1] + [order[n - 1]];
    }
  }

  /** The slot of a registered parameter is written by it or its registered twin, if either saved. */
  lemma WriterCases(x: Buffers, order: seq<ParamId>, params: Params, id: ParamId)
    requires Visits(order, params) && id in params
    ensures var w := Writer(x, order, |order|, id);
            && (w.Some? <==> id in x || (Twin(id) in params && Twin(id) in x))
            && (w.Some? ==> w.value in params)
  {
    SameWriter(x, order, |order|, id);
    WriterIs(x, order, |order|, id);
    WriterIs(x, order, |order|, Twin(id));
    assert order[..|order|] == order;
    var w := Writer(x, order, |order|, id);
    assert id in order && (Twin(id) in order <==> Twin(id) in params);
    if w.Some? { assert w.value in order <==> w.value in params; }
  }

  lemma {:induction false} SameWriter(x: Buffers, order: seq<ParamId>, n: nat, id: ParamId)
    requires n <= |order|
    ensures Writer(x, order, n, id) == Writer(x, order, n, Twin(id)) && Twin(Twin(id)) == id
  {
    if n > 0 { SameWriter(x, order, n - 1, id); }
  }

  /** Every saved moment has the size of its parameter. */
  ghost predicate OwnSizes(x: Buffers, params: Params) {
    forall id {:trigger x[id]} :: id in x && id in params ==> |x[id]| == |params[id].data.data|
  }

  /** The registered twin of a parameter with a saved moment has its size. */
  ghost predicate TwinsFit(x: Buffers, params: Params) {
    forall id {:trigger Twin(id)} :: id in params && id in x && Twin(id) in params ==> |params[Twin(id)].data.data| == |params[id].data.data|
  }

  /** Registered twins that both saved a moment saved equal ones. */
  ghost predicate TwinsEqual(x: Buffers, params: Params) {
    forall id {:trigger Twin(id)} :: id in params && id in x && Twin(id) in params && Twin(id) in x ==> x[Twin(id)] == x[id]
  }

  lemma SlotsFitIff(x: Buffers, params: Params, order: seq<ParamId>)
    requires Visits(order, params) && OwnSizes(x, params)
    ensures (forall id {:trigger params[id]} :: id in params ==> SlotFits(x, order, params, id)) <==> TwinsFit(x, params)
  {
    if forall id {:trigger params[id]} :: id in params ==> SlotFits(x, order, params, id) {
      forall id | id in params && id in x && Twin(id) in params ensures |params[Twin(id)].data.data| == |params[id].data.data| {
        WriterCases(x, order, params, id);
        SameWriter(x, order, |order|, id);
        assert SlotFits(x, order, params, id) && SlotFits(x, order, params, Twin(id));
      }
    }
    if TwinsFit(x, params) {
      forall id | id in params ensures SlotFits(x, order, params, id) {
        WriterCases(x, order, params, id);
        SameWriter(x, order, |order|, id);
        assert Twin(Twin(id)) == id;
      }
    }
  }

  /** Main theorem. For any two orders, the load succeeds exactly when every registered twin of a
      parameter with a saved moment has that parameter's size. */
  lemma LoadSucceedsIff(k: Codec, step: nat, m: Buffers, v: Buffers, params: Params, saves: seq<ParamId>, start: Loading, loads: seq<ParamId>)
    requires CodecOk(k) && Representable(k, m, v, params) && Visits(saves, params) && Visits(loads, params)
    requires start.ok && SameSizes(params, start.params) && OwnSizes(m, params) && OwnSizes(v, params)
    ensures Reload(k, step, m, v, params, saves, start, loads).ok <==> TwinsFit(m, params) && TwinsFit(v, params)
  {
    LoadAfterSave(k, step, m, v, params, saves, start, loads);
    SlotsFitIff(m, params, saves);
    SlotsFitIff(v, params, saves);
  }

  /** Every registered parameter that saved a moment has it back. */
  ghost predicate AllRestored(x: Buffers, params: Params, now: Buffers) {
    forall id {:trigger now[id]} :: id in params && id in x ==> id in now && now[id] == x[id]
  }

  /** What a parameter with no saved moment holds after a load: its registered twin's if there is
      one, and otherwise what it held before. */
  ghost predicate TwinFills(x: Buffers, params: Params, was: Buffers, now: Buffers, id: ParamId) {
    if Twin(id) in params && Twin(id) in x then id in now && now[id] == x[Twin(id)]
    else (id in now <==> id in was) && (id in now ==> now[id] == was[id])
  }

  ghost predicate TwinsFill(x: Buffers, params: Params, was: Buffers, now: Buffers) {
    forall id {:trigger TwinFills(x, params, was, now, id)} :: id in params && id !in x ==> TwinFills(x, params, was, now, id)
  }

  ghost predicate AllMoments(x: Buffers, params: Params, order: seq<ParamId>, was: Buffers, now: Buffers) {
    forall id {:trigger MomentAt(x, Writer(x, order, |order|, id), was, true, now, id)} :: id in params ==>
      MomentAt(x, Writer(x, order, |order|, id), was, true, now, id)
  }

  lemma RestoredIff(x: Buffers, params: Params, order: seq<ParamId>, was: Buffers, now: Buffers)
    requires Visits(order, params) && AllMoments(x, params, order, was, now)
    ensures AllRestored(x, params, now) <==> TwinsEqual(x, params)
    ensures TwinsFill(x, params, was, now)
  {
    forall id | id in params ensures MomentAt(x, Writer(x, order, |order|, id), was, true, now, id) {
    }
    if AllRestored(x, params, now) {
      forall id | id in params && id in x && Twin(id) in params && Twin(id) in x ensures x[Twin(id)] == x[id] {
        BothRead(x, params, order, was, now, id);
      }
    }
    if TwinsEqual(x, params) {
      forall id | id in params && id in x ensures id in now && now[id] == x[id] {
        WriterCases(x, order, params, id);
        assert Twin(id) == Twin(id);
      }
    }
    forall id | id in params && id !in x ensures TwinFills(x, params, was, now, id) {
      WriterCases(x, order, params, id);
    }
  }

  /** Twins read one slot. */
  lemma BothRead(x: Buffers, params: Params, order: seq<ParamId>, was: Buffers, now: Buffers, id: ParamId)
    requires Visits(order, params) && AllMoments(x, params, order, was, now)
    requires id in params && id in x && Twin(id) in params
    ensures id in now && Twin(id) in now && now[id] == now[Twin(id)]
  {
    WriterCases(x, order, params, id);
    SameWriter(x, order, |order|, id);
    assert MomentAt(x, Writer(x, order, |order|, id), was, true, now, id);
    assert MomentAt(x, Writer(x, order, |order|, Twin(id)), was, true, now, Twin(id));
  }

  /** Main theorem. After a load that succeeds every parameter has its data back; all first moments
      are back exactly when registered twins that both saved one saved equal ones, and likewise for
      second moments; and a parameter that saved none now holds its registered twin's. */
  lemma MomentsRestoredIff(k: Codec, step: nat, m: Buffers, v: Buffers, params: Params, saves: seq<ParamId>, start: Loading, loads: seq<ParamId>)
    requires CodecOk(k) && Representable(k, m, v, params) && Visits(saves, params) && Visits(loads, params)
    requires start.ok && SameSizes(params, start.params) && Reload(k, step, m, v, params, saves, start, loads).ok
    ensures var r := Reload(k, step, m, v, params, saves, start, loads);
            && AllData(params, r.params)
            && (AllRestored(m, params, r.m) <==> TwinsEqual(m, params)) && TwinsFill(m, params, start.m, r.m)
            && (AllRestored(v, params, r.v) <==> TwinsEqual(v, params)) && TwinsFill(v, params, start.v, r.v)
  {
    LoadAfterSave(k, step, m, v, params, saves, start, loads);
    var r := Reload(k, step, m, v, params, saves, start, loads);
    EverythingRestored(m, v, params, saves, start, r);
    RestoredIff(m, params, saves, start.m, r.m);
    RestoredIff(v, params, saves, start.v, r.v);
  }

  ghost predicate AllData(params: Params, now: Params) {
    forall id {:trigger now[id]} :: id in params ==> id in now && now[id].data.data == params[id].data.data
  }

  lemma EverythingRestored(m: Buffers, v: Buffers, params: Params, order: seq<ParamId>, start: Loading, r: Loading)
    requires RestoredSoFar(m, v, params, order, start, params.Keys, r)
    ensures AllData(params, r.params) && AllMoments(m, params, order, start.m, r.m) && AllMoments(v, params, order, start.v, r.v)
  {
    forall id | id in params
      ensures r.params[id].data.data == params[id].data.data
      ensures MomentAt(m, Writer(m, order, |order|, id), start.m, true, r.m, id) && MomentAt(v, Writer(v, order, |order|, id), start.v, true, r.v, id)
    {
      assert RestoredAt(m, v, params, order, start, params.Keys, r, id);
    }
  }

  /** Main theorem. Saving and loading returns everything exactly when registered twins agree:
      in size wherever one saved a moment, in value wherever both did. */
  lemma CheckpointRoundTripIff(k: Codec, step: nat, m: Buffers, v: Buffers, params: Params, saves: seq<ParamId>, start: Loading, loads: seq<ParamId>)
    requires CodecOk(k) && Representable(k, m, v, params) && Visits(saves, params) && Visits(loads, params)
    requires start.ok && SameSizes(params, start.params) && OwnSizes(m, params) && OwnSizes(v, params)
    ensures var r := Reload(k, step, m, v, params, saves, start, loads);
            r.ok && AllRestored(m, params, r.m) && AllRestored(v, params, r.v) <==>
            TwinsFit(m, params) && TwinsFit(v, params) && TwinsEqual(m, params) && TwinsEqual(v, params)
  {
    LoadSucceedsIff(k, step, m, v, params, saves, start, loads);
    if Reload(k, step, m, v, params, saves, start, loads).ok {
      MomentsRestoredIff(k, step, m, v, params, saves, start, loads);
    }
  }

  /** A load that stops leaves every parameter it has not reached as it was. */
  lemma {:induction false} UnreachedKept(k: Codec, st: TrainState, s: Loading, order: seq<ParamId>, n: nat, hi: nat, id: ParamId)
    requires CodecOk(k) && n <= hi <= |order| && !LoadAll(k, st, s, order, n).ok && id !in order[..n] && id in s.params
    ensures var r := LoadAll(k, st, s, order, hi); !r.ok && id in r.params && r.params[id] == s.params[id]
  {
    FailureSticks(k, st, s, order, n, hi);
    NotYetLoaded(k, st, s, order, n, id);
  }

  lemma {:induction false} NotYetLoaded(k: Codec, st: TrainState, s: Loading, order: seq<ParamId>, n: nat, id: ParamId)
    requires CodecOk(k) && n <= |order| && id !in order[..n] && id in s.params
    ensures var r := LoadAll(k, st, s, order, n); id in r.params && r.params[id] == s.params[id]
  {
    if n > 0 {
      assert order[..n] == order[..n - 1] + [order[n - 1]];
      NotYetLoaded(k, st, s, order, n - 1, id);
      OthersUnread(k, st, LoadAll(k, st, s, order, n - 1), order[n - 1], id);
    }
  }

  lemma OthersUnread(k: Codec, st: TrainState, s: Loading, at: ParamId, id: ParamId)
    requires CodecOk(k) && at != id && id in s.params
    ensures var r := LoadOne(k, st, s, at); id in r.params && r.params[id] == s.params[id]
  {
  }

  // ---------------------------------------------------------------- the loops

  method SaveToTrainState(k: Codec, opt: AdamW, params: Params, order: seq<ParamId>) returns (st: TrainState)
    requires AllRegistered(order, params)
    ensures st == SaveAll(k, opt.stepCount, opt.m, opt.v, params, order, |order|)
  {
    st := TrainState(opt.stepCount, Fp32, map[], map[]);
    for i := 0 to |order|
      invariant st == SaveAll(k, opt.stepCount, opt.m, opt.v, params, order, i)
    {
      var id := order[i];
      var d := params[id].data;
      var f := k.format(id);
      st := st.(dtypes := st.dtypes[WeightSlot(id) := f]);
      if !f.Fp32? { st := st.(fpFormat := f); }
      st := st.(blobs := st.blobs[WeightSlot(id) := Blob(d.shape, EncodeBuffer(k.wires(f), d.data))]);
      if id in opt.m { st := st.(blobs := st.blobs[MSlot(id) := Blob(d.shape, EncodeBuffer(k.wires(Fp32), opt.m[id]))]); }
      if id in opt.v { st := st.(blobs := st.blobs[VSlot(id) := Blob(d.shape, EncodeBuffer(k.wires(Fp32), opt.v[id]))]); }
    }
  }

  /** One parameter of a load: its weight, then its moments, each only if nothing failed before. */
  method LoadParam(k: Codec, opt: AdamW, params: Params, st: TrainState, id: ParamId) returns (out: Params, ok: bool)
    requires CodecOk(k) && id in params
    modifies opt`m, opt`v
    ensures Loading(out, opt.m, opt.v, ok) == LoadOne(k, st, Loading(params, old(opt.m), old(opt.v), true), id)
    ensures out.Keys == params.Keys
  {
    out := params;
    var n := |params[id].data.data|;
    var weight := ReadBlob(st, WeightSlot(id), k.wires(FormatOf(st, WeightSlot(id))), n);
    if weight.Bad? { return out, false; }
    if weight.Values? { out := out[id := WithData(out[id], weight.xs)]; }
    var m := ReadBlob(st, MSlot(id), k.wires(Fp32), n);
    if m.Bad? { return out, false; }
    if m.Values? { opt.m := opt.m[id := m.xs]; }
    var v := ReadBlob(st, VSlot(id), k.wires(Fp32), n);
    if v.Bad? { return out, false; }
    if v.Values? { opt.v := opt.v[id := v.xs]; }
    ok := true;
  }

  /** `ok` is false when the load stopped on an error; the registry returned and the optimizer then
      hold what had been restored. */
  method LoadFromTrainState(k: Codec, opt: AdamW, params: Params, st: TrainState, order: seq<ParamId>) returns (out: Params, ok: bool)
    requires CodecOk(k) && AllRegistered(order, params)
    modifies opt`stepCount, opt`m, opt`v
    ensures Loading(out, opt.m, opt.v, ok) == LoadAll(k, st, Loading(params, old(opt.m), old(opt.v), true), order, |order|)
    ensures opt.stepCount == st.step
  {
    opt.stepCount := st.step;
    out, ok := params, true;
    for i := 0 to |order|
      invariant ok && out.Keys == params.Keys && opt.stepCount == st.step
      invariant Loading(out, opt.m, opt.v, ok) == LoadAll(k, st, Loading(params, old(opt.m), old(opt.v), true), order, i)
    {
      out, ok := LoadParam(k, opt, out, st, order[i]);
      if !ok {
        FailureSticks(k, st, Loading(params, old(opt.m), old(opt.v), true), order, i + 1, |order|);
        return;
      }
    }
  }

  lemma {:induction false} FailureSticks(k: Codec, st: TrainState, s: Loading, order: seq<ParamId>, n: nat, hi: nat)
    requires CodecOk(k) && n <= hi <= |order| && !LoadAll(k, st, s, order, n).ok
    ensures LoadAll(k, st, s, order, hi) == LoadAll(k, st, s, order, n)
  {
    if n < hi { FailureSticks(k, st, s, order, n, hi - 1); }
  }
}
