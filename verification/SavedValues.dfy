/** What the checkpoints hold and what loading does with them, spelled out: the names, the step count, the
    shapes, which format an old state is read with, what an error leaves behind, and the flags of pages. */
module SavedValues {
  import opened Tensors
  import opened PagedAdamW
  import opened AdamWRuns
  import opened OptimizerLoops
  import opened SlotNames
  import opened TrainStates
  import opened PagedStates

  // ---------------------------------------------------------------- names

  /** The number a decimal text stands for. */
  function ValueOf(s: string): int {
    if s == [] then 0 else 10 * ValueOf(s[..|s| - 1]) + (s[|s| - 1] as int - '0' as int)
  }

  /** The decimal form stands for its number and has no leading zero. */
  lemma {:induction false} DigitsAreDecimal(n: nat)
    ensures ValueOf(Digits(n)) == n && (n > 0 ==> Digits(n)[0] != '0')
  {
    var s := Digits(n);
    assert s[|s| - 1] as int - '0' as int == n % 10;
    if n < 10 {
      assert s[..|s| - 1] == [];
    } else {
      DigitsAreDecimal(n / 10);
      assert s[..|s| - 1] == Digits(n / 10);
    }
  }

  lemma {:induction false} JoinedFive(a: string, b: string, c: string, d: string, e: string)
    ensures Joined([a, b, c, d, e]) == a + "_" + b + "_" + c + "_" + d + "_" + e
  {
    JoinedTail([a, b, c, d, e]);
    JoinedTail([b, c, d, e]);
    JoinedTail([c, d, e]);
    JoinedTail([d, e]);
  }

  lemma JoinedTail(parts: seq<string>)
    requires |parts| > 1
    ensures Joined(parts) == parts[0] + "_" + Joined(parts[1..])
  {
    assert parts[0] + ("_" + Joined(parts[1..])) == parts[0] + "_" + Joined(parts[1..]);
  }

  /** The names of the slots of one parameter, as texts. */
  lemma NamesAre(id: ParamId)
    ensures WeightSlot(id) == "param" + "_" + Digits(id.layerIdx) + "_" + Digits(id.adapterId) + "_" + Suffix(id.point) + "_" + (if id.isA then "a" else "b")
    ensures MSlot(id) == "opt" + "_" + "m" + "_" + Digits(id.layerIdx) + "_" + Digits(id.adapterId) + "_" + Suffix(id.point)
    ensures VSlot(id) == "opt" + "_" + "v" + "_" + Digits(id.layerIdx) + "_" + Digits(id.adapterId) + "_" + Suffix(id.point)
  {
    var l, a, p := Digits(id.layerIdx), Digits(id.adapterId), Suffix(id.point);
    JoinedFive("param", l, a, p, if id.isA then "a" else "b");
    JoinedFive("opt", "m", l, a, p);
    JoinedFive("opt", "v", l, a, p);
  }

  /** The names of one page, as texts. */
  lemma PageNamesAre(id: ParamId, page: nat)
    ensures PagedMKey(id, page) == "paged" + "_" + ("m" + "_" + Digits(id.layerIdx) + "_" + Digits(id.adapterId) + "_" + (if id.isA then "a" else "b") + "_" + ("p" + Digits(page)))
    ensures PagedVKey(id, page) == "paged" + "_" + ("v" + "_" + Digits(id.layerIdx) + "_" + Digits(id.adapterId) + "_" + (if id.isA then "a" else "b") + "_" + ("p" + Digits(page)))
  {
    var l, a, s, p := Digits(id.layerIdx), Digits(id.adapterId), if id.isA then "a" else "b", "p" + Digits(page);
    JoinedTail(["paged", "m", l, a, s, p]);
    JoinedTail(["paged", "v", l, a, s, p]);
    JoinedFive("m", l, a, s, p);
    JoinedFive("v", l, a, s, p);
  }

  // ---------------------------------------------------------------- what a state holds

  /** The format of the last of `n` parameters that is not stored in full precision, or full precision. */
  function LastHalf(k: Codec, order: seq<ParamId>, n: nat): Format
    requires n <= |order|
  {
    if n == 0 then Fp32 else if k.format(order[n - 1]) == Fp32 then LastHalf(k, order, n - 1) else k.format(order[n - 1])
  }

  lemma HeaderKept(k: Codec, m: Buffers, v: Buffers, params: Params, st: TrainState, id: ParamId)
    requires id in params
    ensures var r := SaveOne(k, m, v, params, st, id);
            r.step == st.step && r.fpFormat == if k.format(id) == Fp32 then st.fpFormat else k.format(id)
  {
  }

  /** The step count is saved, and the one format of the state is the last half-precision one. */
  lemma {:induction false} HeaderSaved(k: Codec, step: nat, m: Buffers, v: Buffers, params: Params, order: seq<ParamId>, n: nat)
    requires n <= |order| && AllRegistered(order, params)
    ensures var st := SaveAll(k, step, m, v, params, order, n); st.step == step && st.fpFormat == LastHalf(k, order, n)
  {
    if n > 0 {
      HeaderSaved(k, step, m, v, params, order, n - 1);
      HeaderKept(k, m, v, params, SaveAll(k, step, m, v, params, order, n - 1), order[n - 1]);
    }
  }

  /** A blob with the shape of parameter `id`, under one of its names. */
  ghost predicate BlobOf(k: Codec, m: Buffers, v: Buffers, params: Params, key: string, b: Blob, id: ParamId) {
    && id in params && b.shape == params[id].data.shape
    && (|| (key == WeightSlot(id) && b.data == EncodeBuffer(k.wires(k.format(id)), params[id].data.data))
        || (key == MSlot(id) && id in m && b.data == EncodeBuffer(k.wires(Fp32), m[id]))
        || (key == VSlot(id) && id in v && b.data == EncodeBuffer(k.wires(Fp32), v[id])))
  }

  ghost predicate BlobsOf(k: Codec, m: Buffers, v: Buffers, params: Params, order: seq<ParamId>, st: TrainState) {
    forall key {:trigger st.blobs[key]} :: key in st.blobs ==> exists i {:trigger order[i]} :: 0 <= i < |order| && BlobOf(k, m, v, params, key, st.blobs[key], order[i])
  }

  lemma OneMoreBlob(k: Codec, m: Buffers, v: Buffers, params: Params, order: seq<ParamId>, st: TrainState, i: nat)
    requires i < |order| && order[i] in params && BlobsOf(k, m, v, params, order, st)
    ensures BlobsOf(k, m, v, params, order, SaveOne(k, m, v, params, st, order[i]))
  {
    var id, r := order[i], SaveOne(k, m, v, params, st, order[i]);
    forall key | key in r.blobs ensures exists i {:trigger order[i]} :: 0 <= i < |order| && BlobOf(k, m, v, params, key, r.blobs[key], order[i]) {
      OneBlob(k, m, v, params, st, id, key);
      if !BlobOf(k, m, v, params, key, r.blobs[key], id) { assert key in st.blobs && r.blobs[key] == st.blobs[key]; }
    }
  }

  lemma OneBlob(k: Codec, m: Buffers, v: Buffers, params: Params, st: TrainState, id: ParamId, key: string)
    requires id in params && key in SaveOne(k, m, v, params, st, id).blobs
    ensures var r := SaveOne(k, m, v, params, st, id); BlobOf(k, m, v, params, key, r.blobs[key], id) || (key in st.blobs && r.blobs[key] == st.blobs[key])
  {
  }

  lemma LastSaved(k: Codec, step: nat, m: Buffers, v: Buffers, params: Params, order: seq<ParamId>, n: nat)
    requires 0 < n <= |order| && AllRegistered(order, params) && BlobsOf(k, m, v, params, order, SaveAll(k, step, m, v, params, order, n - 1))
    ensures BlobsOf(k, m, v, params, order, SaveAll(k, step, m, v, params, order, n))
  {
    OneMoreBlob(k, m, v, params, order, SaveAll(k, step, m, v, params, order, n - 1), n - 1);
  }

  /** Nothing but the weights and moments of saved parameters is saved, each with its parameter's shape. */
  lemma {:induction false} OnlyTheirBlobs(k: Codec, step: nat, m: Buffers, v: Buffers, params: Params, order: seq<ParamId>, n: nat)
    requires n <= |order| && AllRegistered(order, params)
    ensures BlobsOf(k, m, v, params, order, SaveAll(k, step, m, v, params, order, n))
  {
    if n > 0 {
      OnlyTheirBlobs(k, step, m, v, params, order, n - 1);
      LastSaved(k, step, m, v, params, order, n);
    }
  }

  // ---------------------------------------------------------------- loading one parameter

  /** A state without formats of its own is read in its one format. */
  lemma OldStateLoads(k: Codec, st: TrainState, s: Loading, id: ParamId, xs: seq<real>)
    requires CodecOk(k) && s.ok && id in s.params && |xs| == |s.params[id].data.data|
    requires WeightSlot(id) !in st.dtypes && WeightSlot(id) in st.blobs && MSlot(id) !in st.blobs && VSlot(id) !in st.blobs
    requires st.blobs[WeightSlot(id)].data == EncodeBuffer(k.wires(st.fpFormat), xs) && Exact(k.wires(st.fpFormat), xs)
    ensures LoadOne(k, st, s, id) == s.(params := s.params[id := s.params[id].(data := s.params[id].data.(data := xs))])
  {
    BufferRoundTrip(k.wires(st.fpFormat), xs);
  }

  /** The bytes under `key`, if any, are not `n` full-precision values. */
  ghost predicate Broken(k: Codec, st: TrainState, key: string, n: nat)
    requires CodecOk(k)
  {
    key in st.blobs && (DecodeBuffer(k.wires(Fp32), st.blobs[key].data).None? || |DecodeBuffer(k.wires(Fp32), st.blobs[key].data).value| != n)
  }

  /** What an error leaves: a broken first moment comes after the weight is in place, a broken second one
      after the first moment is; nothing of another parameter changes. */
  lemma ErrorLeaves(k: Codec, st: TrainState, s: Loading, id: ParamId, xs: seq<real>)
    requires CodecOk(k) && s.ok && id in s.params && |xs| == |s.params[id].data.data|
    requires WeightSlot(id) in st.dtypes && WeightSlot(id) in st.blobs
    requires var w := k.wires(st.dtypes[WeightSlot(id)]); st.blobs[WeightSlot(id)].data == EncodeBuffer(w, xs) && Exact(w, xs)
    ensures var r := LoadOne(k, st, s, id);
            && r.params == s.params[id := s.params[id].(data := s.params[id].data.(data := xs))]
            && (Broken(k, st, MSlot(id), |xs|) ==> !r.ok && r.m == s.m && r.v == s.v)
            && (Broken(k, st, VSlot(id), |xs|) ==> !r.ok && r.v == s.v)
            && (!Broken(k, st, MSlot(id), |xs|) && MSlot(id) in st.blobs ==> id in r.m && Some(r.m[id]) == DecodeBuffer(k.wires(Fp32), st.blobs[MSlot(id)].data))
  {
    BufferRoundTrip(k.wires(st.dtypes[WeightSlot(id)]), xs);
  }

  // ---------------------------------------------------------------- pages

  /** Loading keeps the flags of the pages that are there and leaves new ones clean and off the device. */
  ghost predicate FlagsKept(was: Pages, now: Pages) {
    && (forall key {:trigger key in now} :: key in was ==> key in now)
    && (forall key {:trigger now[key]} :: key in now ==>
          if key in was then now[key].dirty == was[key].dirty && now[key].inGpu == was[key].inGpu
          else !now[key].dirty && !now[key].inGpu)
  }

  lemma PageKeepsFlags(w: Wire, blobs: Blobs, was: Pages, pages: Pages, key: Key)
    requires w.width > 0 && FlagsKept(was, pages)
    ensures FlagsKept(was, LoadPage(w, blobs, pages, key))
  {
    MomentKeepsFlags(was, pages, key, ReadPage(w, blobs, PagedMKey(key.0, key.1), MSlot(key.0)));
    MomentKeepsFlags(was, WithM(pages, key, ReadPage(w, blobs, PagedMKey(key.0, key.1), MSlot(key.0))), key,
                     ReadPage(w, blobs, PagedVKey(key.0, key.1), VSlot(key.0)));
  }

  lemma MomentKeepsFlags(was: Pages, pages: Pages, key: Key, x: Option<seq<real>>)
    requires FlagsKept(was, pages)
    ensures FlagsKept(was, WithM(pages, key, x)) && FlagsKept(was, WithV(pages, key, x))
  {
  }

  lemma {:induction false} PagesKeepFlags(w: Wire, blobs: Blobs, was: Pages, pages: Pages, id: ParamId, n: nat)
    requires w.width > 0 && FlagsKept(was, pages)
    ensures FlagsKept(was, LoadPagesOf(w, blobs, pages, id, n))
  {
    if n > 0 {
      PagesKeepFlags(w, blobs, was, pages, id, n - 1);
      PageKeepsFlags(w, blobs, was, LoadPagesOf(w, blobs, pages, id, n - 1), (id, n - 1));
    }
  }

  lemma {:induction false} LoadKeepsFlags(w: Wire, blobs: Blobs, c: Config, params: Params, was: Pages, order: seq<ParamId>, n: nat)
    requires w.width > 0 && n <= |order|
    ensures FlagsKept(was, LoadPages(w, blobs, c, params, was, order, n))
  {
    if n > 0 {
      LoadKeepsFlags(w, blobs, c, params, was, order, n - 1);
      PagesKeepFlags(w, blobs, was, LoadPages(w, blobs, c, params, was, order, n - 1), order[n - 1], CountOf(c, params, order[n - 1]));
    }
  }

  /** A state saved by the flat optimizer: no page of `id` is there, but its two moments are. */
  ghost predicate FlatSaved(w: Wire, blobs: Blobs, id: ParamId, m: seq<real>, v: seq<real>) {
    && (forall p: nat {:trigger PagedMKey(id, p)} :: PagedMKey(id, p) !in blobs)
    && (forall p: nat {:trigger PagedVKey(id, p)} :: PagedVKey(id, p) !in blobs)
    && MSlot(id) in blobs && VSlot(id) in blobs
    && blobs[MSlot(id)] == EncodeBuffer(w, m) && blobs[VSlot(id)] == EncodeBuffer(w, v) && Exact(w, m) && Exact(w, v)
  }

  lemma PageFromFlat(w: Wire, blobs: Blobs, pages: Pages, id: ParamId, p: nat, m: seq<real>, v: seq<real>)
    requires WireOk(w) && FlatSaved(w, blobs, id, m, v)
    ensures var r := LoadPage(w, blobs, pages, (id, p)); (id, p) in r && r[(id, p)].m == m && r[(id, p)].v == v
  {
    BufferRoundTrip(w, m);
    BufferRoundTrip(w, v);
    assert PagedMKey(id, p) !in blobs && PagedVKey(id, p) !in blobs;
  }

  /** From such a state every page receives the moments of the whole parameter. */
  lemma {:induction false} PagesFromFlat(w: Wire, blobs: Blobs, pages: Pages, id: ParamId, n: nat, p: nat, m: seq<real>, v: seq<real>)
    requires WireOk(w) && FlatSaved(w, blobs, id, m, v) && p < n
    ensures var r := LoadPagesOf(w, blobs, pages, id, n); (id, p) in r && r[(id, p)].m == m && r[(id, p)].v == v
  {
    if p < n - 1 {
      PagesFromFlat(w, blobs, pages, id, n - 1, p, m, v);
      OtherPagesKept(w, blobs, LoadPagesOf(w, blobs, pages, id, n - 1), (id, n - 1), (id, p));
    } else {
      PageFromFlat(w, blobs, LoadPagesOf(w, blobs, pages, id, p), id, p, m, v);
    }
  }
}
