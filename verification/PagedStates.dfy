/** Saving and loading the paged optimizer: weights under their own names, every moment page under
    a name that forgets the injection point. */
module PagedStates {
  import opened Tensors
  import opened PagedAdamW
  import opened AdamWRuns
  import opened OptimizerLoops
  import opened SlotNames
  import opened TrainStates

  type Key = (ParamId, nat)

  type Blobs = map<string, seq<Byte>>

  /** Two pages whose names collide: they differ at most in the injection point. */
  predicate Mates(a: Key, b: Key) {
    a.1 == b.1 && a.0 == b.0.(point := a.0.point)
  }

  lemma PageNames(a: Key, b: Key)
    ensures PagedMKey(a.0, a.1) == PagedMKey(b.0, b.1) <==> Mates(a, b)
    ensures PagedVKey(a.0, a.1) == PagedVKey(b.0, b.1) <==> Mates(a, b)
    ensures PagedMKey(a.0, a.1) != PagedVKey(b.0, b.1)
    ensures WeightSlot(a.0) != PagedMKey(b.0, b.1) && WeightSlot(a.0) != PagedVKey(b.0, b.1)
    ensures MSlot(a.0) != PagedMKey(b.0, b.1) && MSlot(a.0) != PagedVKey(b.0, b.1)
    ensures VSlot(a.0) != PagedMKey(b.0, b.1) && VSlot(a.0) != PagedVKey(b.0, b.1)
  {
    PagedKeyForgetsPoint(a.0, b.0, a.1, b.1);
    PagedKeysApart(a.0, b.0, a.1, b.1);
  }

  // ---------------------------------------------------------------- saving

  function SaveWeights(w: Wire, params: Params, order: seq<ParamId>, n: nat): Blobs
    requires n <= |order| && AllRegistered(order, params)
  {
    if n == 0 then map[]
    else SaveWeights(w, params, order, n - 1)[WeightSlot(order[n - 1]) := EncodeBuffer(w, params[order[n - 1]].data.data)]
  }

  predicate AllPages(keys: seq<Key>, pages: Pages) {
    forall i :: 0 <= i < |keys| ==> keys[i] in pages
  }

  function SavePage(w: Wire, blobs: Blobs, key: Key, page: Page): Blobs {
    blobs[PagedMKey(key.0, key.1) := EncodeBuffer(w, page.m)][PagedVKey(key.0, key.1) := EncodeBuffer(w, page.v)]
  }

  /** The blobs after the first `n` pages of an order are saved. */
  function SavePages(w: Wire, blobs: Blobs, pages: Pages, keys: seq<Key>, n: nat): Blobs
    requires n <= |keys| && AllPages(keys, pages)
  {
    if n == 0 then blobs else SavePage(w, SavePages(w, blobs, pages, keys, n - 1), keys[n - 1], pages[keys[n - 1]])
  }

  function PagedSave(w: Wire, params: Params, order: seq<ParamId>, pages: Pages, keys: seq<Key>): Blobs
    requires AllRegistered(order, params) && AllPages(keys, pages)
  {
    SavePages(w, SaveWeights(w, params, order, |order|), pages, keys, |keys|)
  }

  /** The page saved last under the name of `key`. */
  function LastMate(keys: seq<Key>, n: nat, key: Key): (o: Option<Key>)
    requires n <= |keys|
    ensures o.Some? ==> o.value in keys && Mates(o.value, key)
  {
    if n == 0 then None
    else if Mates(keys[n - 1], key) then Some(keys[n - 1])
    else LastMate(keys, n - 1, key)
  }

  /** The two blobs read for `key` hold the moments of page `o`. */
  ghost predicate PageSaved(w: Wire, blobs: Blobs, pages: Pages, key: Key, o: Option<Key>) {
    if o.None? then PagedMKey(key.0, key.1) !in blobs && PagedVKey(key.0, key.1) !in blobs
    else
      && o.value in pages && PagedMKey(key.0, key.1) in blobs && PagedVKey(key.0, key.1) in blobs
      && blobs[PagedMKey(key.0, key.1)] == EncodeBuffer(w, pages[o.value].m)
      && blobs[PagedVKey(key.0, key.1)] == EncodeBuffer(w, pages[o.value].v)
  }

  /** No slot of the flat optimizer for `id` is there. */
  ghost predicate NoFlatSlots(blobs: Blobs, id: ParamId) {
    MSlot(id) !in blobs && VSlot(id) !in blobs
  }

  ghost predicate WeightIs(w: Wire, blobs: Blobs, id: ParamId, data: seq<real>) {
    WeightSlot(id) in blobs && blobs[WeightSlot(id)] == EncodeBuffer(w, data)
  }

  lemma SavePageSlots(w: Wire, blobs: Blobs, pages: Pages, at: Key, key: Key, o: Option<Key>)
    requires at in pages && PageSaved(w, blobs, pages, key, o)
    ensures PageSaved(w, SavePage(w, blobs, at, pages[at]), pages, key, if Mates(at, key) then Some(at) else o)
  {
    PageNames(at, key);
    PageNames(key, at);
  }

  lemma SavePageKeeps(w: Wire, blobs: Blobs, page: Page, at: Key, id: ParamId, data: seq<real>)
    ensures NoFlatSlots(blobs, id) ==> NoFlatSlots(SavePage(w, blobs, at, page), id)
    ensures WeightIs(w, blobs, id, data) ==> WeightIs(w, SavePage(w, blobs, at, page), id, data)
  {
    PageNames((id, 0), at);
  }

  lemma {:induction false} WeightsOnly(w: Wire, params: Params, order: seq<ParamId>, n: nat, key: Key, id: ParamId)
    requires n <= |order| && AllRegistered(order, params)
    ensures var b := SaveWeights(w, params, order, n);
            PagedMKey(key.0, key.1) !in b && PagedVKey(key.0, key.1) !in b && NoFlatSlots(b, id)
  {
    if n > 0 {
      WeightsOnly(w, params, order, n - 1, key, id);
      PageNames((order[n - 1], 0), key);
      SlotKindsDisjoint(order[n - 1], id);
    }
  }

  lemma {:induction false} WeightsSaved(w: Wire, params: Params, order: seq<ParamId>, n: nat, i: nat)
    requires i < n <= |order| && AllRegistered(order, params)
    ensures WeightIs(w, SaveWeights(w, params, order, n), order[i], params[order[i]].data.data)
  {
    if i < n - 1 {
      WeightsSaved(w, params, order, n - 1, i);
      WeightSlotInjective(order[n - 1], order[i]);
    }
  }

  /** After `n` pages: what the state holds for a page name, and that it kept the rest. */
  lemma {:induction false} PagesSaved(w: Wire, start: Blobs, pages: Pages, keys: seq<Key>, n: nat, key: Key)
    requires n <= |keys| && AllPages(keys, pages) && PageSaved(w, start, pages, key, None)
    ensures PageSaved(w, SavePages(w, start, pages, keys, n), pages, key, LastMate(keys, n, key))
  {
    if n > 0 {
      PagesSaved(w, start, pages, keys, n - 1, key);
      SavePageSlots(w, SavePages(w, start, pages, keys, n - 1), pages, keys[n - 1], key, LastMate(keys, n - 1, key));
    }
  }

  lemma {:induction false} RestKept(w: Wire, start: Blobs, pages: Pages, keys: seq<Key>, n: nat, id: ParamId, data: seq<real>)
    requires n <= |keys| && AllPages(keys, pages)
    ensures NoFlatSlots(start, id) ==> NoFlatSlots(SavePages(w, start, pages, keys, n), id)
    ensures WeightIs(w, start, id, data) ==> WeightIs(w, SavePages(w, start, pages, keys, n), id, data)
  {
    if n > 0 {
      RestKept(w, start, pages, keys, n - 1, id, data);
      SavePageKeeps(w, SavePages(w, start, pages, keys, n - 1), pages[keys[n - 1]], keys[n - 1], id, data);
    }
  }

  /** The two blobs read for `key` hold the moments of the page saved last under that name, and no
      fallback is there. */
  ghost predicate SavedAt(w: Wire, blobs: Blobs, pages: Pages, keys: seq<Key>, key: Key) {
    PageSaved(w, blobs, pages, key, LastMate(keys, |keys|, key)) && NoFlatSlots(blobs, key.0)
  }

  ghost predicate SavedAll(w: Wire, blobs: Blobs, pages: Pages, keys: seq<Key>) {
    forall key {:trigger SavedAt(w, blobs, pages, keys, key)} :: SavedAt(w, blobs, pages, keys, key)
  }

  ghost predicate WeightAt(w: Wire, blobs: Blobs, params: Params, order: seq<ParamId>, i: nat)
    requires i < |order|
  {
    order[i] in params && WeightIs(w, blobs, order[i], params[order[i]].data.data)
  }

  ghost predicate WeightsThere(w: Wire, blobs: Blobs, params: Params, order: seq<ParamId>) {
    forall i: nat {:trigger WeightAt(w, blobs, params, order, i)} :: i < |order| ==> WeightAt(w, blobs, params, order, i)
  }

  ghost predicate ExactAt(w: Wire, params: Params, id: ParamId) {
    id in params ==> Exact(w, params[id].data.data)
  }

  ghost predicate WeightsExact(w: Wire, params: Params) {
    forall id {:trigger ExactAt(w, params, id)} :: ExactAt(w, params, id)
  }

  lemma SaveHolds(w: Wire, params: Params, order: seq<ParamId>, pages: Pages, keys: seq<Key>)
    requires AllRegistered(order, params) && AllPages(keys, pages)
    ensures SavedAll(w, PagedSave(w, params, order, pages, keys), pages, keys)
    ensures WeightsThere(w, PagedSave(w, params, order, pages, keys), params, order)
  {
    var start, blobs := SaveWeights(w, params, order, |order|), PagedSave(w, params, order, pages, keys);
    forall key: Key ensures SavedAt(w, blobs, pages, keys, key) {
      WeightsOnly(w, params, order, |order|, key, key.0);
      PagesSaved(w, start, pages, keys, |keys|, key);
      RestKept(w, start, pages, keys, |keys|, key.0, []);
    }
    forall i: nat | i < |order| ensures WeightAt(w, blobs, params, order, i) {
      WeightsSaved(w, params, order, |order|, i);
      RestKept(w, start, pages, keys, |keys|, order[i], params[order[i]].data.data);
    }
  }

  // ---------------------------------------------------------------- loading

  /** A page blob of the wrong size for the format is ignored. The fallback name is the flat
      optimizer's slot. */
  function ReadPage(w: Wire, blobs: Blobs, name: string, fallback: string): Option<seq<real>>
    requires w.width > 0
  {
    if name in blobs then DecodeBuffer(w, blobs[name])
    else if fallback in blobs then DecodeBuffer(w, blobs[fallback])
    else None
  }

  function FreshPage(n: nat): Page {
    Page(ZeroMoments(n).m, ZeroMoments(n).v, false, false)
  }

  function WithM(pages: Pages, key: Key, m: Option<seq<real>>): Pages {
    if m.None? then pages
    else pages[key := if key in pages then pages[key].(m := m.value) else FreshPage(|m.value|).(m := m.value)]
  }

  function WithV(pages: Pages, key: Key, v: Option<seq<real>>): Pages {
    if v.None? then pages
    else pages[key := if key in pages then pages[key].(v := v.value) else FreshPage(|v.value|).(v := v.value)]
  }

  function LoadPage(w: Wire, blobs: Blobs, pages: Pages, key: Key): Pages
    requires w.width > 0
  {
    WithV(WithM(pages, key, ReadPage(w, blobs, PagedMKey(key.0, key.1), MSlot(key.0))), key,
          ReadPage(w, blobs, PagedVKey(key.0, key.1), VSlot(key.0)))
  }

  /** The first `k` pages of one parameter. */
  function LoadPagesOf(w: Wire, blobs: Blobs, pages: Pages, id: ParamId, k: nat): Pages
    requires w.width > 0
  {
    if k == 0 then pages else LoadPage(w, blobs, LoadPagesOf(w, blobs, pages, id, k - 1), (id, k - 1))
  }

  function CountOf(c: Config, params: Params, id: ParamId): nat {
    if id in params then PageCount(SizeOf(c), |params[id].data.data|) else 0
  }

  function LoadPages(w: Wire, blobs: Blobs, c: Config, params: Params, pages: Pages, order: seq<ParamId>, n: nat): Pages
    requires w.width > 0 && n <= |order|
  {
    if n == 0 then pages
    else LoadPagesOf(w, blobs, LoadPages(w, blobs, c, params, pages, order, n - 1), order[n - 1], CountOf(c, params, order[n - 1]))
  }

  /** One weight; one that does not decode to the parameter's size is an error and stops the load. */
  function LoadWeight(w: Wire, blobs: Blobs, params: Params, ok: bool, id: ParamId): (r: (Params, bool))
    requires w.width > 0
  {
    if !ok || id !in params || WeightSlot(id) !in blobs then (params, ok)
    else
      match DecodeBuffer(w, blobs[WeightSlot(id)])
      case None => (params, false)
      case Some(xs) => if |xs| != |params[id].data.data| then (params, false) else (params[id := WithData(params[id], xs)], true)
  }

  function LoadWeights(w: Wire, blobs: Blobs, params: Params, order: seq<ParamId>, n: nat): (r: (Params, bool))
    requires w.width > 0 && n <= |order|
  {
    if n == 0 then (params, true)
    else
      var prev := LoadWeights(w, blobs, params, order, n - 1);
      LoadWeight(w, blobs, prev.0, prev.1, order[n - 1])
  }

  datatype PagedLoading = PagedLoading(params: Params, pages: Pages, ok: bool)

  function PagedLoad(w: Wire, blobs: Blobs, c: Config, params: Params, pages: Pages, order: seq<ParamId>): PagedLoading
    requires w.width > 0
  {
    var weights := LoadWeights(w, blobs, params, order, |order|);
    if !weights.1 then PagedLoading(weights.0, pages, false)
    else PagedLoading(weights.0, LoadPages(w, blobs, c, weights.0, pages, order, |order|), true)
  }

  // ---------------------------------------------------------------- what a load restores

  ghost predicate PagesExact(w: Wire, pages: Pages) {
    forall key {:trigger pages[key]} :: key in pages ==> Exact(w, pages[key].m) && Exact(w, pages[key].v)
  }

  /** After a load `key` holds the moments of page `o`, if there is one, and is as it was otherwise. */
  ghost predicate PageIs(pages: Pages, o: Option<Key>, was: Pages, now: Pages, key: Key) {
    if o.Some? then o.value in pages && key in now && now[key].m == pages[o.value].m && now[key].v == pages[o.value].v
    else (key in now <==> key in was) && (key in now ==> now[key] == was[key])
  }

  ghost predicate SameAt(was: Pages, now: Pages, key: Key) {
    (key in now <==> key in was) && (key in now ==> now[key] == was[key])
  }

  lemma OnePageLoaded(w: Wire, blobs: Blobs, pages: Pages, was: Pages, key: Key, o: Option<Key>)
    requires WireOk(w) && PagesExact(w, pages) && PageSaved(w, blobs, pages, key, o) && NoFlatSlots(blobs, key.0)
    ensures PageIs(pages, o, was, LoadPage(w, blobs, was, key), key)
  {
    if o.Some? {
      BufferRoundTrip(w, pages[o.value].m);
      BufferRoundTrip(w, pages[o.value].v);
    }
  }

  lemma OtherPagesKept(w: Wire, blobs: Blobs, was: Pages, key: Key, other: Key)
    requires w.width > 0 && other != key
    ensures SameAt(was, LoadPage(w, blobs, was, key), other)
  {
  }

  /** The page of `key` is its name's last writer's if `key` is done, and as before otherwise. */
  ghost predicate LoadedAt(pages: Pages, keys: seq<Key>, was: Pages, now: Pages, done: set<Key>, key: Key) {
    PageIs(pages, if key in done then LastMate(keys, |keys|, key) else None, was, now, key)
  }

  ghost predicate LoadedSoFar(pages: Pages, keys: seq<Key>, was: Pages, now: Pages, done: set<Key>) {
    forall key {:trigger LoadedAt(pages, keys, was, now, done, key)} :: LoadedAt(pages, keys, was, now, done, key)
  }

  lemma OneMoreLoaded(w: Wire, blobs: Blobs, pages: Pages, keys: seq<Key>, was: Pages, now: Pages, done: set<Key>, key: Key)
    requires WireOk(w) && PagesExact(w, pages) && SavedAt(w, blobs, pages, keys, key) && LoadedSoFar(pages, keys, was, now, done)
    ensures LoadedSoFar(pages, keys, was, LoadPage(w, blobs, now, key), done + {key})
  {
    var next := LoadPage(w, blobs, now, key);
    forall other: Key ensures LoadedAt(pages, keys, was, next, done + {key}, other) {
      assert LoadedAt(pages, keys, was, now, done, other);
      if other == key {
        OnePageLoaded(w, blobs, pages, now, key, LastMate(keys, |keys|, key));
      } else {
        OtherPagesKept(w, blobs, now, key, other);
      }
    }
  }

  function KeysOf(id: ParamId, k: nat): set<Key> {
    set p: nat | p < k :: (id, p)
  }

  lemma {:induction false} ParamLoaded(w: Wire, blobs: Blobs, pages: Pages, keys: seq<Key>, was: Pages, now: Pages, done: set<Key>, id: ParamId, k: nat)
    requires WireOk(w) && PagesExact(w, pages) && SavedAll(w, blobs, pages, keys) && LoadedSoFar(pages, keys, was, now, done)
    ensures LoadedSoFar(pages, keys, was, LoadPagesOf(w, blobs, now, id, k), done + KeysOf(id, k))
  {
    if k == 0 {
      assert done + KeysOf(id, 0) == done;
    } else {
      ParamLoaded(w, blobs, pages, keys, was, now, done, id, k - 1);
      assert SavedAt(w, blobs, pages, keys, (id, k - 1));
      OneMoreLoaded(w, blobs, pages, keys, was, LoadPagesOf(w, blobs, now, id, k - 1), done + KeysOf(id, k - 1), (id, k - 1));
      assert done + KeysOf(id, k) == done + KeysOf(id, k - 1) + {(id, k - 1)};
    }
  }

  /** The pages the first `n` parameters of an order have. */
  function PagesOf(c: Config, params: Params, order: seq<ParamId>, n: nat): set<Key>
    requires n <= |order|
  {
    if n == 0 then {} else PagesOf(c, params, order, n - 1) + KeysOf(order[n - 1], CountOf(c, params, order[n - 1]))
  }

  lemma {:induction false} AllLoaded(w: Wire, blobs: Blobs, c: Config, params: Params, pages: Pages, keys: seq<Key>, was: Pages, order: seq<ParamId>, n: nat)
    requires WireOk(w) && PagesExact(w, pages) && SavedAll(w, blobs, pages, keys) && n <= |order|
    ensures LoadedSoFar(pages, keys, was, LoadPages(w, blobs, c, params, was, order, n), PagesOf(c, params, order, n))
  {
    if n == 0 {
      forall key: Key ensures LoadedAt(pages, keys, was, was, {}, key) {
      }
    } else {
      AllLoaded(w, blobs, c, params, pages, keys, was, order, n - 1);
      ParamLoaded(w, blobs, pages, keys, was, LoadPages(w, blobs, c, params, was, order, n - 1), PagesOf(c, params, order, n - 1),
                  order[n - 1], CountOf(c, params, order[n - 1]));
    }
  }

  // ---------------------------------------------------------------- weights

  ghost predicate WeightBack(params: Params, now: Params, id: ParamId) {
    id in params && id in now && now[id].data.data == params[id].data.data
  }

  ghost predicate WeightsRestored(params: Params, now: Params, order: seq<ParamId>, n: nat)
    requires n <= |order|
  {
    forall i: nat {:trigger WeightBack(params, now, order[i])} :: i < n ==> WeightBack(params, now, order[i])
  }

  lemma OneWeightBack(w: Wire, blobs: Blobs, now: Params, id: ParamId, data: seq<real>)
    requires WireOk(w) && id in now && |now[id].data.data| == |data|
    requires WeightIs(w, blobs, id, data) && Exact(w, data)
    ensures LoadWeight(w, blobs, now, true, id) == (now[id := WithData(now[id], data)], true)
  {
    BufferRoundTrip(w, data);
  }

  /** Registries of equal sizes; the first `n` weights of the order are in place. */
  ghost predicate WeightsPlaced(params: Params, order: seq<ParamId>, n: nat, now: Params)
    requires n <= |order|
  {
    SameSizes(params, now) && WeightsRestored(params, now, order, n)
  }

  lemma OneMorePlaced(params: Params, order: seq<ParamId>, n: nat, now: Params)
    requires n < |order| && WeightsPlaced(params, order, n, now) && order[n] in params
    ensures order[n] in now && |now[order[n]].data.data| == |params[order[n]].data.data|
    ensures WeightsPlaced(params, order, n + 1, now[order[n] := WithData(now[order[n]], params[order[n]].data.data)])
  {
    var next := now[order[n] := WithData(now[order[n]], params[order[n]].data.data)];
    forall i: nat | i < n + 1 ensures WeightBack(params, next, order[i]) {
      if i < n { assert WeightBack(params, now, order[i]); }
    }
  }

  lemma {:induction false} WeightsBack(w: Wire, blobs: Blobs, params: Params, live: Params, order: seq<ParamId>, n: nat) returns (now: Params)
    requires WireOk(w) && n <= |order| && SameSizes(params, live) && WeightsThere(w, blobs, params, order)
    requires WeightsExact(w, params)
    ensures LoadWeights(w, blobs, live, order, n) == (now, true) && WeightsPlaced(params, order, n, now)
  {
    now := live;
    if n > 0 {
      var prev := WeightsBack(w, blobs, params, live, order, n - 1);
      var data := WeightThere(w, blobs, params, order, n - 1);
      OneMorePlaced(params, order, n - 1, prev);
      OneWeightBack(w, blobs, prev, order[n - 1], data);
      now := prev[order[n - 1] := WithData(prev[order[n - 1]], data)];
    }
  }

  lemma WeightThere(w: Wire, blobs: Blobs, params: Params, order: seq<ParamId>, i: nat) returns (data: seq<real>)
    requires i < |order| && WeightsThere(w, blobs, params, order) && WeightsExact(w, params)
    ensures order[i] in params && data == params[order[i]].data.data && WeightIs(w, blobs, order[i], data) && Exact(w, data)
  {
    assert WeightAt(w, blobs, params, order, i) && ExactAt(w, params, order[i]);
    data := params[order[i]].data.data;
  }

  // ---------------------------------------------------------------- main result

  /** Saved pages with colliding names hold equal moments. */
  ghost predicate MatesEqual(pages: Pages) {
    forall a, b {:trigger Mates(a, b)} :: a in pages && b in pages && Mates(a, b) ==> pages[a].m == pages[b].m && pages[a].v == pages[b].v
  }

  ghost predicate PagesRestored(pages: Pages, now: Pages) {
    forall key {:trigger now[key]} :: key in pages ==> key in now && now[key].m == pages[key].m && now[key].v == pages[key].v
  }

  /** Every saved page belongs to a registered parameter. */
  ghost predicate PagesRegistered(c: Config, params: Params, pages: Pages) {
    forall key {:trigger pages[key]} :: key in pages ==> key.1 < CountOf(c, params, key.0)
  }

  lemma {:induction false} PagesOfHas(c: Config, params: Params, order: seq<ParamId>, n: nat, key: Key)
    requires n <= |order|
    ensures key in PagesOf(c, params, order, n) <==> key.0 in order[..n] && key.1 < CountOf(c, params, key.0)
  {
    if n > 0 {
      PagesOfHas(c, params, order, n - 1, key);
      assert order[..n] == order[..n - 1] + [order[n - 1]];
    }
  }

  lemma {:induction false} LastMateExists(keys: seq<Key>, n: nat, key: Key, i: nat)
    requires i < n <= |keys| && Mates(keys[i], key)
    ensures LastMate(keys, n, key).Some?
  {
    if i < n - 1 { LastMateExists(keys, n - 1, key, i); }
  }

  lemma {:induction false} MatesShareLast(keys: seq<Key>, n: nat, a: Key, b: Key)
    requires n <= |keys| && Mates(a, b)
    ensures LastMate(keys, n, a) == LastMate(keys, n, b)
  {
    if n > 0 { MatesShareLast(keys, n - 1, a, b); }
  }

  lemma SameCounts(c: Config, params: Params, live: Params, id: ParamId)
    requires SameSizes(params, live)
    ensures CountOf(c, params, id) == CountOf(c, live, id)
  {
  }

  /** Every saved page is loaded with the moments of the last page of its name. */
  lemma PageLoaded(c: Config, params: Params, order: seq<ParamId>, pages: Pages, keys: seq<Key>, was: Pages, now: Pages, key: Key)
    requires Visits(order, params) && PagesRegistered(c, params, pages) && (forall o {:trigger o in keys} :: o in keys <==> o in pages)
    requires LoadedSoFar(pages, keys, was, now, PagesOf(c, params, order, |order|)) && key in pages
    ensures var o := LastMate(keys, |keys|, key);
            o.Some? && o.value in pages && Mates(o.value, key) && key in now && now[key].m == pages[o.value].m && now[key].v == pages[o.value].v
  {
    assert key in keys && key.1 < CountOf(c, params, key.0);
    var i :| 0 <= i < |keys| && keys[i] == key;
    LastMateExists(keys, |keys|, key, i);
    PagesOfHas(c, params, order, |order|, key);
    assert order[..|order|] == order && (key.0 in order <==> key.0 in params);
    assert LoadedAt(pages, keys, was, now, PagesOf(c, params, order, |order|), key);
  }

  /** Main theorem. Save in any order and load in any order: the load succeeds with every weight
      back, and every saved page is back if and only if pages whose names collide, those of one
      adapter matrix at different injection points, were equal. */
  lemma PagedRoundTripIff(w: Wire, c: Config, params: Params, saves: seq<ParamId>, pages: Pages, keys: seq<Key>,
                          live: Params, was: Pages, loads: seq<ParamId>)
    requires WireOk(w) && PagesExact(w, pages) && WeightsExact(w, params)
    requires Visits(saves, params) && Visits(loads, params) && SameSizes(params, live)
    requires PagesRegistered(c, params, pages) && forall o {:trigger o in keys} :: o in keys <==> o in pages
    ensures AllRegistered(saves, params) && AllPages(keys, pages)
    ensures var r := PagedLoad(w, PagedSave(w, params, saves, pages, keys), c, live, was, loads);
            r.ok && AllData(params, r.params) && (PagesRestored(pages, r.pages) <==> MatesEqual(pages))
  {
    InRegistry(saves, params);
    assert AllPages(keys, pages) by { assert forall i :: 0 <= i < |keys| ==> keys[i] in keys; }
    SaveHolds(w, params, saves, pages, keys);
    LoadHolds(w, c, params, saves, pages, keys, live, was, loads, PagedSave(w, params, saves, pages, keys));
  }

  lemma LoadHolds(w: Wire, c: Config, params: Params, saves: seq<ParamId>, pages: Pages, keys: seq<Key>,
                  live: Params, was: Pages, loads: seq<ParamId>, blobs: Blobs)
    requires WireOk(w) && PagesExact(w, pages) && WeightsExact(w, params)
    requires Visits(saves, params) && Visits(loads, params) && SameSizes(params, live)
    requires PagesRegistered(c, params, pages) && forall o {:trigger o in keys} :: o in keys <==> o in pages
    requires SavedAll(w, blobs, pages, keys) && WeightsThere(w, blobs, params, saves)
    ensures var r := PagedLoad(w, blobs, c, live, was, loads);
            r.ok && AllData(params, r.params) && (PagesRestored(pages, r.pages) <==> MatesEqual(pages))
  {
    SameWeights(w, blobs, params, saves, loads);
    var now := WeightsBack(w, blobs, params, live, loads, |loads|);
    forall id | id in params ensures now[id].data.data == params[id].data.data {
      assert id in loads;
      var i: nat :| i < |loads| && loads[i] == id;
      assert WeightBack(params, now, loads[i]);
    }
    AllLoaded(w, blobs, c, now, pages, keys, was, loads, |loads|);
    SamePages(c, params, now, loads, |loads|);
    RestoredIff(c, params, loads, pages, keys, was, LoadPages(w, blobs, c, now, was, loads, |loads|));
  }

  lemma SameWeights(w: Wire, blobs: Blobs, params: Params, saves: seq<ParamId>, loads: seq<ParamId>)
    requires Visits(saves, params) && Visits(loads, params) && WeightsThere(w, blobs, params, saves)
    ensures WeightsThere(w, blobs, params, loads)
  {
    forall i: nat | i < |loads| ensures WeightAt(w, blobs, params, loads, i) {
      assert loads[i] in loads && loads[i] in saves;
      var k: nat :| k < |saves| && saves[k] == loads[i];
      assert WeightAt(w, blobs, params, saves, k);
    }
  }

  lemma {:induction false} SamePages(c: Config, params: Params, now: Params, order: seq<ParamId>, n: nat)
    requires SameSizes(params, now) && n <= |order|
    ensures PagesOf(c, params, order, n) == PagesOf(c, now, order, n)
  {
    if n > 0 {
      SamePages(c, params, now, order, n - 1);
      SameCounts(c, params, now, order[n - 1]);
    }
  }

  lemma RestoredIff(c: Config, params: Params, order: seq<ParamId>, pages: Pages, keys: seq<Key>, was: Pages, now: Pages)
    requires Visits(order, params) && PagesRegistered(c, params, pages) && forall o {:trigger o in keys} :: o in keys <==> o in pages
    requires LoadedSoFar(pages, keys, was, now, PagesOf(c, params, order, |order|))
    ensures PagesRestored(pages, now) <==> MatesEqual(pages)
  {
    if PagesRestored(pages, now) {
      forall a, b | a in pages && b in pages && Mates(a, b) ensures pages[a].m == pages[b].m && pages[a].v == pages[b].v {
        PageLoaded(c, params, order, pages, keys, was, now, a);
        PageLoaded(c, params, order, pages, keys, was, now, b);
        MatesShareLast(keys, |keys|, a, b);
      }
    }
    if MatesEqual(pages) {
      forall key | key in pages ensures key in now && now[key].m == pages[key].m && now[key].v == pages[key].v {
        PageLoaded(c, params, order, pages, keys, was, now, key);
      }
    }
  }

  // ---------------------------------------------------------------- the loops

  /** `save_param_data_only`. */
  method SaveWeightsOnly(w: Wire, params: Params, order: seq<ParamId>) returns (blobs: Blobs)
    requires AllRegistered(order, params)
    ensures blobs == SaveWeights(w, params, order, |order|)
  {
    blobs := map[];
    for i := 0 to |order|
      invariant blobs == SaveWeights(w, params, order, i)
    {
      blobs := blobs[WeightSlot(order[i]) := EncodeBuffer(w, params[order[i]].data.data)];
    }
  }

  method SaveOnePage(w: Wire, blobs: Blobs, id: ParamId, p: nat, page: Page) returns (out: Blobs)
    ensures out == SavePage(w, blobs, (id, p), page)
  {
    out := blobs[PagedMKey(id, p) := EncodeBuffer(w, page.m)];
    out := out[PagedVKey(id, p) := EncodeBuffer(w, page.v)];
  }

  /** `save_to_train_state`: weights in the order of the registry, pages in the order of their map. */
  method SavePagedState(w: Wire, opt: PagedOptimizer, params: Params, order: seq<ParamId>, keys: seq<Key>) returns (blobs: Blobs)
    requires AllRegistered(order, params) && AllPages(keys, opt.pages)
    ensures blobs == PagedSave(w, params, order, opt.pages, keys)
  {
    blobs := SaveWeightsOnly(w, params, order);
    ghost var weights := blobs;
    for i := 0 to |keys|
      invariant blobs == SavePages(w, weights, opt.pages, keys, i)
    {
      blobs := SaveOnePage(w, blobs, keys[i].0, keys[i].1, opt.pages[keys[i]]);
    }
  }

  method ReadPageBlob(w: Wire, blobs: Blobs, name: string, fallback: string) returns (xs: Option<seq<real>>)
    requires w.width > 0
    ensures xs == ReadPage(w, blobs, name, fallback)
  {
    if name in blobs {
      xs := DecodeBuffer(w, blobs[name]);
    } else if fallback in blobs {
      xs := DecodeBuffer(w, blobs[fallback]);
    } else {
      xs := None;
    }
  }

  /** The page loop of one parameter. */
  method LoadParamPages(w: Wire, opt: PagedOptimizer, blobs: Blobs, id: ParamId, count: nat)
    requires w.width > 0
    modifies opt`pages
    ensures opt.pages == LoadPagesOf(w, blobs, old(opt.pages), id, count)
  {
    for p := 0 to count
      invariant opt.pages == LoadPagesOf(w, blobs, old(opt.pages), id, p)
    {
      var key := (id, p);
      var m := ReadPageBlob(w, blobs, PagedMKey(id, p), MSlot(id));
      if m.Some? {
        var page := if key in opt.pages then opt.pages[key] else FreshPage(|m.value|);
        opt.pages := opt.pages[key := page.(m := m.value)];
      }
      var v := ReadPageBlob(w, blobs, PagedVKey(id, p), VSlot(id));
      if v.Some? {
        var page := if key in opt.pages then opt.pages[key] else FreshPage(|v.value|);
        opt.pages := opt.pages[key := page.(v := v.value)];
      }
    }
  }

  lemma {:induction false} WeightFailureStays(w: Wire, blobs: Blobs, params: Params, order: seq<ParamId>, n: nat, hi: nat)
    requires w.width > 0 && n <= hi <= |order| && !LoadWeights(w, blobs, params, order, n).1
    ensures LoadWeights(w, blobs, params, order, hi) == LoadWeights(w, blobs, params, order, n)
  {
    if n < hi { WeightFailureStays(w, blobs, params, order, n, hi - 1); }
  }

  method LoadOneWeight(w: Wire, blobs: Blobs, params: Params, id: ParamId) returns (out: Params, ok: bool)
    requires w.width > 0 && id in params
    ensures (out, ok) == LoadWeight(w, blobs, params, true, id) && out.Keys == params.Keys
  {
    out, ok := params, true;
    if WeightSlot(id) in blobs {
      var xs := DecodeBuffer(w, blobs[WeightSlot(id)]);
      if xs.None? || |xs.value| != |params[id].data.data| { return out, false; }
      out := out[id := WithData(out[id], xs.value)];
    }
  }

  /** `load_param_data_only`. */
  method LoadWeightsOnly(w: Wire, blobs: Blobs, params: Params, order: seq<ParamId>) returns (out: Params, ok: bool)
    requires w.width > 0 && AllRegistered(order, params)
    ensures (out, ok) == LoadWeights(w, blobs, params, order, |order|)
  {
    out, ok := params, true;
    for i := 0 to |order|
      invariant (out, ok) == LoadWeights(w, blobs, params, order, i) && ok && out.Keys == params.Keys
    {
      out, ok := LoadOneWeight(w, blobs, out, order[i]);
      if !ok {
        WeightFailureStays(w, blobs, params, order, i + 1, |order|);
        return;
      }
    }
  }

  /** `load_from_train_state`: nothing is loaded into the pages when a weight fails. */
  method LoadPagedState(w: Wire, opt: PagedOptimizer, params: Params, step: nat, blobs: Blobs, order: seq<ParamId>) returns (out: Params, ok: bool)
    requires w.width > 0 && AllRegistered(order, params)
    modifies opt`stepCount, opt`pages
    ensures PagedLoading(out, opt.pages, ok) == PagedLoad(w, blobs, opt.config, params, old(opt.pages), order)
    ensures opt.stepCount == step
  {
    opt.stepCount := step;
    out, ok := LoadWeightsOnly(w, blobs, params, order);
    if !ok { return; }
    for i := 0 to |order|
      invariant opt.stepCount == step && ok
      invariant opt.pages == LoadPages(w, blobs, opt.config, out, old(opt.pages), order, i)
    {
      LoadParamPages(w, opt, blobs, order[i], CountOf(opt.config, out, order[i]));
    }
  }
}
