/** The whole strict attention kernels: every head, every query, grouped key heads and the causal
    clamp, over flat buffers. */
module AttentionKernels {
  import opened Grids
  import opened Places
  import opened OnlineSoftmax
  import opened Attention

  /** Query, key and value buffers with their extents; `scale` stands for 1 / sqrt(dim). */
  datatype Heads = Heads(q: seq<real>, k: seq<real>, v: seq<real>, heads: nat, kvHeads: nat, dim: nat, scale: real)

  predicate HeadsFit(x: Heads, queries: nat, keys: nat) {
    && |x.q| == queries * (x.heads * x.dim)
    && |x.k| == |x.v| == keys * (x.kvHeads * x.dim)
  }

  function LaneOf(x: Heads, h: nat, kvh: nat, qt: nat): Lane {
    Lane(x.q, x.k, x.v, x.dim, qt * (x.heads * x.dim) + h * x.dim, x.kvHeads * x.dim, kvh * x.dim, x.scale)
  }

  /** Row h of block qt, with blocks of `w` rows of `n` cells, ends inside `b` blocks. */
  lemma BlockRow(b: nat, w: nat, n: nat, qt: nat, h: nat)
    requires qt < b && h < w
    ensures qt * (w * n) + h * n + n <= b * (w * n)
  {
    MulMonotone(h + 1, w, n);
    MulMonotone(qt + 1, b, w * n);
    assert (h + 1) * n == h * n + n;
    assert (qt + 1) * (w * n) == qt * (w * n) + w * n;
  }

  lemma LaneOfFits(x: Heads, queries: nat, keys: nat, h: nat, kvh: nat, qt: nat)
    requires HeadsFit(x, queries, keys) && h < x.heads && kvh < x.kvHeads && qt < queries
    ensures LaneFits(LaneOf(x, h, kvh, qt), keys)
  {
    var l := LaneOf(x, h, kvh, qt);
    BlockRow(queries, x.heads, x.dim, qt, h);
    forall j | 0 <= j < keys ensures 0 <= KeyRow(l, j) && KeyRow(l, j) + l.dim <= |l.k| {
      KeyRowFits(l, keys, x.kvHeads, kvh, j);
    }
  }

  lemma KeyRowFits(l: Lane, keys: nat, kvHeads: nat, kvh: nat, j: nat)
    requires j < keys && kvh < kvHeads && l.stride == kvHeads * l.dim && l.kvOff == kvh * l.dim && |l.k| == keys * (kvHeads * l.dim)
    ensures 0 <= KeyRow(l, j) && KeyRow(l, j) + l.dim <= |l.k|
  {
    BlockRow(keys, kvHeads, l.dim, j, kvh);
  }

  // ---------------------------------------------------------------- grouped key heads

  /** The two kernels pick the key head differently; they agree when the key heads divide the
      query heads. */
  lemma GroupsAgree(heads: nat, kvHeads: nat, h: nat)
    requires kvHeads > 0 && heads % kvHeads == 0 && h < heads
    ensures heads / kvHeads > 0 && h * kvHeads / heads == h / (heads / kvHeads) < kvHeads
  {
    var g := heads / kvHeads;
    assert heads == g * kvHeads;
    var a, r := h / g, h % g;
    assert h == a * g + r;
    GroupQuotient(h, a, g, r, kvHeads, heads);
    if a >= kvHeads { MulMonotone(kvHeads, a, g); }
  }

  lemma GroupQuotient(h: nat, a: nat, g: nat, r: nat, n: nat, heads: nat)
    requires n > 0 && r < g && h == a * g + r && heads == g * n
    ensures heads > 0 && h * n / heads == a
  {
    MulMonotone(1, g, n);
    MulMonotone(r + 1, g, n);
    assert (r + 1) * n == r * n + n;
    assert h * n == a * heads + r * n;
    DivModUnique(a, r * n, heads);
  }

  // ---------------------------------------------------------------- the one-pass kernel

  /** The key head the one-pass kernel reads for query head `h`. */
  function GroupOf(x: Heads, h: nat): nat
    requires x.kvHeads > 0
  {
    if x.heads / x.kvHeads == 0 then 0 else h / (x.heads / x.kvHeads)
  }

  /** The partial result of one (head, query) pair over the keys jStart..jEnd below the causal
      bound offset + qt + 1. */
  function Expected(e: real -> real, x: Heads, keys: nat, offset: nat, jStart: nat, jEnd: nat, h: nat, qt: nat): Partial
    requires x.kvHeads > 0
  {
    var l := LaneOf(x, h, GroupOf(x, h), qt);
    var hi := Least(offset + qt + 1, keys);
    var lo, he := Least(jStart, hi), Least(jEnd, hi);
    Online(e, Scores(l), Values(l), x.dim, lo, if lo <= he then he else lo)
  }

  /** Results in the order they are pushed: head by head, query by query. */
  function Pushed<T>(f: (int, int) -> T, queries: nat, h: nat, qt: nat): (r: seq<T>)
    decreases h, qt
  {
    if qt > 0 then Pushed(f, queries, h, qt - 1) + [f(h, qt - 1)]
    else if h > 0 then Pushed(f, queries, h - 1, queries)
    else []
  }

  lemma {:induction false} PushedLength<T>(f: (int, int) -> T, queries: nat, h: nat, qt: nat)
    ensures |Pushed(f, queries, h, qt)| == h * queries + qt
    decreases h, qt
  {
    if qt > 0 {
      PushedLength(f, queries, h, qt - 1);
    } else if h > 0 {
      PushedLength(f, queries, h - 1, queries);
      assert h * queries == (h - 1) * queries + queries;
    }
  }

  /** Head-major order of (head, query) pairs. */
  predicate Precedes(a: nat, b: nat, h: nat, qt: nat) {
    a < h || (a == h && b < qt)
  }

  /** Where the result of (h, qt) ends up. */
  lemma {:induction false} PushedAt<T>(f: (int, int) -> T, queries: nat, h: nat, qt: nat, a: nat, b: nat)
    requires b < queries && qt <= queries && Precedes(a, b, h, qt)
    ensures 0 <= a * queries + b < |Pushed(f, queries, h, qt)| && Pushed(f, queries, h, qt)[a * queries + b] == f(a, b)
    decreases h, qt
  {
    PushedLength(f, queries, h, qt);
    if qt > 0 {
      PushedLength(f, queries, h, qt - 1);
      if !(a == h && b == qt - 1) { PushedAt(f, queries, h, qt - 1, a, b); }
    } else {
      PushedAt(f, queries, h - 1, queries, a, b);
    }
  }

  ghost function ExpectedAt(e: real -> real, x: Heads, keys: nat, offset: nat, jStart: nat, jEnd: nat): (int, int) -> Partial
    requires x.kvHeads > 0
  {
    (h, qt) => if h >= 0 && qt >= 0 then Expected(e, x, keys, offset, jStart, jEnd, h, qt) else EmptyPartial(0)
  }

  /** `strict_attention_partial_online`. */
  method PartialOnline(e: real -> real, x: Heads, queries: nat, keys: nat, offset: nat, jStart: nat, jEnd: nat) returns (results: seq<Partial>)
    requires x.kvHeads > 0 && x.heads % x.kvHeads == 0 && x.dim > 0 && HeadsFit(x, queries, keys)
    ensures results == Pushed(ExpectedAt(e, x, keys, offset, jStart, jEnd), queries, x.heads, 0)
  {
    var qPerKv := x.heads / x.kvHeads;
    ghost var f := ExpectedAt(e, x, keys, offset, jStart, jEnd);
    results := [];
    for h := 0 to x.heads
      invariant results == Pushed(f, queries, h, 0)
    {
      GroupsAgree(x.heads, x.kvHeads, h);
      var kvHead := h / qPerKv;
      results := HeadResults(e, x, queries, keys, offset, jStart, jEnd, h, kvHead, results);
    }
  }

  /** The query loop of one head. */
  method HeadResults(e: real -> real, x: Heads, queries: nat, keys: nat, offset: nat, jStart: nat, jEnd: nat, h: nat, kvHead: nat, before: seq<Partial>) returns (results: seq<Partial>)
    requires x.kvHeads > 0 && h < x.heads && kvHead == GroupOf(x, h) < x.kvHeads && x.dim > 0 && HeadsFit(x, queries, keys)
    requires before == Pushed(ExpectedAt(e, x, keys, offset, jStart, jEnd), queries, h, 0)
    ensures results == Pushed(ExpectedAt(e, x, keys, offset, jStart, jEnd), queries, h, queries)
  {
    results := before;
    for qt := 0 to queries
      invariant results == Pushed(ExpectedAt(e, x, keys, offset, jStart, jEnd), queries, h, qt)
    {
      LaneOfFits(x, queries, keys, h, kvHead, qt);
      var p := OneResult(e, x, keys, offset, jStart, jEnd, h, kvHead, qt);
      results := results + [p];
    }
  }

  method OneResult(e: real -> real, x: Heads, keys: nat, offset: nat, jStart: nat, jEnd: nat, h: nat, kvHead: nat, qt: nat) returns (p: Partial)
    requires x.kvHeads > 0 && kvHead == GroupOf(x, h) && x.dim > 0
    requires LaneFits(LaneOf(x, h, kvHead, qt), keys)
    ensures p == Expected(e, x, keys, offset, jStart, jEnd, h, qt)
  {
    var l := LaneOf(x, h, kvHead, qt);
    var hi := Least(offset + qt + 1, keys);
    var lo, hiEff := Least(jStart, hi), Least(jEnd, hi);
    assert LaneFits(l, hiEff);
    p := OnlineLane(e, l, lo, hiEff);
  }

  // ---------------------------------------------------------------- the two-pass kernel

  /** Where the output row of (h, qt) starts. */
  function RowStart(heads: nat, dim: nat, h: nat, qt: nat): nat {
    PlaceOf(PlaceOf(qt, heads, h), dim, 0)
  }

  lemma RowStartIs(heads: nat, dim: nat, queries: nat, h: nat, qt: nat)
    requires h < heads && qt < queries
    ensures RowStart(heads, dim, h, qt) == qt * (heads * dim) + h * dim
    ensures RowStart(heads, dim, h, qt) + dim <= queries * (heads * dim)
  {
    PlaceIs(qt, heads, h);
    PlaceIs(qt * heads + h, dim, 0);
    assert (qt * heads + h) * dim == qt * (heads * dim) + h * dim;
    BlockRow(queries, heads, dim, qt, h);
  }

  lemma RowStartsApart(heads: nat, dim: nat, h: nat, qt: nat, a: nat, b: nat)
    requires h < heads && a < heads && (h != a || qt != b)
    ensures RowStart(heads, dim, h, qt) + dim <= RowStart(heads, dim, a, b) || RowStart(heads, dim, a, b) + dim <= RowStart(heads, dim, h, qt)
  {
    PlacesApart(heads, qt, h, b, a);
    var r, s := PlaceOf(qt, heads, h), PlaceOf(b, heads, a);
    PlaceIs(r, dim, 0);
    PlaceIs(s, dim, 0);
    RowsDisjoint(dim, r, s);
  }

  method StoreRow(out: array<real>, off: nat, row: seq<real>)
    requires off + |row| <= out.Length
    modifies out
    ensures Replaces(old(out[..]), out[..], off, row)
  {
    for d := 0 to |row|
      invariant forall p :: 0 <= p < out.Length ==> out[p] == if off <= p < off + d then row[p - off] else old(out[p])
    {
      out[off + d] := row[d];
    }
  }

  function KeyHead(x: Heads, h: nat): nat {
    h * x.kvHeads / (if x.heads > 1 then x.heads else 1)
  }

  lemma KeyHeadInRange(x: Heads, h: nat)
    requires h < x.heads && x.kvHeads > 0
    ensures KeyHead(x, h) < x.kvHeads
  {
    var q := KeyHead(x, h);
    MulMonotone(h + 1, x.heads, x.kvHeads);
    assert (h + 1) * x.kvHeads == h * x.kvHeads + x.kvHeads;
    if q >= x.kvHeads { MulMonotone(x.kvHeads, q, x.heads); }
  }

  /** The attended row of (h, qt), over the keys 0, ..., n - 1. */
  ghost predicate IsAttended(e: real -> real, x: Heads, n: nat, h: nat, qt: nat, row: seq<real>) {
    var l := LaneOf(x, h, KeyHead(x, h), qt);
    && n > 0 && |row| == x.dim
    && IsPositive(Weighted(e, Scores(l), One(), RunMax(Scores(l), 0, n).value, 0, n))
    && forall d {:trigger row[d]} :: 0 <= d < x.dim ==> row[d] == Attended(e, l, n)(d)
  }

  /** The output rows of the pairs before (h, qt) are final. */
  ghost predicate RowsDone(e: real -> real, x: Heads, n: nat, out: seq<real>, h: nat, qt: nat) {
    forall a: nat, b: nat {:trigger RowStart(x.heads, x.dim, a, b)} :: a < x.heads && b < n && Precedes(a, b, h, qt) ==>
      IsAttended(e, x, n, a, b, RowFrom(out, x.dim, RowStart(x.heads, x.dim, a, b)))
  }

  lemma RowDone(e: real -> real, x: Heads, n: nat, s: seq<real>, t: seq<real>, h: nat, qt: nat, row: seq<real>)
    requires |s| == n * (x.heads * x.dim) && h < x.heads && qt < n && |row| == x.dim && IsAttended(e, x, n, h, qt, row)
    requires RowsDone(e, x, n, s, h, qt) && Replaces(s, t, RowStart(x.heads, x.dim, h, qt), row)
    ensures RowsDone(e, x, n, t, h, qt + 1)
  {
    forall a: nat, b: nat | a < x.heads && b < n && Precedes(a, b, h, qt + 1)
      ensures IsAttended(e, x, n, a, b, RowFrom(t, x.dim, RowStart(x.heads, x.dim, a, b)))
    {
      RowKept(x, n, s, t, h, qt, row, a, b);
    }
  }

  lemma RowKept(x: Heads, n: nat, s: seq<real>, t: seq<real>, h: nat, qt: nat, row: seq<real>, a: nat, b: nat)
    requires |s| == n * (x.heads * x.dim) && h < x.heads && qt < n && a < x.heads && b < n && |row| == x.dim
    requires Replaces(s, t, RowStart(x.heads, x.dim, h, qt), row)
    ensures var now := RowFrom(t, x.dim, RowStart(x.heads, x.dim, a, b));
            now == if a == h && b == qt then row else RowFrom(s, x.dim, RowStart(x.heads, x.dim, a, b))
  {
    var off := RowStart(x.heads, x.dim, h, qt);
    if a == h && b == qt {
      ReplacedRow(s, t, x.dim, off, row);
    } else {
      RowStartsApart(x.heads, x.dim, h, qt, a, b);
      RowStartIs(x.heads, x.dim, n, a, b);
      KeptRow(s, t, x.dim, RowStart(x.heads, x.dim, a, b), off, row);
    }
  }

  /** One (head, query) pair. */
  method OneRow(e: real -> real, x: Heads, n: nat, h: nat, kvh: nat, qt: nat, out: array<real>)
    requires IsExp(e) && h < x.heads && kvh == KeyHead(x, h) < x.kvHeads && qt < n && HeadsFit(x, n, n)
    requires out.Length == n * (x.heads * x.dim) && RowsDone(e, x, n, out[..], h, qt)
    modifies out
    ensures RowsDone(e, x, n, out[..], h, qt + 1)
  {
    ghost var before := out[..];
    LaneOfFits(x, n, n, h, kvh, qt);
    var row := TwoPassLane(e, LaneOf(x, h, kvh, qt), n);
    RowStartIs(x.heads, x.dim, n, h, qt);
    StoreRow(out, qt * (x.heads * x.dim) + h * x.dim, row);
    RowDone(e, x, n, before, out[..], h, qt, row);
  }

  /** `strict_attention`: `n` tokens are both the queries and the keys. */
  method StrictAttention(e: real -> real, x: Heads, n: nat) returns (out: array<real>)
    requires IsExp(e) && x.kvHeads > 0 && HeadsFit(x, n, n)
    ensures out.Length == n * (x.heads * x.dim) && RowsDone(e, x, n, out[..], x.heads, 0)
  {
    out := new real[n * (x.heads * x.dim)](_ => 0.0);
    for h := 0 to x.heads
      invariant RowsDone(e, x, n, out[..], h, 0)
    {
      var kvh := h * x.kvHeads / (if x.heads > 1 then x.heads else 1);
      KeyHeadInRange(x, h);
      for qt := 0 to n
        invariant RowsDone(e, x, n, out[..], h, qt)
      {
        OneRow(e, x, n, h, kvh, qt, out);
      }
      assert forall a: nat, b: nat :: b < n && Precedes(a, b, h + 1, 0) ==> Precedes(a, b, h, n);
    }
  }

  // ---------------------------------------------------------------- the two kernels agree

  /** The partials the one-pass kernel returns for (h, qt) over consecutive key ranges. */
  function ExpectedPieces(e: real -> real, x: Heads, keys: nat, offset: nat, cuts: seq<nat>, h: nat, qt: nat): (ps: seq<Partial>)
    requires x.kvHeads > 0
    ensures forall i :: 0 <= i < |ps| ==> |ps[i].acc| == x.dim
  {
    if |cuts| < 2 then []
    else ExpectedPieces(e, x, keys, offset, cuts[..|cuts| - 1], h, qt) +
         [Expected(e, x, keys, offset, cuts[|cuts| - 2], cuts[|cuts| - 1], h, qt)]
  }

  function Clamped(cuts: seq<nat>, hi: nat): (r: seq<nat>)
    ensures |r| == |cuts| && forall i :: 0 <= i < |r| ==> r[i] == Least(cuts[i], hi)
  {
    seq(|cuts|, i requires 0 <= i < |cuts| => Least(cuts[i], hi))
  }

  /** The causal clamp only moves the cuts. */
  lemma {:induction false} PiecesAreExpected(e: real -> real, x: Heads, keys: nat, offset: nat, cuts: seq<nat>, h: nat, qt: nat)
    requires x.kvHeads > 0 && Ascending(cuts)
    ensures var l := LaneOf(x, h, GroupOf(x, h), qt);
            var moved := Clamped(cuts, Least(offset + qt + 1, keys));
            Ascending(moved) && ExpectedPieces(e, x, keys, offset, cuts, h, qt) == Pieces(e, Scores(l), Values(l), x.dim, moved)
  {
    if |cuts| >= 2 {
      var n, hi := |cuts| - 1, Least(offset + qt + 1, keys);
      PiecesAreExpected(e, x, keys, offset, cuts[..n], h, qt);
      assert Clamped(cuts, hi)[..n] == Clamped(cuts[..n], hi);
    }
  }

  /** However a key range is split over calls of the one-pass kernel, merging their results gives
      what one call over the whole range returns, whatever the causal clamp cuts away. */
  lemma SplitCallsMerge(e: real -> real, x: Heads, keys: nat, offset: nat, cuts: seq<nat>, h: nat, qt: nat)
    requires IsExp(e) && x.kvHeads > 0 && Ascending(cuts) && |cuts| > 0
    ensures MergeAll(e, ExpectedPieces(e, x, keys, offset, cuts, h, qt), x.dim) ==
            Expected(e, x, keys, offset, cuts[0], cuts[|cuts| - 1], h, qt)
  {
    var l := LaneOf(x, h, GroupOf(x, h), qt);
    PiecesAreExpected(e, x, keys, offset, cuts, h, qt);
    MergeAllOfPieces(e, Scores(l), Values(l), x.dim, Clamped(cuts, Least(offset + qt + 1, keys)));
    assert cuts[0] <= cuts[|cuts| - 1];
  }

  /** Main theorem: with the key heads dividing the query heads, however the keys are split over
      calls of the one-pass kernel, merging and normalising its results gives the row that the
      two-pass kernel computes over the keys below the causal bound. */
  lemma SplitAttentionIsAttention(e: real -> real, x: Heads, n: nat, offset: nat, cuts: seq<nat>, h: nat, qt: nat)
    requires IsExp(e) && x.kvHeads > 0 && x.heads % x.kvHeads == 0 && h < x.heads && n > 0
    requires Ascending(cuts) && |cuts| > 0 && cuts[0] == 0 && cuts[|cuts| - 1] >= Least(offset + qt + 1, n)
    ensures IsAttended(e, x, Least(offset + qt + 1, n), h, qt, Finalized(MergeAll(e, ExpectedPieces(e, x, n, offset, cuts, h, qt), x.dim)))
  {
    GroupsAgree(x.heads, x.kvHeads, h);
    var l, hi := LaneOf(x, h, KeyHead(x, h), qt), Least(offset + qt + 1, n);
    PiecesAreExpected(e, x, n, offset, cuts, h, qt);
    var row := Finalized(MergeAll(e, ExpectedPieces(e, x, n, offset, cuts, h, qt), x.dim));
    WeightsPositive(e, Scores(l), RunMax(Scores(l), 0, hi).value, 0, hi);
    forall d | 0 <= d < x.dim ensures row[d] == Attended(e, l, hi)(d) {
      OnePassIsTwoPass(e, l, hi, Clamped(cuts, hi), d);
    }
  }
}
