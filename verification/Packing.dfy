/** Sequence packing: the greedy prefix that fits, concatenated, with restarting positions and a
    block-diagonal causal mask. */
module Packing {
  import opened Grids
  import opened Rows

  datatype TokenSequence = TokenSequence(tokens: seq<real>, labels: seq<real>)

  /** Every token has a label; the code reads no further labels. */
  predicate Paired(seqs: seq<TokenSequence>) {
    forall s :: 0 <= s < |seqs| ==> |seqs[s].labels| >= |seqs[s].tokens|
  }

  // ---------------------------------------------------------------- specification

  /** Where sequence `s` starts: the total length of the ones before it. */
  function StartOf(seqs: seq<TokenSequence>, s: nat): nat
    requires s <= |seqs|
  {
    if s == 0 then 0 else StartOf(seqs, s - 1) + |seqs[s - 1].tokens|
  }

  function TokensOf(seqs: seq<TokenSequence>, n: nat): (r: seq<real>)
    requires n <= |seqs|
    ensures |r| == StartOf(seqs, n)
  {
    if n == 0 then [] else TokensOf(seqs, n - 1) + seqs[n - 1].tokens
  }

  function LabelsOf(seqs: seq<TokenSequence>, n: nat): (r: seq<real>)
    requires n <= |seqs| && Paired(seqs)
    ensures |r| == StartOf(seqs, n)
  {
    if n == 0 then [] else LabelsOf(seqs, n - 1) + seqs[n - 1].labels[..|seqs[n - 1].tokens|]
  }

  function Count(n: nat): (r: seq<nat>)
    ensures |r| == n && forall i :: 0 <= i < n ==> r[i] == i
  {
    seq(n, i requires 0 <= i < n => i)
  }

  function PositionsOf(seqs: seq<TokenSequence>, n: nat): (r: seq<nat>)
    requires n <= |seqs|
    ensures |r| == StartOf(seqs, n)
  {
    if n == 0 then [] else PositionsOf(seqs, n - 1) + Count(|seqs[n - 1].tokens|)
  }

  /** `cu_seqlens`. */
  function StartsOf(seqs: seq<TokenSequence>, n: nat): (r: seq<nat>)
    requires n <= |seqs|
    ensures |r| == n + 1 && forall s :: 0 <= s <= n ==> r[s] == StartOf(seqs, s)
  {
    if n == 0 then [0] else StartsOf(seqs, n - 1) + [StartOf(seqs, n)]
  }

  /** The first `n` sequences can be packed together. */
  ghost predicate PrefixFits(seqs: seq<TokenSequence>, n: nat, maxLen: nat, maxSeqs: nat) {
    n <= |seqs| && StartOf(seqs, n) <= maxLen && n <= maxSeqs
  }

  /** `n` sequences are taken: they fit, and the next one does not. */
  ghost predicate Greedy(seqs: seq<TokenSequence>, n: nat, maxLen: nat, maxSeqs: nat) {
    PrefixFits(seqs, n, maxLen, maxSeqs) && (n < |seqs| ==> !PrefixFits(seqs, n + 1, maxLen, maxSeqs))
  }

  lemma {:induction false} StartsGrow(seqs: seq<TokenSequence>, a: nat, b: nat)
    requires a <= b <= |seqs|
    ensures StartOf(seqs, a) <= StartOf(seqs, b)
  {
    if a < b { StartsGrow(seqs, a, b - 1); }
  }

  /** Greedy stops at the longest prefix that has at most `maxLen` tokens and `maxSeqs` sequences. */
  lemma GreedyIsLongest(seqs: seq<TokenSequence>, n: nat, m: nat, maxLen: nat, maxSeqs: nat)
    requires Greedy(seqs, n, maxLen, maxSeqs)
    ensures m <= |seqs| && StartOf(seqs, m) <= maxLen && m <= maxSeqs <==> m <= n
  {
    if m <= n { StartsGrow(seqs, m, n); }
    if m > n && m <= |seqs| { StartsGrow(seqs, n + 1, m); }
  }

  /** Positions i and j lie in one sequence, j not after i. */
  ghost predicate Visible(seqs: seq<TokenSequence>, n: nat, i: nat, j: nat)
    requires n <= |seqs|
  {
    exists s: nat {:trigger StartOf(seqs, s)} :: s < n && StartOf(seqs, s) <= j <= i < StartOf(seqs, s + 1)
  }

  ghost function MaskRow(seqs: seq<TokenSequence>, n: nat, i: nat): int -> real
    requires n <= |seqs|
  {
    j => if j >= 0 && Visible(seqs, n, i, j) then 1.0 else 0.0
  }

  /** Position `p` is entry `p - StartOf(s)` of sequence `s`. */
  ghost predicate InSequence(seqs: seq<TokenSequence>, s: nat, p: nat) {
    s < |seqs| && StartOf(seqs, s) <= p < StartOf(seqs, s + 1)
  }

  lemma {:induction false} SomeSequence(seqs: seq<TokenSequence>, n: nat, p: nat) returns (s: nat)
    requires n <= |seqs| && p < StartOf(seqs, n)
    ensures s < n && InSequence(seqs, s, p)
  {
    if p >= StartOf(seqs, n - 1) { s := n - 1; } else { s := SomeSequence(seqs, n - 1, p); }
  }

  lemma OneSequence(seqs: seq<TokenSequence>, s: nat, t: nat, p: nat)
    requires InSequence(seqs, s, p) && InSequence(seqs, t, p)
    ensures s == t
  {
    if s < t { StartsGrow(seqs, s + 1, t); }
    if t < s { StartsGrow(seqs, t + 1, s); }
  }

  /** The packed buffers at a position of sequence `s`. */
  lemma {:induction false} PackedAt(seqs: seq<TokenSequence>, n: nat, s: nat, p: nat)
    requires n <= |seqs| && s < n && InSequence(seqs, s, p) && Paired(seqs)
    ensures p < StartOf(seqs, n)
    ensures TokensOf(seqs, n)[p] == seqs[s].tokens[p - StartOf(seqs, s)]
    ensures LabelsOf(seqs, n)[p] == seqs[s].labels[p - StartOf(seqs, s)]
    ensures PositionsOf(seqs, n)[p] == p - StartOf(seqs, s)
  {
    if s < n - 1 { PackedAt(seqs, n - 1, s, p); }
  }

  /** Main theorem: no leakage. A position sees another exactly when both belong to one sequence
      and the other is not later in it; inside a sequence, positions count from 0. */
  lemma NoLeakage(seqs: seq<TokenSequence>, n: nat, s: nat, t: nat, i: nat, j: nat)
    requires n <= |seqs| && s < n && t < n && InSequence(seqs, s, i) && InSequence(seqs, t, j) && Paired(seqs)
    ensures i < StartOf(seqs, n) && j < StartOf(seqs, n)
    ensures Visible(seqs, n, i, j) <==> s == t && PositionsOf(seqs, n)[j] <= PositionsOf(seqs, n)[i]
  {
    PackedAt(seqs, n, s, i);
    PackedAt(seqs, n, t, j);
    if u: nat :| u < n && StartOf(seqs, u) <= j <= i < StartOf(seqs, u + 1) {
      OneSequence(seqs, u, s, i);
      OneSequence(seqs, u, t, j);
    }
  }

  // ---------------------------------------------------------------- the packing loop

  datatype Packed = Packed(tokens: seq<real>, labels: seq<real>, positions: seq<nat>, cuSeqlens: seq<nat>, taken: nat)

  ghost predicate PackedIs(seqs: seq<TokenSequence>, p: Packed)
    requires Paired(seqs)
  {
    && p.taken <= |seqs|
    && p.tokens == TokensOf(seqs, p.taken) && p.labels == LabelsOf(seqs, p.taken)
    && p.positions == PositionsOf(seqs, p.taken) && p.cuSeqlens == StartsOf(seqs, p.taken)
  }

  method Append(p: Packed, seqs: seq<TokenSequence>) returns (q: Packed)
    requires Paired(seqs) && PackedIs(seqs, p) && p.taken < |seqs|
    ensures PackedIs(seqs, q) && q.taken == p.taken + 1
  {
    var s := seqs[p.taken];
    var tokens, labels, positions := p.tokens, p.labels, p.positions;
    for i := 0 to |s.tokens|
      invariant tokens == p.tokens + s.tokens[..i] && labels == p.labels + s.labels[..i] && positions == p.positions + Count(i)
    {
      tokens, labels, positions := tokens + [s.tokens[i]], labels + [s.labels[i]], positions + [i];
    }
    assert s.tokens[..|s.tokens|] == s.tokens;
    q := Packed(tokens, labels, positions, p.cuSeqlens + [|tokens|], p.taken + 1);
  }

  method Pack(seqs: seq<TokenSequence>, maxLen: nat, maxSeqs: nat) returns (p: Packed)
    requires Paired(seqs)
    ensures PackedIs(seqs, p) && Greedy(seqs, p.taken, maxLen, maxSeqs)
  {
    p := Packed([], [], [], [0], 0);
    while p.taken < |seqs|
      invariant PackedIs(seqs, p) && PrefixFits(seqs, p.taken, maxLen, maxSeqs)
      decreases |seqs| - p.taken
    {
      if |p.tokens| + |seqs[p.taken].tokens| > maxLen { break; }
      if p.taken >= maxSeqs { break; }
      p := Append(p, seqs);
    }
  }

  // ---------------------------------------------------------------- the mask loops

  /** Rows before `r` hold the mask, the rest are zero. */
  ghost predicate MaskUpTo(mask: seq<real>, seqs: seq<TokenSequence>, n: nat, r: nat)
    requires n <= |seqs|
  {
    var total := StartOf(seqs, n);
    && |mask| == total * total
    && (forall i: nat {:trigger MaskRow(seqs, n, i)} :: i < r && i < total ==> RowIs(mask, total, i, MaskRow(seqs, n, i)))
    && (forall p :: r * total <= p < |mask| ==> mask[p] == 0.0)
  }

  /** Row `i` of sequence `s`: ones from the start of the sequence to the diagonal. */
  lemma RowOfSequence(seqs: seq<TokenSequence>, n: nat, s: nat, i: nat, j: nat)
    requires n <= |seqs| && s < n && InSequence(seqs, s, i)
    ensures Visible(seqs, n, i, j) <==> StartOf(seqs, s) <= j <= i
  {
    if u: nat :| u < n && StartOf(seqs, u) <= j <= i < StartOf(seqs, u + 1) {
      OneSequence(seqs, u, s, i);
    }
  }

  /** `mask` is `before` with ones in lo, ..., hi - 1. */
  ghost predicate OnesSet(before: seq<real>, mask: seq<real>, lo: nat, hi: nat) {
    |mask| == |before| && forall p :: 0 <= p < |mask| ==> mask[p] == if lo <= p < hi then 1.0 else before[p]
  }

  method SetOnes(mask: array<real>, lo: nat, hi: nat)
    requires lo <= hi <= mask.Length
    modifies mask
    ensures OnesSet(old(mask[..]), mask[..], lo, hi)
  {
    for p := lo to hi
      invariant forall q :: 0 <= q < mask.Length ==> mask[q] == if lo <= q < p then 1.0 else old(mask[q])
    {
      mask[p] := 1.0;
    }
  }

  /** `row` is where row `i` starts; before the ones are set it is zero. */
  lemma OwnRow(before: seq<real>, mask: seq<real>, seqs: seq<TokenSequence>, n: nat, s: nat, i: nat, row: nat)
    requires n <= |seqs| && s < n && InSequence(seqs, s, i) && i < StartOf(seqs, n) && MaskUpTo(before, seqs, n, i)
    requires row == i * StartOf(seqs, n) && OnesSet(before, mask, row + StartOf(seqs, s), row + i + 1)
    ensures RowIs(mask, StartOf(seqs, n), i, MaskRow(seqs, n, i))
  {
    var total := StartOf(seqs, n);
    forall q | 0 <= q < total ensures Cell(mask, total, i, q) == MaskRow(seqs, n, i)(q) {
      FlatIndex(total, total, i, q);
      RowOfSequence(seqs, n, s, i, q);
    }
  }

  lemma RowMasked(before: seq<real>, mask: seq<real>, seqs: seq<TokenSequence>, n: nat, s: nat, i: nat, row: nat)
    requires n <= |seqs| && s < n && InSequence(seqs, s, i) && i < StartOf(seqs, n) && MaskUpTo(before, seqs, n, i)
    requires row == i * StartOf(seqs, n) && OnesSet(before, mask, row + StartOf(seqs, s), row + i + 1)
    ensures MaskUpTo(mask, seqs, n, i + 1)
  {
    OwnRow(before, mask, seqs, n, s, i, row);
    OnlyRowWritten(before, mask, StartOf(seqs, n), i, row, row + StartOf(seqs, s), row + i + 1);
    RowsJoin(before, mask, seqs, n, i, StartOf(seqs, n));
  }

  lemma RowsJoin(before: seq<real>, mask: seq<real>, seqs: seq<TokenSequence>, n: nat, i: nat, total: nat)
    requires n <= |seqs| && total == StartOf(seqs, n) && i < total && MaskUpTo(before, seqs, n, i)
    requires OnlyRow(before, mask, total, i) && RowIs(mask, total, i, MaskRow(seqs, n, i))
    ensures MaskUpTo(mask, seqs, n, i + 1)
  {
    forall k: nat | k < i + 1 && k < total ensures RowIs(mask, total, k, MaskRow(seqs, n, k)) {
      if k != i { RowSurvives(before, mask, total, i, k, MaskRow(seqs, n, k)); }
    }
    NextRowStarts(i, total);
  }

  lemma NextRowStarts(i: nat, total: nat)
    ensures (i + 1) * total == i * total + total
  {
  }

  /** Cells written inside row `i` leave every other row alone. */
  lemma OnlyRowWritten(before: seq<real>, mask: seq<real>, total: nat, i: nat, row: nat, lo: nat, hi: nat)
    requires row == i * total && row <= lo && hi <= row + total && OnesSet(before, mask, lo, hi)
    ensures OnlyRow(before, mask, total, i)
  {
  }

  /** The block of sequence `s`. */
  method MaskBlock(mask: array<real>, seqs: seq<TokenSequence>, n: nat, s: nat, start: nat, end: nat, total: nat)
    requires n <= |seqs| && s < n && start == StartOf(seqs, s) && end == StartOf(seqs, s + 1) && total == StartOf(seqs, n)
    requires MaskUpTo(mask[..], seqs, n, start)
    modifies mask
    ensures MaskUpTo(mask[..], seqs, n, end)
  {
    StartsGrow(seqs, s + 1, n);
    for i := start to end
      invariant MaskUpTo(mask[..], seqs, n, i)
    {
      MaskRowOf(mask, seqs, n, s, start, total, i);
    }
  }

  method MaskRowOf(mask: array<real>, seqs: seq<TokenSequence>, n: nat, s: nat, start: nat, total: nat, i: nat)
    requires n <= |seqs| && s < n && start == StartOf(seqs, s) <= i < StartOf(seqs, s + 1) <= total == StartOf(seqs, n)
    requires MaskUpTo(mask[..], seqs, n, i)
    modifies mask
    ensures MaskUpTo(mask[..], seqs, n, i + 1)
  {
    ghost var before := mask[..];
    FlatIndex(total, total, i, i);
    SetOnes(mask, i * total + start, i * total + i + 1);
    RowMasked(before, mask[..], seqs, n, s, i, i * total);
  }

  method BlockDiagonalMask(seqs: seq<TokenSequence>, n: nat, total: nat) returns (mask: array<real>)
    requires n <= |seqs| && total == StartOf(seqs, n)
    ensures MaskUpTo(mask[..], seqs, n, total)
  {
    mask := new real[total * total](_ => 0.0);
    var seqStart := 0;
    for s := 0 to n
      invariant seqStart == StartOf(seqs, s) && MaskUpTo(mask[..], seqs, n, seqStart)
    {
      var seqEnd := seqStart + |seqs[s].tokens|;
      MaskBlock(mask, seqs, n, s, seqStart, seqEnd, total);
      seqStart := seqEnd;
    }
  }

  /** `collate_1d_packed`: nothing to pack, or nothing that fits, is an error. */
  method Collate(seqs: seq<TokenSequence>, maxLen: nat, maxSeqs: nat) returns (ok: bool, p: Packed, mask: array<real>)
    requires Paired(seqs)
    ensures PackedIs(seqs, p) && Greedy(seqs, p.taken, maxLen, maxSeqs) && (ok <==> p.tokens != [])
    ensures ok ==> MaskUpTo(mask[..], seqs, p.taken, |p.tokens|)
  {
    mask := new real[0];
    p := Pack(seqs, maxLen, maxSeqs);
    if p.tokens == [] { return false, p, mask; }
    mask := BlockDiagonalMask(seqs, p.taken, |p.tokens|);
    ok := true;
  }

  /** Cell (i, j) of the finished mask. */
  lemma MaskMeans(mask: seq<real>, seqs: seq<TokenSequence>, n: nat, i: nat, j: nat)
    requires n <= |seqs| && MaskUpTo(mask, seqs, n, StartOf(seqs, n)) && i < StartOf(seqs, n) && j < StartOf(seqs, n)
    ensures Cell(mask, StartOf(seqs, n), i, j) == if Visible(seqs, n, i, j) then 1.0 else 0.0
  {
    assert RowIs(mask, StartOf(seqs, n), i, MaskRow(seqs, n, i));
    assert MaskRow(seqs, n, i)(j) == if Visible(seqs, n, i, j) then 1.0 else 0.0;
  }
}
