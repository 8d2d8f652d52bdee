/** Token embedding: the lookup loop of replay and the scatter loop of the backward pass. */
module EmbeddingKernel {
  import opened Sums
  import opened Grids
  import opened Scatter
  import opened Tensors

  /** The table position read by output position `p`. */
  function TokenMap(tokens: seq<nat>, h: nat): int -> int {
    p => if h > 0 && 0 <= p < |tokens| * h && p / h < |tokens| then tokens[p / h] * h + p % h else -1
  }

  lemma TokenMapAt(tokens: seq<nat>, h: nat, t: nat, d: nat)
    requires t < |tokens| && d < h
    ensures 0 <= t * h + d < |tokens| * h && TokenMap(tokens, h)(t * h + d) == tokens[t] * h + d
  {
    FlatIndex(|tokens|, h, t, d);
  }

  /** Lookup fails on a wrongly sized table or a token outside the vocabulary. */
  function EmbeddingOf(tokens: seq<nat>, vocab: nat, h: nat, w: seq<real>): Option<seq<real>> {
    if |w| != vocab * h || exists t :: 0 <= t < |tokens| && tokens[t] >= vocab then None
    else Some(Gather(|tokens| * h, TokenMap(tokens, h), w))
  }

  /** The replay arm of `Embedding`. */
  method ReplayEmbedding(tokens: seq<nat>, vocab: nat, h: nat, w: seq<real>) returns (r: Option<seq<real>>)
    ensures r == EmbeddingOf(tokens, vocab, h, w)
  {
    if |w| != vocab * h { return None; }
    var out: seq<real> := [];
    ghost var at := TokenMap(tokens, h);
    for t := 0 to |tokens|
      invariant forall k :: 0 <= k < t ==> tokens[k] < vocab
      invariant out == Gather(t * h, at, w)
    {
      if tokens[t] >= vocab { return None; }
      MulMonotone(tokens[t] + 1, vocab, h);
      RowOfTable(tokens, vocab, h, w, t);
      out := out + w[tokens[t] * h..(tokens[t] + 1) * h];
    }
    r := Some(out);
  }

  lemma RowOfTable(tokens: seq<nat>, vocab: nat, h: nat, w: seq<real>, t: nat)
    requires t < |tokens| && tokens[t] < vocab && |w| == vocab * h
    ensures (tokens[t] + 1) * h <= |w|
    ensures Gather((t + 1) * h, TokenMap(tokens, h), w) ==
            Gather(t * h, TokenMap(tokens, h), w) + w[tokens[t] * h..(tokens[t] + 1) * h]
  {
    MulMonotone(tokens[t] + 1, vocab, h);
    var at := TokenMap(tokens, h);
    var off := tokens[t] * h;
    assert (t + 1) * h == t * h + h && (tokens[t] + 1) * h == off + h;
    var row, from := w[off..off + h], t * h;
    forall d | 0 <= d < h ensures At(w, at(from + d)) == row[d] {
      TokenMapAt(tokens, h, t, d);
    }
    GatherAppend(from, h, at, w, row);
  }

  lemma GatherAppend(a: nat, n: nat, at: int -> int, w: seq<real>, row: seq<real>)
    requires |row| == n && forall d :: 0 <= d < n ==> At(w, at(a + d)) == row[d]
    ensures Gather(a + n, at, w) == Gather(a, at, w) + row
  {
    var s, r := Gather(a + n, at, w), Gather(a, at, w) + row;
    forall p | 0 <= p < a + n ensures s[p] == r[p] {
      if p >= a { assert At(w, at(a + (p - a))) == row[p - a]; }
    }
  }

  /** One token's row of the gradient. */
  method ScatterToken(dw: array<real>, g: seq<real>, tokens: seq<nat>, vocab: nat, h: nat, t: nat)
    requires t < |tokens| && tokens[t] < vocab && |g| == |tokens| * h && dw.Length == vocab * h
    requires dw[..] == ScatterAdd(t * h, TokenMap(tokens, h), g, dw.Length)
    modifies dw
    ensures dw[..] == ScatterAdd(t * h + h, TokenMap(tokens, h), g, dw.Length)
  {
    var tok, from := tokens[t], t * h;
    for d := 0 to h
      invariant dw[..] == ScatterAdd(from + d, TokenMap(tokens, h), g, dw.Length)
    {
      TokenMapAt(tokens, h, t, d);
      FlatIndex(vocab, h, tok, d);
      AddOne(dw, tok * h + d, from + d, TokenMap(tokens, h), g);
    }
  }

  /** `embedding_backward`: contributions of tokens outside the vocabulary are dropped. */
  method EmbeddingBackward(g: seq<real>, tokens: seq<nat>, vocab: nat, h: nat) returns (r: Option<seq<real>>)
    ensures r == if |g| != |tokens| * h then None
                 else Some(ScatterAdd(|g|, TokenMap(tokens, h), g, vocab * h))
  {
    if |g| != |tokens| * h { return None; }
    ghost var at := TokenMap(tokens, h);
    var dw := new real[vocab * h](_ => 0.0);
    assert dw[..] == ScatterAdd(0, at, g, vocab * h);
    for t := 0 to |tokens|
      invariant dw[..] == ScatterAdd(t * h, at, g, vocab * h)
    {
      if tokens[t] < vocab {
        ScatterToken(dw, g, tokens, vocab, h, t);
      } else {
        OutOfVocabulary(tokens, vocab, h, t, g);
      }
      assert (t + 1) * h == t * h + h;
    }
    r := Some(dw[..]);
  }

  lemma OutOfVocabulary(tokens: seq<nat>, vocab: nat, h: nat, t: nat, g: seq<real>)
    requires t < |tokens| && tokens[t] >= vocab
    ensures ScatterAdd(t * h + h, TokenMap(tokens, h), g, vocab * h) == ScatterAdd(t * h, TokenMap(tokens, h), g, vocab * h)
  {
    var at := TokenMap(tokens, h);
    MulMonotone(vocab, tokens[t], h);
    forall i | t * h <= i < t * h + h ensures !(0 <= at(i) < vocab * h) {
      TokenMapAt(tokens, h, t, i - t * h);
    }
    ScatterSkips(t * h, t * h + h, at, g, vocab * h);
  }

  /** Main result: the scatter is the adjoint of the lookup, repeated tokens included. */
  lemma EmbeddingBackwardIsAdjoint(tokens: seq<nat>, vocab: nat, h: nat, w: seq<real>, g: seq<real>)
    requires EmbeddingOf(tokens, vocab, h, w).Some? && |g| == |tokens| * h
    ensures Dot(g, EmbeddingOf(tokens, vocab, h, w).value) == Dot(ScatterAdd(|g|, TokenMap(tokens, h), g, vocab * h), w)
  {
    var at := TokenMap(tokens, h);
    GatherScatterAdjoint(|g|, at, w, g);
    DotCommutes(g, Gather(|g|, at, w));
  }
}
