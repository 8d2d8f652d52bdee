/** Rotary embedding: every head is a pair of halves (x0, x1), rotated entry by entry to
    (c x0 - s x1, s x0 + c x1). The backward loops rotate by the opposite angle. */
module RopeKernel {
  import opened Sums
  import opened Grids
  import opened Tensors

  function Negated(s: seq<real>): (r: seq<real>)
    ensures |r| == |s|
  {
    seq(|s|, i => -At(s, i))
  }

  /** Entrywise product. */
  function Had(h: nat, p: seq<real>, a: seq<real>): (r: seq<real>)
    ensures |r| == h
  {
    seq(h, i => At(p, i) * At(a, i))
  }

  function Blend(h: nat, p: seq<real>, a: seq<real>, q: seq<real>, b: seq<real>): (r: seq<real>)
    ensures |r| == h
  {
    AddSeq(Had(h, p, a), Had(h, q, b))
  }

  /** One rotated head. */
  function HeadOf(h: nat, c: seq<real>, s: seq<real>, x: seq<real>): (r: seq<real>)
    requires |x| == 2 * h
    ensures |r| == 2 * h
  {
    Blend(h, c, x[..h], Negated(s), x[h..]) + Blend(h, s, x[..h], c, x[h..])
  }

  function HeadMap(h: nat, c: seq<real>, s: seq<real>): seq<real> -> seq<real> {
    x => if |x| == 2 * h then HeadOf(h, c, s, x) else x
  }

  /** `f` applied to every block of `n` values. */
  function MapBlocks(n: nat, f: seq<real> -> seq<real>, x: seq<real>): (r: seq<real>)
    requires n > 0
    decreases |x|
  {
    if |x| < n then x else MapBlocks(n, f, x[..|x| - n]) + f(x[|x| - n..])
  }

  /** All heads. */
  function RopeOf(h: nat, c: seq<real>, s: seq<real>, x: seq<real>): seq<real>
    requires h > 0
  {
    MapBlocks(2 * h, HeadMap(h, c, s), x)
  }

  // ---------------------------------------------------------------- the loops

  /** The pair (i, h + i) of `y` is the rotation of that pair of `x`. */
  ghost predicate PairIs(h: nat, c: seq<real>, s: seq<real>, x: seq<real>, y: seq<real>, i: nat)
    requires |x| == |y| == 2 * h && i < h && h <= |c| && h <= |s|
  {
    && y[i] == x[i] * c[i] - x[h + i] * s[i]
    && y[h + i] == x[i] * s[i] + x[h + i] * c[i]
  }

  ghost predicate RotatesHeads(h: nat, c: seq<real>, s: seq<real>, f: seq<real> -> seq<real>) {
    && h <= |c| && h <= |s| && KeepsSize(2 * h, f)
    && forall x: seq<real>, i: nat {:trigger PairIs(h, c, s, x, f(x), i)} :: |x| == 2 * h && i < h ==> PairIs(h, c, s, x, f(x), i)
  }

  ghost predicate KeepsSize(n: nat, f: seq<real> -> seq<real>) {
    forall x: seq<real> {:trigger f(x)} :: |x| == n ==> |f(x)| == n
  }

  lemma HeadMapRotates(h: nat, c: seq<real>, s: seq<real>)
    requires h <= |c| && h <= |s|
    ensures RotatesHeads(h, c, s, HeadMap(h, c, s))
  {
    var f := HeadMap(h, c, s);
    forall x: seq<real>, i: nat | |x| == 2 * h && i < h
      ensures PairIs(h, c, s, x, f(x), i)
    {
      HeadPair(h, c, s, x, i);
    }
  }

  lemma BlendAt(h: nat, p: seq<real>, a: seq<real>, q: seq<real>, b: seq<real>, i: nat)
    requires i < h && h <= |p| && h <= |a| && h <= |q| && h <= |b|
    ensures Blend(h, p, a, q, b)[i] == p[i] * a[i] + q[i] * b[i]
  {
    assert Had(h, p, a)[i] == p[i] * a[i] && Had(h, q, b)[i] == q[i] * b[i];
  }

  lemma HeadPair(h: nat, c: seq<real>, s: seq<real>, x: seq<real>, i: nat)
    requires |x| == 2 * h && i < h && h <= |c| && h <= |s|
    ensures PairIs(h, c, s, x, HeadOf(h, c, s, x), i)
  {
    BlendAt(h, c, x[..h], Negated(s), x[h..], i);
    BlendAt(h, s, x[..h], c, x[h..], i);
    NegatedFactor(s[i], Negated(s)[i], x[h + i]);
  }

  lemma NegatedFactor(a: real, n: real, b: real)
    requires n == -a
    ensures n * b == -(b * a)
  {
  }

  /** One step of the inner loop. */
  method RotatePair(out: array<real>, off: nat, h: nat, c: seq<real>, s: seq<real>, x: seq<real>, i: nat, ghost head: seq<real>, ghost y: seq<real>)
    requires |x| == out.Length && off + 2 * h <= |x| && h <= |c| && h <= |s| && i < h && |y| == 2 * h
    requires head == x[off..off + 2 * h] && PairIs(h, c, s, head, y, i)
    modifies out
    ensures out[off + i] == y[i] && out[off + (h + i)] == y[h + i]
    ensures forall p :: 0 <= p < |x| && p != off + i && p != off + (h + i) ==> out[p] == old(out[p])
  {
    var x0, x1 := x[off + i], x[off + h + i];
    assert x0 == head[i] && x1 == head[h + i];
    out[off + i], out[off + h + i] := x0 * c[i] - x1 * s[i], x0 * s[i] + x1 * c[i];
  }

  /** The inner loop: one head of `out`, in place. */
  method RotateHead(out: array<real>, off: nat, h: nat, c: seq<real>, s: seq<real>, x: seq<real>, ghost head: seq<real>, ghost y: seq<real>)
    requires |x| == out.Length && off + 2 * h <= |x| && h <= |c| && h <= |s| && |y| == 2 * h
    requires head == x[off..off + 2 * h]
    requires forall i: nat {:trigger PairIs(h, c, s, head, y, i)} :: i < h ==> PairIs(h, c, s, head, y, i)
    modifies out
    ensures forall p :: 0 <= p < off || off + 2 * h <= p < |x| ==> out[p] == old(out[p])
    ensures forall p :: off <= p < off + 2 * h ==> out[p] == y[p - off]
  {
    for i := 0 to h
      invariant forall p :: 0 <= p < off || off + 2 * h <= p < |x| ==> out[p] == old(out[p])
      invariant forall p :: off <= p < off + i ==> out[p] == y[p - off]
      invariant forall p :: off + h <= p < off + h + i ==> out[p] == y[p - off]
    {
      RotatePair(out, off, h, c, s, x, i, head, y);
    }
  }

  ghost predicate IsBlocks(n: nat, f: seq<real> -> seq<real>, x: seq<real>, done: seq<real>)
    requires n > 0 && |done| <= |x|
  {
    done == MapBlocks(n, f, x[..|done|])
  }

  /** Both nests: head after head. */
  method RotateAll(h: nat, c: seq<real>, s: seq<real>, x: seq<real>, heads: nat, ghost f: seq<real> -> seq<real>) returns (r: seq<real>)
    requires h > 0 && |x| == heads * (2 * h) && (heads > 0 ==> RotatesHeads(h, c, s, f))
    ensures r == MapBlocks(2 * h, f, x)
  {
    var n := 2 * h;
    var out := new real[|x|](i requires 0 <= i < |x| => x[i]);
    ghost var done: seq<real> := [];
    for t := 0 to heads
      invariant t * n <= |x| && |done| == t * n && IsBlocks(n, f, x, done)
      invariant forall p :: 0 <= p < |done| ==> out[p] == done[p]
      invariant forall p :: |done| <= p < |x| ==> out[p] == x[p]
    {
      MulMonotone(t + 1, heads, n);
      var off := t * n;
      assert (t + 1) * n == off + n;
      ghost var head := x[off..off + n];
      RotateHead(out, off, h, c, s, x, head, f(head));
      BlockAppended(n, f, x, done);
      done := done + f(head);
    }
    assert x[..|done|] == x && out[..] == done;
    r := out[..];
  }

  method Rotate(h: nat, c: seq<real>, s: seq<real>, x: seq<real>) returns (r: seq<real>)
    requires h > 0 && |x| % (2 * h) == 0 && (|x| > 0 ==> h <= |c| && h <= |s|)
    ensures r == RopeOf(h, c, s, x)
  {
    if |x| > 0 { HeadMapRotates(h, c, s); }
    var heads := |x| / (2 * h);
    r := RotateAll(h, c, s, x, heads, HeadMap(h, c, s));
  }

  lemma BlockAppended(n: nat, f: seq<real> -> seq<real>, x: seq<real>, done: seq<real>)
    requires n > 0 && |done| + n <= |x| && IsBlocks(n, f, x, done) && KeepsSize(n, f)
    ensures var off := |done|;
            |f(x[off..off + n])| == n && IsBlocks(n, f, x, done + f(x[off..off + n]))
  {
    var off := |done|;
    var y := x[..off + n];
    assert y[..|y| - n] == x[..off] && y[|y| - n..] == x[off..off + n];
  }

  /** Half the head size that replay uses: the shorter table decides. */
  function HalfHead(nc: nat, ns: nat): nat {
    if nc < ns then nc else ns
  }

  predicate ReplayAcceptsRope(nc: nat, ns: nat, n: nat) {
    HalfHead(nc, ns) > 0 && n % (2 * HalfHead(nc, ns)) == 0
  }

  /** The replay arm. */
  method ReplayRope(x: seq<real>, c: seq<real>, s: seq<real>) returns (r: Option<seq<real>>)
    ensures r == if ReplayAcceptsRope(|c|, |s|, |x|) then Some(RopeOf(HalfHead(|c|, |s|), c, s, x)) else None
  {
    var h := if |c| < |s| then |c| else |s|;
    if h == 0 || |x| % (h * 2) != 0 { return None; }
    var out := Rotate(h, c, s, x);
    r := Some(out);
  }

  /** The branch `rope_backward` takes when the cosines do not divide the gradient: neighbours
      (2p, 2p + 1) are rotated, the tables are read cyclically, a last odd entry becomes 0. */
  function Interleaved(g: seq<real>, c: seq<real>, s: seq<real>, i: nat): real
    requires i < |g|
  {
    var q := i / 2 % TableLength(c, s);
    var (cq, sq) := (if q < |c| then c[q] else 1.0, if q < |s| then s[q] else 0.0);
    if i % 2 == 1 then -g[i - 1] * sq + g[i] * cq
    else if i + 1 < |g| then g[i] * cq + g[i + 1] * sq
    else 0.0
  }

  function NeighboursOf(g: seq<real>, c: seq<real>, s: seq<real>): (r: seq<real>)
    ensures |r| == |g|
  {
    seq(|g|, i requires 0 <= i < |g| => Interleaved(g, c, s, i))
  }

  function TableLength(c: seq<real>, s: seq<real>): (n: nat)
    ensures n > 0
  {
    var h := if |c| < |s| then |c| else |s|;
    if h == 0 then 1 else h
  }

  method RotateNeighbours(g: seq<real>, c: seq<real>, s: seq<real>) returns (r: seq<real>)
    ensures r == NeighboursOf(g, c, s)
  {
    var dx := new real[|g|](_ => 0.0);
    for p := 0 to |g| / 2
      invariant forall i {:trigger dx[i]} :: 0 <= i < 2 * p ==> dx[i] == Interleaved(g, c, s, i)
      invariant forall i {:trigger dx[i]} :: 2 * p <= i < |g| ==> dx[i] == 0.0
    {
      var i := 2 * p;
      var d0, d1 := NeighbourPair(g, c, s, p);
      dx[i], dx[i + 1] := d0, d1;
    }
    r := dx[..];
  }

  method NeighbourPair(g: seq<real>, c: seq<real>, s: seq<real>, p: nat) returns (d0: real, d1: real)
    requires 2 * p + 1 < |g|
    ensures d0 == Interleaved(g, c, s, 2 * p) && d1 == Interleaved(g, c, s, 2 * p + 1)
  {
    var q := p % TableLength(c, s);
    var cq, sq := if q < |c| then c[q] else 1.0, if q < |s| then s[q] else 0.0;
    d0, d1 := g[2 * p] * cq + g[2 * p + 1] * sq, -g[2 * p] * sq + g[2 * p + 1] * cq;
  }

  /** The backward routine works on heads when the cosines divide the gradient. */
  predicate BackOnHeads(nc: nat, n: nat) {
    nc > 0 && n % (2 * nc) == 0
  }

  /** Its head loops index the sines by the length of the cosines. */
  predicate RopeInBounds(nc: nat, ns: nat, n: nat) {
    BackOnHeads(nc, n) && n > 0 ==> nc <= ns
  }

  function RopeBackwardOf(c: seq<real>, s: seq<real>, g: seq<real>): (r: seq<real>) {
    if BackOnHeads(|c|, |g|) then RopeOf(|c|, c, Negated(s), g)
    else NeighboursOf(g, c, s)
  }

  /** `rope_backward`. */
  method RopeBackward(g: seq<real>, c: seq<real>, s: seq<real>) returns (r: seq<real>)
    requires RopeInBounds(|c|, |s|, |g|)
    ensures r == RopeBackwardOf(c, s, g)
  {
    if |c| == 0 || |g| % (2 * |c|) != 0 {
      r := RotateNeighbours(g, c, s);
    } else {
      r := Rotate(|c|, c, Negated(s), g);
    }
  }

  // ---------------------------------------------------------------- adjoint

  lemma DotConcat(a: seq<real>, b: seq<real>, c: seq<real>, d: seq<real>)
    requires |a| == |c| && |b| == |d|
    ensures Dot(a + b, c + d) == Dot(a, c) + Dot(b, d)
  {
    var f := (i: int) => At(a + b, i) * At(c + d, i);
    var f0, f1 := (i: int) => At(a, i) * At(c, i), (i: int) => At(b, i) * At(d, i);
    forall i | 0 <= i < |a| ensures f(i) == f0(i) {
      assert At(a + b, i) == At(a, i) && At(c + d, i) == At(c, i);
    }
    forall i | 0 <= i < |b| ensures f1(i) == f(|a| + i) {
      assert At(a + b, |a| + i) == At(b, i) && At(c + d, |a| + i) == At(d, i);
    }
    SumExt(|a|, f, f0);
    SumConcat(|a|, |b|, f, f1);
  }

  lemma Exchange(g: real, p: real, a: real, u: real, v: real)
    requires u == p * a && v == p * g
    ensures g * u == v * a
  {
  }

  /** An entrywise product moves across the inner product. */
  lemma HadAdjoint(h: nat, g: seq<real>, p: seq<real>, a: seq<real>)
    requires |g| == |a| == h
    ensures Dot(g, Had(h, p, a)) == Dot(Had(h, p, g), a)
  {
    var u, v := Had(h, p, a), Had(h, p, g);
    forall i | 0 <= i < h ensures At(g, i) * At(u, i) == At(v, i) * At(a, i) {
      Exchange(At(g, i), At(p, i), At(a, i), At(u, i), At(v, i));
    }
    SumExt(h, i => At(g, i) * At(u, i), i => At(v, i) * At(a, i));
  }

  /** <g, p a + q b> == <p g, a> + <q g, b>. */
  lemma BlendPairing(h: nat, g: seq<real>, p: seq<real>, a: seq<real>, q: seq<real>, b: seq<real>)
    requires |g| == |a| == |b| == h
    ensures Dot(g, Blend(h, p, a, q, b)) == Dot(Had(h, p, g), a) + Dot(Had(h, q, g), b)
  {
    HadAdjoint(h, g, p, a);
    HadAdjoint(h, g, q, b);
    var u, v := Had(h, p, a), Had(h, q, b);
    DotAdd(u, v, g);
    DotCommutes(u, g);
    DotCommutes(v, g);
    DotCommutes(AddSeq(u, v), g);
  }

  lemma NegatedTwice(s: seq<real>)
    ensures Negated(Negated(s)) == s
  {
    var n := Negated(s);
    assert forall i :: 0 <= i < |s| ==> Negated(n)[i] == -n[i] && n[i] == -s[i];
  }

  lemma HeadAdjoint(h: nat, c: seq<real>, s: seq<real>, x: seq<real>, g: seq<real>)
    requires |x| == |g| == 2 * h
    ensures Dot(g, HeadOf(h, c, s, x)) == Dot(HeadOf(h, c, Negated(s), g), x)
  {
    var (x0, x1, g0, g1, n) := (x[..h], x[h..], g[..h], g[h..], Negated(s));
    assert x == x0 + x1 && g == g0 + g1;
    NegatedTwice(s);
    BlendPairing(h, g0, c, x0, n, x1);
    BlendPairing(h, g1, s, x0, c, x1);
    DotAdd(Had(h, c, g0), Had(h, s, g1), x0);
    DotAdd(Had(h, n, g0), Had(h, c, g1), x1);
    DotConcat(g0, g1, Blend(h, c, x0, n, x1), Blend(h, s, x0, c, x1));
    DotConcat(Blend(h, c, g0, s, g1), Blend(h, n, g0, c, g1), x0, x1);
  }

  ghost predicate BlockAdjoint(n: nat, f: seq<real> -> seq<real>, r: seq<real> -> seq<real>) {
    forall g: seq<real>, x: seq<real> {:trigger Dot(g, f(x))} {:trigger Dot(r(g), x)} :: |g| == |x| == n ==> Dot(g, f(x)) == Dot(r(g), x)
  }

  lemma {:induction false} BlocksKeepSize(n: nat, f: seq<real> -> seq<real>, x: seq<real>)
    requires n > 0 && KeepsSize(n, f)
    ensures |MapBlocks(n, f, x)| == |x|
    decreases |x|
  {
    if |x| >= n { BlocksKeepSize(n, f, x[..|x| - n]); }
  }

  /** One more block on both sides. */
  lemma BlockPairing(n: nat, f: seq<real> -> seq<real>, r: seq<real> -> seq<real>, x0: seq<real>, x1: seq<real>, g0: seq<real>, g1: seq<real>)
    requires n > 0 && KeepsSize(n, f) && KeepsSize(n, r) && BlockAdjoint(n, f, r) && |x1| == |g1| == n && |x0| == |g0|
    requires Dot(g0, MapBlocks(n, f, x0)) == Dot(MapBlocks(n, r, g0), x0)
    ensures Dot(g0 + g1, MapBlocks(n, f, x0) + f(x1)) == Dot(MapBlocks(n, r, g0) + r(g1), x0 + x1)
  {
    BlocksKeepSize(n, f, x0);
    BlocksKeepSize(n, r, g0);
    assert Dot(g1, f(x1)) == Dot(r(g1), x1);
    DotConcat(g0, g1, MapBlocks(n, f, x0), f(x1));
    DotConcat(MapBlocks(n, r, g0), r(g1), x0, x1);
  }

  lemma {:induction false} BlocksAdjoint(n: nat, f: seq<real> -> seq<real>, r: seq<real> -> seq<real>, x: seq<real>, g: seq<real>, m: nat)
    requires n > 0 && KeepsSize(n, f) && KeepsSize(n, r) && BlockAdjoint(n, f, r) && |x| == |g| == m * n
    ensures Dot(g, MapBlocks(n, f, x)) == Dot(MapBlocks(n, r, g), x)
    decreases m
  {
    if m > 0 {
      var off := |x| - n;
      assert off == (m - 1) * n;
      BlocksAdjoint(n, f, r, x[..off], g[..off], m - 1);
      BlockPairing(n, f, r, x[..off], x[off..], g[..off], g[off..]);
      assert x == x[..off] + x[off..] && g == g[..off] + g[off..];
    } else {
      assert x == [] && g == [];
    }
  }

  /** Main result: rotating back is the adjoint of rotating. */
  lemma RopeBackwardIsAdjoint(h: nat, c: seq<real>, s: seq<real>, x: seq<real>, g: seq<real>)
    requires h > 0 && |x| == |g| && |x| % (2 * h) == 0
    ensures |RopeOf(h, c, s, x)| == |x| && |RopeOf(h, c, Negated(s), g)| == |g|
    ensures Dot(g, RopeOf(h, c, s, x)) == Dot(RopeOf(h, c, Negated(s), g), x)
  {
    var f, r := HeadMap(h, c, s), HeadMap(h, c, Negated(s));
    forall g: seq<real>, x: seq<real> | |g| == |x| == 2 * h ensures Dot(g, f(x)) == Dot(r(g), x) {
      HeadAdjoint(h, c, s, x, g);
    }
    BlocksKeepSize(2 * h, f, x);
    BlocksKeepSize(2 * h, r, g);
    var m := |x| / (2 * h);
    BlocksAdjoint(2 * h, f, r, x, g, m);
  }

  // ---------------------------------------------------------------- where the gradient is right

  lemma LastNeighbours(g: seq<real>, c: seq<real>, s: seq<real>, p: nat)
    requires 2 * p + 2 == |g| && |c| > 1 == |s|
    ensures var r, head := NeighboursOf(g, c, s)[2 * p..], g[2 * p..];
            r[0] == head[0] * c[0] + head[1] * s[0] && r[1] == -head[0] * s[0] + head[1] * c[0]
  {
    assert TableLength(c, s) == 1 && p % 1 == 0;
  }

  lemma NeighboursAt(g: seq<real>, c: seq<real>, s: seq<real>, p: nat)
    requires 2 * p + 2 == |g| && |c| > 1 == |s|
    ensures HeadOf(1, c, Negated(s), g[2 * p..]) == NeighboursOf(g, c, s)[2 * p..]
  {
    var head, r := g[2 * p..], NeighboursOf(g, c, s)[2 * p..];
    var y := HeadOf(1, c, Negated(s), head);
    HeadPair(1, c, Negated(s), head, 0);
    LastNeighbours(g, c, s, p);
    NegatedFactor(s[0], Negated(s)[0], head[1]);
    NegatedFactor(s[0], Negated(s)[0], head[0]);
    assert y[0] == r[0] && y[1] == r[1];
  }

  lemma NeighboursPrefix(g: seq<real>, c: seq<real>, s: seq<real>, m: nat)
    requires 2 * m <= |g|
    ensures NeighboursOf(g[..2 * m], c, s) == NeighboursOf(g, c, s)[..2 * m]
  {
    var y := g[..2 * m];
    forall i | 0 <= i < 2 * m ensures Interleaved(y, c, s, i) == Interleaved(g, c, s, i) {
      assert y[i] == g[i] && (i % 2 == 0 ==> i + 1 < 2 * m);
    }
  }

  /** With a single sine, rotating neighbours is rotating heads of two values. */
  lemma {:induction false} NeighboursAreHeads(g: seq<real>, c: seq<real>, s: seq<real>, m: nat)
    requires |g| == 2 * m && |c| > 1 == |s|
    ensures NeighboursOf(g, c, s) == RopeOf(1, c, Negated(s), g)
  {
    if m > 0 {
      var r, off := NeighboursOf(g, c, s), 2 * (m - 1);
      NeighboursPrefix(g, c, s, m - 1);
      NeighboursAreHeads(g[..off], c, s, m - 1);
      NeighboursAt(g, c, s, m - 1);
      assert r == r[..off] + r[off..];
    }
  }

  ghost predicate RopeAdjointAt(c: seq<real>, s: seq<real>, x: seq<real>, g: seq<real>)
    requires ReplayAcceptsRope(|c|, |s|, |x|)
  {
    Dot(g, RopeOf(HalfHead(|c|, |s|), c, s, x)) == Dot(RopeBackwardOf(c, s, g), x)
  }

  /** The backward routine stays in bounds and returns the adjoint of replay, for tables and
      operands of these lengths whatever their values. */
  ghost predicate RopeGradientRight(nc: nat, ns: nat, n: nat)
    requires ReplayAcceptsRope(nc, ns, n)
  {
    && RopeInBounds(nc, ns, n)
    && forall c, s, x, g {:trigger RopeAdjointAt(c, s, x, g)} :: |c| == nc && |s| == ns && |x| == |g| == n ==> RopeAdjointAt(c, s, x, g)
  }

  lemma RopeAdjoint(c: seq<real>, s: seq<real>, x: seq<real>, g: seq<real>)
    requires |x| == |g| && ReplayAcceptsRope(|c|, |s|, |x|)
    requires |c| <= |s| || (|s| == 1 && !BackOnHeads(|c|, |g|))
    ensures |RopeBackwardOf(c, s, g)| == |RopeOf(HalfHead(|c|, |s|), c, s, x)| == |x|
    ensures RopeAdjointAt(c, s, x, g)
  {
    RopeBackwardIsAdjoint(HalfHead(|c|, |s|), c, s, x, g);
    if |c| > |s| { NeighboursAreHeads(g, c, s, |g| / 2); }
  }

  /** The first head of a rotation. */
  lemma {:induction false} FirstHead(n: nat, f: seq<real> -> seq<real>, x: seq<real>, m: nat)
    requires n > 0 && KeepsSize(n, f) && m > 0 && |x| == m * n
    ensures |x| >= n && |MapBlocks(n, f, x)| == |x| && MapBlocks(n, f, x)[..n] == f(x[..n])
  {
    BlocksKeepSize(n, f, x);
    MulMonotone(1, m, n);
    var y := x[..|x| - n];
    assert |y| == (m - 1) * n;
    if m > 1 {
      FirstHead(n, f, y, m - 1);
      assert y[..n] == x[..n];
    } else {
      assert MapBlocks(n, f, y) == [] && x[|x| - n..] == x[..n];
    }
  }

  predicate QuarterTurns(c: seq<real>, s: seq<real>) {
    (forall i :: 0 <= i < |c| ==> c[i] == 0.0) && (forall i :: 0 <= i < |s| ==> s[i] == 1.0)
  }

  lemma WholeHeads(n: nat, size: nat) returns (m: nat)
    requires n > 0 && size > 0 && n % size == 0
    ensures m > 0 && n == m * size
  {
    m := n / size;
  }

  /** Quarter turns move value 0 to the second half of its head. */
  lemma TurnedUnit(h: nat, c: seq<real>, s: seq<real>, n: nat)
    requires 0 < h <= |c| && h <= |s| && QuarterTurns(c, s) && n > 0 && n % (2 * h) == 0
    ensures h < n && |RopeOf(h, c, s, OneHot(n, 0))| == n && RopeOf(h, c, s, OneHot(n, 0))[h] == 1.0
  {
    var x, f := OneHot(n, 0), HeadMap(h, c, s);
    var m := WholeHeads(n, 2 * h);
    FirstHead(2 * h, f, x, m);
    var head := x[..2 * h];
    TurnedHead(h, c, s, head);
    assert RopeOf(h, c, s, x)[..2 * h] == HeadOf(h, c, s, head);
  }

  lemma TurnedHead(h: nat, c: seq<real>, s: seq<real>, x: seq<real>)
    requires 0 < h <= |c| && h <= |s| && QuarterTurns(c, s) && |x| == 2 * h && x[0] == 1.0
    ensures HeadOf(h, c, s, x)[h] == 1.0
  {
    HeadPair(h, c, s, x, 0);
    assert PairIs(h, c, s, x, HeadOf(h, c, s, x), 0) && c[0] == 0.0 && s[0] == 1.0;
  }

  /** The neighbours never move anything from beyond value 1 to value 0. */
  lemma NeighboursMissUnit(h: nat, c: seq<real>, s: seq<real>, n: nat)
    requires 1 < h < n && QuarterTurns(c, s)
    ensures NeighboursOf(OneHot(n, h), c, s)[0] == 0.0
  {
    assert OneHot(n, h)[0] == 0.0 && OneHot(n, h)[1] == 0.0;
  }

  /** With two sines or more, rotating neighbours is not the adjoint. */
  lemma NeighboursAreNotAdjoint(c: seq<real>, s: seq<real>, n: nat)
    requires |c| > |s| > 1 && ReplayAcceptsRope(|c|, |s|, n) && n > 0 && !BackOnHeads(|c|, n) && QuarterTurns(c, s)
    ensures !RopeAdjointAt(c, s, OneHot(n, 0), OneHot(n, |s|))
  {
    var h := |s|;
    TurnedUnit(h, c, s, n);
    NeighboursMissUnit(h, c, s, n);
    PairWithUnit(n, h, RopeOf(h, c, s, OneHot(n, 0)));
    PairWithUnit(n, 0, NeighboursOf(OneHot(n, h), c, s));
  }

  /** Main result. Whatever replay accepts, the backward routine is in bounds and the adjoint of
      replay for all values if and only if there are no more cosines than sines, or there is a
      single sine and the cosines do not divide the gradient. */
  lemma RopeGradientRightIff(nc: nat, ns: nat, n: nat)
    requires ReplayAcceptsRope(nc, ns, n) && n > 0
    ensures RopeGradientRight(nc, ns, n) <==> nc <= ns || (ns == 1 && !BackOnHeads(nc, n))
  {
    if nc <= ns || (ns == 1 && !BackOnHeads(nc, n)) {
      forall c, s, x, g | |c| == nc && |s| == ns && |x| == |g| == n ensures RopeAdjointAt(c, s, x, g) {
        RopeAdjoint(c, s, x, g);
      }
    } else if !BackOnHeads(nc, n) {
      var c, s := seq(nc, _ => 0.0), seq(ns, _ => 1.0);
      NeighboursAreNotAdjoint(c, s, n);
      assert |OneHot(n, 0)| == |OneHot(n, ns)| == n;
    }
  }

  /** Two cosines, one sine, four values: replay rotates two heads of two, the backward loops read
      a second sine. */
  lemma RopeBackwardOverruns()
    ensures ReplayAcceptsRope(2, 1, 4) && !RopeInBounds(2, 1, 4) && !RopeGradientRight(2, 1, 4)
  {
  }

  // ---------------------------------------------------------------- inverse

  lemma RotationInverse(x0: real, x1: real, c: real, s: real, n: real, y0: real, y1: real, z0: real, z1: real)
    requires c * c + s * s == 1.0 && n == -s
    requires y0 == x0 * c - x1 * s && y1 == x0 * s + x1 * c
    requires z0 == y0 * c - y1 * n && z1 == y0 * n + y1 * c
    ensures z0 == x0 && z1 == x1
  {
    assert z0 == x0 * (c * c + s * s);
    assert z1 == x1 * (c * c + s * s);
  }

  /** Genuine angles: every pair lies on the unit circle. */
  ghost predicate Angle(c: seq<real>, s: seq<real>, i: nat)
    requires i < |c| && i < |s|
  {
    c[i] * c[i] + s[i] * s[i] == 1.0
  }

  ghost predicate Angles(h: nat, c: seq<real>, s: seq<real>) {
    h <= |c| && h <= |s| && forall i: nat {:trigger Angle(c, s, i)} :: i < h ==> Angle(c, s, i)
  }

  predicate PairSame(h: nat, x: seq<real>, z: seq<real>, i: nat)
    requires |x| == |z| == 2 * h && i < h
  {
    z[i] == x[i] && z[h + i] == x[h + i]
  }

  lemma PairInverse(h: nat, c: seq<real>, s: seq<real>, x: seq<real>, y: seq<real>, z: seq<real>, i: nat)
    requires |x| == |y| == |z| == 2 * h && i < h && h <= |c| && h <= |s| && Angle(c, s, i)
    requires PairIs(h, c, s, x, y, i) && PairIs(h, c, Negated(s), y, z, i)
    ensures PairSame(h, x, z, i)
  {
    RotationInverse(x[i], x[h + i], c[i], s[i], Negated(s)[i], y[i], y[h + i], z[i], z[h + i]);
  }

  lemma HeadInverse(h: nat, c: seq<real>, s: seq<real>, x: seq<real>, f: seq<real> -> seq<real>, r: seq<real> -> seq<real>)
    requires |x| == 2 * h && Angles(h, c, s) && RotatesHeads(h, c, s, f) && RotatesHeads(h, c, Negated(s), r)
    ensures r(f(x)) == x
  {
    var y := f(x);
    var z := r(y);
    forall i: nat | i < h ensures PairSame(h, x, z, i) {
      PairInverse(h, c, s, x, y, z, i);
    }
    forall p | 0 <= p < 2 * h ensures z[p] == x[p] {
      var i := if p < h then p else p - h;
      assert PairSame(h, x, z, i);
    }
  }

  lemma {:induction false} BlocksInverse(n: nat, f: seq<real> -> seq<real>, r: seq<real> -> seq<real>, x: seq<real>)
    requires n > 0 && KeepsSize(n, f) && forall y: seq<real> {:trigger r(f(y))} :: |y| == n ==> r(f(y)) == y
    ensures MapBlocks(n, r, MapBlocks(n, f, x)) == x
    decreases |x|
  {
    if |x| >= n {
      var off := |x| - n;
      var x0, x1 := x[..off], x[off..];
      BlocksInverse(n, f, r, x0);
      BlocksKeepSize(n, f, x0);
      var y := MapBlocks(n, f, x0) + f(x1);
      assert |f(x1)| == n && y[..off] == MapBlocks(n, f, x0) && y[off..] == f(x1);
      assert r(f(x1)) == x1;
    }
  }

  /** With genuine angles the rotation is orthogonal: the backward loops undo the forward ones. */
  lemma RopeBackwardInvertsRope(h: nat, c: seq<real>, s: seq<real>, x: seq<real>)
    requires h > 0 && Angles(h, c, s)
    ensures RopeOf(h, c, Negated(s), RopeOf(h, c, s, x)) == x
  {
    var f, r := HeadMap(h, c, s), HeadMap(h, c, Negated(s));
    HeadMapRotates(h, c, s);
    HeadMapRotates(h, c, Negated(s));
    forall y: seq<real> | |y| == 2 * h ensures r(f(y)) == y {
      HeadInverse(h, c, s, y, f, r);
    }
    BlocksInverse(2 * h, f, r, x);
  }
}
