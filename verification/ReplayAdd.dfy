/** The replay of `Add`: instead of broadcasting it repeats the right operand from the start. When
    that reproduces the recorded, broadcast sum, exactly. */
module ReplayAddKernel {
  import opened Sums
  import opened Grids
  import opened Scatter
  import opened Tensors
  import opened BroadcastKernel

  /** The remainder, by repeated subtraction. */
  function Mod(a: nat, b: nat): (r: nat)
    requires b > 0
    ensures r < b
  {
    if a < b then a else Mod(a - b, b)
  }

  lemma {:induction false} ModIs(q: nat, i: nat, b: nat)
    requires i < b
    ensures Mod(q * b + i, b) == i
  {
    if q > 0 {
      ModIs(q - 1, i, b);
      assert q * b + i - b == (q - 1) * b + i;
      MulMonotone(1, q, b);
    }
  }

  lemma {:induction false} ModQuotient(a: nat, b: nat) returns (q: nat)
    requires b > 0
    ensures a == q * b + Mod(a, b)
  {
    if a < b {
      q := 0;
    } else {
      q := ModQuotient(a - b, b);
      q := q + 1;
    }
  }

  /** The index map of repeating a buffer of length `len`. */
  function Repeat(len: nat): int -> int
    requires len > 0
  {
    i => if i >= 0 then Mod(i, len) else -1
  }

  /** `lhs[i] + rhs[i]`, or `lhs[i] + rhs[i mod |rhs|]` if the length divides the left's. */
  function ReplayAddOf(l: seq<real>, r: seq<real>): Option<seq<real>> {
    if |r| == |l| then Some(AddSeq(l, r))
    else if |r| > 0 && Mod(|l|, |r|) == 0 then Some(AddSeq(l, Gather(|l|, Repeat(|r|), r)))
    else None
  }

  method AddPointwise(l: seq<real>, r: seq<real>) returns (out: array<real>)
    requires |r| == |l|
    ensures out[..] == AddSeq(l, r)
  {
    out := new real[|l|](_ => 0.0);
    for i := 0 to |l|
      invariant forall k :: 0 <= k < i ==> out[k] == l[k] + r[k]
    {
      out[i] := l[i] + r[i];
    }
  }

  /** Element `i` of the repeated operand. */
  lemma RepeatAt(r: seq<real>, i: nat)
    requires |r| > 0
    ensures Mod(i, |r|) < |r| && At(r, Repeat(|r|)(i)) == r[Mod(i, |r|)]
  {
  }

  method AddRepeated(l: seq<real>, r: seq<real>) returns (out: array<real>)
    requires |r| > 0
    ensures out[..] == AddSeq(l, Gather(|l|, Repeat(|r|), r))
  {
    out := new real[|l|](_ => 0.0);
    ghost var g := Gather(|l|, Repeat(|r|), r);
    for i := 0 to |l|
      invariant forall k :: 0 <= k < i ==> out[k] == l[k] + g[k]
    {
      RepeatAt(r, i);
      assert g[i] == At(r, Repeat(|r|)(i));
      out[i] := l[i] + r[Mod(i, |r|)];
    }
    assert out[..] == AddSeq(l, g);
  }

  /** The replay arm of `Add`. */
  method ReplayAdd(l: seq<real>, r: seq<real>) returns (res: Option<seq<real>>)
    ensures res == ReplayAddOf(l, r)
  {
    if |r| == |l| {
      var out := AddPointwise(l, r);
      res := Some(out[..]);
    } else if |r| > 0 && Mod(|l|, |r|) == 0 {
      var out := AddRepeated(l, r);
      res := Some(out[..]);
    } else {
      res := None;
    }
  }

  // ---------------------------------------------------------------- when it is the broadcast sum

  /** The right operand is a whole block of trailing axes: leading extents 1, then the output's. */
  ghost predicate RowShaped(pad: seq<nat>, out: seq<nat>) {
    |pad| == |out| && exists s :: 0 <= s <= |out| && BlockFrom(pad, out, s)
  }

  predicate BlockFrom(pad: seq<nat>, out: seq<nat>, s: nat)
    requires |pad| == |out| && s <= |out|
  {
    (forall d :: 0 <= d < s ==> pad[d] == 1) && (forall d :: s <= d < |out| ==> pad[d] == out[d])
  }

  /** Repeating and projecting are the same index map on the output. */
  ghost predicate SameMap(out: seq<nat>, pad: seq<nat>)
    requires Compatible(pad, out) && Prod(pad) > 0
  {
    forall lin: nat :: lin < Prod(out) ==> Mod(lin, Prod(pad)) == Project(lin, out, pad)
  }

  lemma UnitProduct(a: nat, b: nat)
    requires a > 0 && b > 0
    ensures a * b > 0 && (a * b == 1 <==> a == 1 && b == 1)
  {
    MulMonotone(1, a, b);
    if b >= 2 { MulMonotone(1, a, b); }
  }

  lemma {:induction false} ProdOfOnes(pad: seq<nat>)
    requires Positive(pad)
    ensures Prod(pad) > 0 && (Prod(pad) == 1 <==> forall d :: 0 <= d < |pad| ==> pad[d] == 1)
  {
    if pad != [] {
      var n := |pad| - 1;
      ProdOfOnes(pad[..n]);
      UnitProduct(Prod(pad[..n]), pad[n]);
      assert forall d :: 0 <= d < n ==> pad[..n][d] == pad[d];
    }
  }

  lemma Recombine(lin: nat, q: nat, p: nat, b: nat, x: nat, y: nat, z: nat)
    requires lin == q * b + z && q == x * p + y
    ensures lin == x * (p * b) + (y * b + z)
  {
    Reassociate(x, p, b);
    assert q * b == x * p * b + y * b;
  }

  /** Reducing modulo p * b splits into the digit modulo b and the rest modulo p. */
  lemma ModSplit(lin: nat, p: nat, b: nat, pb: nat)
    requires p > 0 && b > 0 && pb == p * b
    ensures pb > 0 && Mod(lin, pb) == Mod(Div(lin, b), p) * b + lin % b
  {
    UnitProduct(p, b);
    var q := Div(lin, b);
    var y, z := Mod(q, p), lin % b;
    HornerBound(y, p, b, z);
    var x := ModQuotient(q, p);
    Recombine(lin, q, p, b, x, y, z);
    ModIs(x, y * b + z, pb);
  }

  lemma {:induction false} RowShapedRepeats(out: seq<nat>, pad: seq<nat>, s: nat, lin: nat)
    requires Compatible(pad, out) && s <= |out| && BlockFrom(pad, out, s)
    ensures Prod(pad) > 0 && Mod(lin, Prod(pad)) == Project(lin, out, pad)
    decreases |out|
  {
    ProdOfOnes(pad);
    if out != [] {
      var d := |out| - 1;
      ProdOfOnes(pad[..d]);
      var s' := if s <= d then s else d;
      RowShapedRepeats(out[..d], pad[..d], s', Div(lin, out[d]));
      if s <= d {
        ModSplit(lin, Prod(pad[..d]), out[d], Prod(pad));
      } else {
        assert Prod(pad[..d]) == 1;
      }
    }
  }

  lemma {:induction false} ProjectZero(out: seq<nat>, pad: seq<nat>)
    requires Compatible(pad, out)
    ensures Project(0, out, pad) == 0
    decreases |out|
  {
    if out != [] { ProjectZero(out[..|out| - 1], pad[..|out| - 1]); }
  }

  lemma CancelFactor(x: nat, y: nat, b: nat)
    requires b > 0 && x * b == y * b
    ensures x == y
  {
    DivModUnique(x, 0, b);
    DivModUnique(y, 0, b);
  }

  /** If the maps agree and the last axis is not broadcast, they agree on the other axes. */
  lemma SameMapOnPrefix(out: seq<nat>, pad: seq<nat>, d: nat)
    requires Compatible(pad, out) && |out| == d + 1 && pad[d] == out[d]
    requires Prod(pad) > 0 && Prod(pad[..d]) > 0 && SameMap(out, pad)
    ensures SameMap(out[..d], pad[..d])
  {
    var b := out[d];
    forall q: nat | q < Prod(out[..d]) ensures Mod(q, Prod(pad[..d])) == Project(q, out[..d], pad[..d]) {
      HornerBound(q, Prod(out[..d]), b, 0);
      DivModUnique(q, 0, b);
      var lin := q * b;
      assert Mod(lin, Prod(pad)) == Project(lin, out, pad);
      ModSplit(lin, Prod(pad[..d]), b, Prod(pad));
      CancelFactor(Mod(q, Prod(pad[..d])), Project(q, out[..d], pad[..d]), b);
    }
  }

  /** If the maps agree and the last axis is broadcast, the whole operand is a single value. */
  lemma SameMapForcesScalar(out: seq<nat>, pad: seq<nat>, d: nat)
    requires Compatible(pad, out) && |out| == d + 1 && pad[d] == 1 && out[d] > 1
    requires Prod(pad) > 0 && SameMap(out, pad) && Prod(out[..d]) > 0
    ensures forall e :: 0 <= e < |pad| ==> pad[e] == 1
  {
    HornerBound(0, Prod(out[..d]), out[d], 1);
    assert Mod(1, Prod(pad)) == Project(1, out, pad);
    ProjectZero(out[..d], pad[..d]);
    ProdOfOnes(pad);
  }

  lemma {:induction false} RepeatsRowShaped(out: seq<nat>, pad: seq<nat>)
    requires Compatible(pad, out) && Prod(pad) > 0 && SameMap(out, pad)
    ensures RowShaped(pad, out)
    decreases |out|
  {
    if out == [] {
      assert BlockFrom(pad, out, 0);
    } else {
      var d := |out| - 1;
      ProdOfOnes(pad[..d]);
      ProdOfOnes(out[..d]);
      if pad[d] == out[d] {
        SameMapOnPrefix(out, pad, d);
        RepeatsRowShaped(out[..d], pad[..d]);
        var s :| 0 <= s <= d && BlockFrom(pad[..d], out[..d], s);
        assert BlockFrom(pad, out, s);
      } else {
        SameMapForcesScalar(out, pad, d);
        assert BlockFrom(pad, out, |out|);
      }
    }
  }

  lemma Multiples(n: nat, p: nat, b: nat, c: nat, o: nat)
    requires p > 0 && b > 0 && Mod(n, p) == 0 && o == c * b
    ensures p * b > 0 && Mod(n * o, p * b) == 0
  {
    UnitProduct(p, b);
    var k := ModQuotient(n, p);
    Rearrange(k, p, c, b);
    ModIs(k * c, 0, p * b);
  }

  lemma Rearrange(k: nat, p: nat, c: nat, b: nat)
    ensures (k * p) * (c * b) == (k * c) * (p * b)
  {
    assert (k * p) * (c * b) == k * (p * (c * b));
    assert p * (c * b) == c * (p * b);
  }

  lemma {:induction false} ProdDivides(out: seq<nat>, pad: seq<nat>)
    requires Compatible(pad, out)
    ensures Prod(pad) > 0 && Mod(Prod(out), Prod(pad)) == 0
    decreases |out|
  {
    ProdOfOnes(pad);
    if out != [] {
      var d := |out| - 1;
      ProdDivides(out[..d], pad[..d]);
      Multiples(Prod(out[..d]), Prod(pad[..d]), pad[d], if pad[d] == 1 then out[d] else 1, out[d]);
    }
  }

  /** What the device addition computes when the left operand already has the output's shape. */
  function BroadcastAdd(l: seq<real>, r: seq<real>, out: seq<nat>, pad: seq<nat>): (s: seq<real>)
    requires Compatible(pad, out)
    ensures |s| == |l|
  {
    AddSeq(l, Gather(|l|, Projection(out, pad), r))
  }

  ghost predicate ReplaysAs(l: seq<real>, r: seq<real>, out: seq<nat>, pad: seq<nat>)
    requires Compatible(pad, out)
  {
    |l| == Prod(out) && |r| == Prod(pad) ==> ReplayAddOf(l, r) == Some(BroadcastAdd(l, r, out, pad))
  }

  lemma RowShapedReplays(out: seq<nat>, pad: seq<nat>, s: nat, l: seq<real>, r: seq<real>)
    requires Compatible(pad, out) && s <= |out| && BlockFrom(pad, out, s)
    requires |l| == Prod(out) && |r| == Prod(pad)
    ensures ReplaysAs(l, r, out, pad)
  {
    ProdDivides(out, pad);
    SameGather(out, pad, s, |l|, r);
    if |r| == |l| { SameLength(l, r, Gather(|l|, Repeat(|r|), r)); }
  }

  lemma SameGather(out: seq<nat>, pad: seq<nat>, s: nat, n: nat, r: seq<real>)
    requires Compatible(pad, out) && s <= |out| && BlockFrom(pad, out, s) && |r| == Prod(pad) > 0
    ensures Gather(n, Projection(out, pad), r) == Gather(n, Repeat(|r|), r)
  {
    var at, at' := Projection(out, pad), Repeat(|r|);
    forall lin | 0 <= lin < n ensures at(lin) == at'(lin) {
      RowShapedRepeats(out, pad, s, lin);
    }
    GatherExt(n, at, at', r);
  }

  lemma GatheredAt(n: nat, at: int -> int, x: seq<real>, i: nat, j: int)
    requires i < n && at(i) == j
    ensures Gather(n, at, x)[i] == At(x, j)
  {
  }

  lemma GatherExt(n: nat, at: int -> int, at': int -> int, x: seq<real>)
    requires forall i :: 0 <= i < n ==> at(i) == at'(i)
    ensures Gather(n, at, x) == Gather(n, at', x)
  {
    var a, b := Gather(n, at, x), Gather(n, at', x);
    forall i | 0 <= i < n ensures a[i] == b[i] {
      GatheredAt(n, at, x, i, at(i));
      GatheredAt(n, at', x, i, at(i));
    }
  }

  lemma SameLength(l: seq<real>, r: seq<real>, h: seq<real>)
    requires |r| == |l| && |r| > 0 && h == Gather(|l|, Repeat(|r|), r)
    ensures h == r
  {
    forall i | 0 <= i < |l| ensures h[i] == r[i] {
    }
  }

  lemma ReplayForcesSameMap(out: seq<nat>, pad: seq<nat>, l: seq<real>, r: seq<real>)
    requires Compatible(pad, out) && Prod(pad) > 0 && |l| == Prod(out) && |r| == Prod(pad)
    requires forall i :: 0 <= i < |r| ==> r[i] == i as real
    requires ReplaysAs(l, r, out, pad)
    ensures SameMap(out, pad)
  {
    forall lin: nat | lin < Prod(out) ensures Mod(lin, Prod(pad)) == Project(lin, out, pad) {
      ProjectInRange(lin, out, pad);
      BroadcastAt(l, r, out, pad, lin);
      ReplayAt(l, r, lin);
    }
  }

  lemma BroadcastAt(l: seq<real>, r: seq<real>, out: seq<nat>, pad: seq<nat>, lin: nat)
    requires Compatible(pad, out) && lin < |l| && Project(lin, out, pad) < |r|
    ensures BroadcastAdd(l, r, out, pad)[lin] == l[lin] + r[Project(lin, out, pad)]
  {
    AddGatheredAt(l, r, Projection(out, pad), lin);
  }

  lemma AddGatheredAt(l: seq<real>, r: seq<real>, at: int -> int, lin: nat)
    requires lin < |l|
    ensures AddSeq(l, Gather(|l|, at, r))[lin] == l[lin] + At(r, at(lin))
  {
  }

  lemma ReplayAt(l: seq<real>, r: seq<real>, lin: nat)
    requires |r| > 0 && lin < |l| && ReplayAddOf(l, r).Some?
    ensures |ReplayAddOf(l, r).value| == |l| && ReplayAddOf(l, r).value[lin] == l[lin] + r[Mod(lin, |r|)]
  {
    if |r| != |l| { RepeatedAt(l, r, lin); }
  }

  lemma RepeatedAt(l: seq<real>, r: seq<real>, lin: nat)
    requires |r| > 0 && lin < |l|
    ensures AddSeq(l, Gather(|l|, Repeat(|r|), r))[lin] == l[lin] + r[Mod(lin, |r|)]
  {
  }

  /** Exactly when replay reproduces a recorded addition: for all values if and only if the
      right operand is a block of trailing axes. */
  lemma ReplayAddIffRowShaped(out: seq<nat>, pad: seq<nat>)
    requires Compatible(pad, out)
    ensures (forall l, r :: ReplaysAs(l, r, out, pad)) <==> RowShaped(pad, out)
  {
    ProdOfOnes(pad);
    if RowShaped(pad, out) {
      var s :| 0 <= s <= |out| && BlockFrom(pad, out, s);
      forall l, r ensures ReplaysAs(l, r, out, pad) {
        if |l| == Prod(out) && |r| == Prod(pad) { RowShapedReplays(out, pad, s, l, r); }
      }
    }
    if forall l, r :: ReplaysAs(l, r, out, pad) {
      var l, r := seq(Prod(out), _ => 0.0), seq(Prod(pad), i => i as real);
      assert ReplaysAs(l, r, out, pad);
      ReplayForcesSameMap(out, pad, l, r);
      RepeatsRowShaped(out, pad);
    }
  }
}
