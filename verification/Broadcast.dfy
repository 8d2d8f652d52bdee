/** Broadcasting of shapes: the mixed-radix projection behind the device addition, its adjoint
    reduction, and the row-repeat shortcut that replay takes instead. */
module BroadcastKernel {
  import opened Sums
  import opened Grids
  import opened Scatter

  function Prod(dims: seq<nat>): nat {
    if dims == [] then 1 else Prod(dims[..|dims| - 1]) * dims[|dims| - 1]
  }

  predicate Positive(dims: seq<nat>) {
    forall e :: 0 <= e < |dims| ==> dims[e] > 0
  }

  function Div(a: nat, b: nat): nat
    requires b > 0
  {
    a / b
  }

  /** Coordinate `d` of the row-major position `lin`. */
  function Coord(lin: nat, dims: seq<nat>, d: nat): nat
    requires d < |dims| && Positive(dims)
    decreases |dims|
  {
    var last := |dims| - 1;
    if d == last then lin % dims[last] else Coord(Div(lin, dims[last]), dims[..last], d)
  }

  /** `pad` is a broadcast of the same rank: each extent is 1 or the output's. */
  predicate Compatible(pad: seq<nat>, out: seq<nat>) {
    |pad| == |out| && forall d :: 0 <= d < |out| ==> out[d] > 0 && (pad[d] == 1 || pad[d] == out[d])
  }

  /** The source position that output position `lin` reads. */
  function Project(lin: nat, out: seq<nat>, pad: seq<nat>): nat
    requires Compatible(pad, out)
    decreases |out|
  {
    if out == [] then 0
    else
      var d := |out| - 1;
      Horner(Project(Div(lin, out[d]), out[..d], pad[..d]), pad[d], Digit(lin, out[d], pad[d]))
  }

  function Horner(p: nat, b: nat, i: nat): nat {
    p * b + i
  }

  lemma DivBound(lin: nat, a: nat, b: nat)
    requires b > 0 && lin < a * b
    ensures Div(lin, b) < a
  {
    if lin / b >= a { MulMonotone(a, lin / b, b); }
  }

  lemma HornerBound(p: nat, n: nat, b: nat, i: nat)
    requires p < n && i < b
    ensures p * b + i < n * b
  {
    MulMonotone(p + 1, n, b);
  }

  lemma {:induction false} ProjectInRange(lin: nat, out: seq<nat>, pad: seq<nat>)
    requires Compatible(pad, out) && lin < Prod(out)
    ensures Project(lin, out, pad) < Prod(pad)
    decreases |out|
  {
    if out != [] {
      var d := |out| - 1;
      DivBound(lin, Prod(out[..d]), out[d]);
      ProjectInRange(Div(lin, out[d]), out[..d], pad[..d]);
      HornerBound(Project(Div(lin, out[d]), out[..d], pad[..d]), Prod(pad[..d]), pad[d], if pad[d] == 1 then 0 else lin % out[d]);
    }
  }

  /** What the projection means: it keeps every coordinate, except that extents of 1 read
      coordinate 0. */
  lemma {:induction false} ProjectedCoordinates(lin: nat, out: seq<nat>, pad: seq<nat>, d: nat)
    requires Compatible(pad, out) && d < |out|
    ensures Coord(Project(lin, out, pad), pad, d) == if pad[d] == 1 then 0 else Coord(lin, out, d)
    decreases |out|
  {
    var last := |out| - 1;
    var q := Project(Div(lin, out[last]), out[..last], pad[..last]);
    var i := if pad[last] == 1 then 0 else lin % out[last];
    DivModUnique(q, i, pad[last]);
    if d < last { ProjectedCoordinates(Div(lin, out[last]), out[..last], pad[..last], d); }
  }

  // ---------------------------------------------------------------- the reduction loop

  function Padded(target: seq<nat>, rank: nat): (pad: seq<nat>)
    requires |target| <= rank
    ensures |pad| == rank
  {
    seq(rank - |target|, _ => 1) + target
  }

  /** Shapes are aligned at their last axes: a leading axis the operand lacks and an axis it has with extent
      1 read its coordinate 0, any other axis the output's own coordinate. */
  lemma AlignedAtTheEnd(lin: nat, out: seq<nat>, target: seq<nat>, d: nat)
    requires |target| <= |out| && Compatible(Padded(target, |out|), out) && d < |out|
    ensures var (pad, missing) := (Padded(target, |out|), |out| - |target|);
            && (d < missing ==> pad[d] == 1 && Coord(Project(lin, out, pad), pad, d) == 0)
            && (d >= missing ==> pad[d] == target[d - missing]
                                 && Coord(Project(lin, out, pad), pad, d) == if target[d - missing] == 1 then 0 else Coord(lin, out, d))
  {
    ProjectedCoordinates(lin, out, Padded(target, |out|), d);
  }

  function Projection(out: seq<nat>, pad: seq<nat>): int -> int
    requires Compatible(pad, out)
  {
    i => if i >= 0 then Project(i, out, pad) else -1
  }

  lemma {:induction false} ProdSplit(dims: seq<nat>, k: nat)
    requires k < |dims|
    ensures Prod(dims[k..]) == dims[k] * Prod(dims[k + 1..])
    decreases |dims|
  {
    var n := |dims| - 1;
    if k == n {
      assert dims[k..] == [dims[k]] && dims[k..][..0] == [] && dims[k + 1..] == [];
    } else {
      ProdSplit(dims[..n], k);
      assert dims[k..][..|dims| - k - 1] == dims[..n][k..];
      assert dims[k + 1..][..|dims| - k - 2] == dims[..n][k + 1..];
      Reassociate(dims[k], Prod(dims[..n][k + 1..]), dims[n]);
    }
  }

  lemma Reassociate(a: nat, b: nat, c: nat)
    ensures (a * b) * c == a * (b * c)
  {
  }

  /** The projection digit by digit from the last: each digit weighs the padded extents after it. */
  function Weighted(rem: nat, out: seq<nat>, pad: seq<nat>, d: nat): nat
    requires Compatible(pad, out) && d <= |out|
    decreases d
  {
    if d == 0 then 0
    else Weighted(Div(rem, out[d - 1]), out, pad, d - 1) + Horner(Digit(rem, out[d - 1], pad[d - 1]), Prod(pad[d..]), 0)
  }

  /** A coordinate along a broadcast extent projects to 0. */
  function Digit(rem: nat, extent: nat, padded: nat): nat
    requires extent > 0
  {
    if padded == 1 then 0 else rem % extent
  }

  /** The digits up to `d` are the projection of their prefix, moved past the extents after it. */
  lemma {:induction false} WeightedIs(rem: nat, out: seq<nat>, pad: seq<nat>, d: nat)
    requires Compatible(pad, out) && d <= |out|
    ensures Weighted(rem, out, pad, d) == Horner(Project(rem, out[..d], pad[..d]), Prod(pad[d..]), 0)
    decreases d
  {
    if d > 0 {
      WeightedIs(Div(rem, out[d - 1]), out, pad, d - 1);
      assert out[..d][..d - 1] == out[..d - 1] && pad[..d][..d - 1] == pad[..d - 1];
      ProdSplit(pad, d - 1);
      HornerWeight(Project(Div(rem, out[d - 1]), out[..d - 1], pad[..d - 1]), pad[d - 1], Digit(rem, out[d - 1], pad[d - 1]), Prod(pad[d..]), Prod(pad[d - 1..]));
    }
  }

  lemma HornerWeight(p: nat, b: nat, i: nat, w: nat, bw: nat)
    requires bw == b * w
    ensures Horner(Horner(p, b, i), w, 0) == Horner(p, bw, 0) + Horner(i, w, 0)
  {
    Reassociate(p, b, w);
    assert (p * b + i) * w == p * b * w + i * w;
  }

  /** The strides loop: stride[d] is the product of the later padded extents. */
  method TargetStrides(pad: seq<nat>) returns (strides: array<nat>)
    ensures strides.Length == |pad| && fresh(strides)
    ensures forall d :: 0 <= d < |pad| ==> strides[d] == Prod(pad[d + 1..])
  {
    strides := new nat[|pad|](_ => 1);
    var d := if |pad| > 0 then |pad| - 1 else 0;
    assert |pad| > 0 ==> pad[|pad|..] == [];
    while d > 0
      invariant 0 <= d <= |pad| && (|pad| > 0 ==> d < |pad|)
      invariant forall e :: d <= e < |pad| ==> strides[e] == Prod(pad[e + 1..])
    {
      d := d - 1;
      ProdSplit(pad, d + 1);
      strides[d] := strides[d + 1] * pad[d + 1];
    }
  }

  lemma SameStride(coord: nat, stride: nat, prod: nat)
    requires stride == prod
    ensures coord * stride == Horner(coord, prod, 0) && coord * stride >= 0 && Horner(0, prod, 0) == 0
  {
  }

  method TargetIndex(lin: nat, out: seq<nat>, pad: seq<nat>, strides: array<nat>) returns (idx: nat)
    requires Compatible(pad, out) && strides.Length == |pad|
    requires forall d :: 0 <= d < |pad| ==> strides[d] == Prod(pad[d + 1..])
    ensures idx == Project(lin, out, pad)
  {
    var rem := lin;
    idx := 0;
    var d := |out|;
    WeightedIs(lin, out, pad, d);
    assert out[..|out|] == out && pad[..|pad|] == pad && pad[|pad|..] == [];
    while d > 0
      invariant 0 <= d <= |out|
      invariant Project(lin, out, pad) == Weighted(rem, out, pad, d) + idx
    {
      d := d - 1;
      var coord := rem % out[d];
      rem := rem / out[d];
      SameStride(coord, strides[d], Prod(pad[d + 1..]));
      if pad[d] != 1 { idx := idx + coord * strides[d]; }
    }
  }

  /** `reduce_broadcast_gradient` for a gradient of shape `out` and an operand of shape `target`. */
  method ReduceBroadcast(out: seq<nat>, target: seq<nat>, grad: seq<real>) returns (r: seq<real>)
    requires |target| <= |out| && Compatible(Padded(target, |out|), out) && |grad| == Prod(out)
    ensures r == if out == target then grad
                 else ScatterAdd(|grad|, Projection(out, Padded(target, |out|)), grad, Prod(target))
  {
    if out == target { return grad; }
    var pad := Padded(target, |out|);
    var strides := TargetStrides(pad);
    ghost var at := Projection(out, pad);
    PaddingKeepsProd(target, |out|);
    var reduced := new real[Prod(target)](_ => 0.0);
    assert reduced[..] == ScatterAdd(0, at, grad, Prod(target));
    for lin := 0 to |grad|
      invariant forall d :: 0 <= d < |pad| ==> strides[d] == Prod(pad[d + 1..])
      invariant reduced[..] == ScatterAdd(lin, at, grad, Prod(target))
    {
      var idx := TargetIndex(lin, out, pad, strides);
      ProjectInRange(lin, out, pad);
      AddOne(reduced, idx, lin, at, grad);
    }
    r := reduced[..];
  }

  lemma {:induction false} PaddingKeepsProd(target: seq<nat>, rank: nat)
    requires |target| <= rank
    ensures Prod(Padded(target, rank)) == Prod(target)
    decreases |target|, rank
  {
    var pad := Padded(target, rank);
    if target != [] {
      PaddingKeepsProd(target[..|target| - 1], rank - 1);
      assert pad[..rank - 1] == Padded(target[..|target| - 1], rank - 1);
    } else if rank > 0 {
      PaddingKeepsProd(target, rank - 1);
      assert pad[..rank - 1] == Padded(target, rank - 1);
    }
  }

  lemma ProjectionInRange(out: seq<nat>, target: seq<nat>)
    requires |target| <= |out| && Compatible(Padded(target, |out|), out)
    ensures forall i :: 0 <= i < Prod(out) ==> 0 <= Projection(out, Padded(target, |out|))(i) < Prod(target)
  {
    var pad := Padded(target, |out|);
    var at := Projection(out, pad);
    PaddingKeepsProd(target, |out|);
    forall i | 0 <= i < Prod(out) ensures 0 <= at(i) < Prod(target) {
      ProjectInRange(i, out, pad);
    }
  }

  /** Main result: for every rank and every broadcast-compatible shape, the reduction is the
      adjoint of broadcasting, and it keeps the total of the gradient. */
  lemma ReductionIsAdjoint(out: seq<nat>, target: seq<nat>, x: seq<real>, grad: seq<real>)
    requires |target| <= |out| && Compatible(Padded(target, |out|), out)
    requires |grad| == Prod(out) && |x| == Prod(target)
    ensures var at := Projection(out, Padded(target, |out|));
            var reduced := ScatterAdd(|grad|, at, grad, Prod(target));
            && Dot(Gather(|grad|, at, x), grad) == Dot(reduced, x)
            && Sum(Prod(target), i => At(reduced, i)) == Sum(|grad|, i => At(grad, i))
  {
    var at := Projection(out, Padded(target, |out|));
    ProjectionInRange(out, target);
    GatherScatterAdjoint(|grad|, at, x, grad);
    ScatterKeepsTotal(|grad|, at, grad, Prod(target));
  }
}
