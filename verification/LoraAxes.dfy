/** LoRA inputs of any rank. The operation folds the leading axes of x into one; its gradient reads the
    first two axes only. When the two agree, exactly. */
module LoraAxes {
  import opened Sums
  import opened Grids
  import opened Tensors
  import opened TapeModel
  import opened Sweep
  import opened Adjoint
  import opened LoraKernel
  import opened BroadcastKernel
  import opened CpuKernels
  import opened ArmDerivatives

  lemma {:induction false} ProdOne(dims: seq<nat>)
    requires Prod(dims) == 1
    ensures forall e :: 0 <= e < |dims| ==> dims[e] == 1
  {
    if dims != [] {
      var front, last := Prod(dims[..|dims| - 1]), dims[|dims| - 1];
      FactorsOfOne(front, last);
      ProdOne(dims[..|dims| - 1]);
      assert forall e :: 0 <= e < |dims| - 1 ==> dims[..|dims| - 1][e] == dims[e];
    }
  }

  lemma FactorsOfOne(a: nat, b: nat)
    requires a * b == 1
    ensures a == 1 && b == 1
  {
    if a >= 2 && b >= 1 { assert a * b >= a * 1; }
    if b >= 2 && a >= 1 { assert a * b >= 1 * b; }
  }

  lemma {:induction false} ProdPositive(dims: seq<nat>)
    requires Positive(dims)
    ensures Prod(dims) > 0
  {
    if dims != [] { ProdPositive(dims[..|dims| - 1]); }
  }

  lemma SameFactor(a: nat, x: nat, y: nat)
    requires a > 0 && a * x == a * y
    ensures x == y
  {
    assert a * (x - y) == 0;
    NoZeroFactor(a, x - y);
  }

  lemma NoZeroFactor(a: int, d: int)
    requires a > 0 && a * d == 0
    ensures d == 0
  {
  }

  /** The first two axes hold everything exactly when the others have extent 1. */
  lemma TwoAxesHoldAll(shape: seq<nat>)
    requires |shape| > 2 && Positive(shape) && Prod(shape) == shape[0] * shape[1]
    ensures forall e :: 2 <= e < |shape| ==> shape[e] == 1
  {
    var rest := shape[2..];
    ProdSplit(shape, 0);
    ProdSplit(shape, 1);
    assert shape[0..] == shape;
    var p, q := shape[0] * shape[1], Prod(rest);
    Reassociate(shape[0], shape[1], q);
    ProductPositive(shape[0], shape[1]);
    SameFactor(p, q, 1);
    ProdOne(rest);
    assert forall e :: 2 <= e < |shape| ==> shape[e] == rest[e - 2];
  }

  lemma ProductPositive(a: nat, b: nat)
    requires a > 0 && b > 0
    ensures a * b > 0
  {
  }

  /** The extents the gradient reads fit the operands. */
  lemma ReadExtentsFit(x: Tensor, a: Tensor)
    requires |x.shape| > 2 && |a.shape| == 2 && Positive(x.shape) && Positive(a.shape) && Sized(x) && Sized(a)
    requires a.shape[1] == x.shape[|x.shape| - 1]
    ensures |x.data| == x.shape[0] * x.shape[1] && |a.data| == x.shape[1] * a.shape[0] <==> TailOnes(x.shape)
  {
    PairProd(a.shape);
    var last := x.shape[|x.shape| - 1];
    if |x.data| == x.shape[0] * x.shape[1] && |a.data| == x.shape[1] * a.shape[0] {
      TwoAxesHoldAll(x.shape);
      SameFactor(a.shape[0], x.shape[1], last);
    }
    if TailOnes(x.shape) { ProdTailOnes(x.shape); }
  }

  lemma PairProd(dims: seq<nat>)
    requires |dims| == 2
    ensures Prod(dims) == dims[0] * dims[1]
  {
    assert dims[..1] == [dims[0]] && dims[..1][..0] == [] && Prod([]) == 1;
  }

  lemma FewAxesFit(x: Tensor, a: Tensor)
    requires 1 <= |x.shape| <= 2 && |a.shape| == 2 && Sized(x) && Sized(a) && a.shape[1] == x.shape[|x.shape| - 1]
    ensures var (batch, fin) := if |x.shape| == 1 then (1, x.shape[0]) else (x.shape[0], x.shape[1]);
            |x.data| == batch * fin && |a.data| == fin * a.shape[0]
  {
    PairProd(a.shape);
    if |x.shape| == 2 { PairProd(x.shape); } else { assert x.shape[..0] == [] && Prod([]) == 1; }
  }

  /** Operands that replay accepts, with the sizes their shapes say. */
  ghost predicate Accepted(o: Kernels, m: Metadata, base: Tensor, x: Tensor, a: Tensor, b: Tensor) {
    && m.LoRAApply? && m.rank > 0 && CpuReplay(o, m, [base, x, a, b]).Some?
    && |x.shape| > 0 && |a.shape| == 2 && |b.shape| == 2 && Positive(x.shape) && Positive(a.shape)
    && Sized(x) && Sized(a) && Sized(b)
  }

  lemma AcceptedShapes(o: Kernels, m: Metadata, base: Tensor, x: Tensor, a: Tensor, b: Tensor)
    requires Accepted(o, m, base, x, a, b)
    ensures a.shape[1] == x.shape[|x.shape| - 1] && a.shape[0] == b.shape[1]
    ensures |base.data| == Prod(x.shape[..|x.shape| - 1]) * b.shape[0] && |b.data| == a.shape[0] * b.shape[0]
  {
    PairProd(b.shape);
  }

  /** Main theorem. The gradient of a LoRA operation that replay accepts exists if and only if x has at
      most two axes or every axis after the first has extent 1; otherwise the pass stops with an error.
      Where it exists, the adjoint theorems cover it. */
  lemma LoraBackwardIff(o: Kernels, m: Metadata, base: Tensor, x: Tensor, a: Tensor, b: Tensor, g: Tensor)
    requires Accepted(o, m, base, x, a, b) && Like(g, base)
    ensures CpuVjp(o, m, Somes([base, x, a, b]), Some(base), g).Some? <==> |x.shape| <= 2 || TailOnes(x.shape)
    ensures |x.shape| <= 2 || TailOnes(x.shape) ==> LoraRecorded(m.rank, base, x, a, b, base)
  {
    AcceptedShapes(o, m, base, x, a, b);
    var d := BackwardDims(x, a, b).value;
    if |x.shape| <= 2 { FewAxesFit(x, a); } else { ReadExtentsFit(x, a); }
    if |x.shape| <= 2 || TailOnes(x.shape) { SameDims(x, a, b); }
  }
}
