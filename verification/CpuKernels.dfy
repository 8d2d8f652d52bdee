/** The CPU kernels as one instance of the engine: their replay arms, their backward arms and
    their derivatives, and the laws that let the two engine theorems apply to real tapes. */
module CpuKernels {
  import opened Sums
  import opened Scatter
  import opened Tensors
  import opened TapeModel
  import opened Sweep
  import opened Checkpoint
  import opened Adjoint
  import opened Pushforward
  import opened MatMulKernel
  import opened DoublyTransposed
  import opened LoraKernel
  import opened BroadcastKernel
  import opened ReplayAddKernel
  import opened EmbeddingKernel
  import opened RopeKernel

  predicate Sized(t: Tensor) {
    |t.data| == Prod(t.shape)
  }

  function CpuAdd(a: Tensor, b: Tensor): Option<Tensor> {
    if Like(a, b) then Some(Tensor(a.shape, AddSeq(a.data, b.data))) else None
  }

  // ---------------------------------------------------------------- matrix product

  /** Operands as `record_matmul` callers store them. A transposed left operand is limited to the
      shapes for which its gradient is right. */
  predicate MatMulRecorded(ta: bool, tb: bool, m: nat, k: nat, n: nat, a: Tensor, b: Tensor, out: Tensor) {
    && a.shape == (if ta then [k, m] else [m, k]) && |a.data| == m * k
    && b.shape == (if tb then [n, k] else [k, n]) && |b.data| == k * n
    && out.shape == [m, n] && |out.data| == m * n
    && (ta ==> if tb then m == 1 && k == 1 else m == k == n)
  }

  /** An index outside a buffer stops the loops; that counts as an error here. */
  ghost function MatMulVjp(ta: bool, tb: bool, a: Tensor, b: Tensor, g: Tensor): (r: Option<seq<Tensor>>)
    ensures r.Some? ==> |r.value| == 2
  {
    if |a.shape| != 2 || |b.shape| != 2 then None
    else
      var (a0, a1, b0, b1) := (a.shape[0], a.shape[1], b.shape[0], b.shape[1]);
      if !BackwardInBounds(ta, tb, a0, a1, b0, b1, a.data, b.data, g.data) then None
      else Some([Tensor(a.shape, GradLeft(ta, tb, a0, a1, b0, b1, b.data, g.data)),
                 Tensor(b.shape, GradRight(ta, tb, a0, a1, b0, b1, a.data, g.data))])
  }

  lemma MatMulLaw(ta: bool, tb: bool, m: nat, k: nat, n: nat, a: Tensor, b: Tensor, out: Tensor, u: Tensor, v: Tensor, g: Tensor)
    requires MatMulRecorded(ta, tb, m, k, n, a, b, out) && Like(u, a) && Like(v, b) && Like(g, out)
    ensures var r := MatMulVjp(ta, tb, a, b, g);
            && r.Some? && Like(r.value[0], a) && Like(r.value[1], b)
            && Dot(g.data, MatMulJvp(ta, tb, m, k, n, a.data, b.data, u.data, v.data)) ==
               Dot(r.value[0].data, u.data) + Dot(r.value[1].data, v.data)
  {
    assert k * n == n * k;
    if ta && tb {
      UnitWorks(n, a.data, b.data, g.data, u.data, v.data);
    } else if ta {
      TransposedLeftWorksOnSquares(m, a.data, b.data, g.data, u.data, v.data);
    } else {
      MatMulBackwardIsAdjoint(tb, m, k, n, a.data, b.data, g.data, u.data, v.data);
    }
  }

  // ---------------------------------------------------------------- addition

  predicate Broadcasts(target: seq<nat>, out: seq<nat>) {
    |target| <= |out| && Compatible(Padded(target, |out|), out)
  }

  /** `reduce_broadcast_gradient` on tensors. */
  function Reduced(g: Tensor, target: seq<nat>): Option<Tensor> {
    if g.shape == target then Some(g)
    else if !Broadcasts(target, g.shape) then None
    else Some(Tensor(target, ScatterAdd(|g.data|, Projection(g.shape, Padded(target, |g.shape|)), g.data, Prod(target))))
  }

  function ReducedFor(g: Tensor, operand: Option<Tensor>): Option<Tensor> {
    if operand.None? then Some(g) else Reduced(g, operand.value.shape)
  }

  function AddVjp(lhs: Option<Tensor>, rhs: Option<Tensor>, g: Tensor): (r: Option<seq<Tensor>>)
    ensures r.Some? ==> |r.value| == 2
  {
    match (ReducedFor(g, lhs), ReducedFor(g, rhs))
    case (Some(gl), Some(gr)) => Some([gl, gr])
    case _ => None
  }

  predicate AddRecorded(lhs: Tensor, rhs: Tensor, out: Tensor) {
    && Like(lhs, out) && Sized(out) && Sized(rhs)
    && (rhs.shape == out.shape || Broadcasts(rhs.shape, out.shape))
  }

  /** `x` read through the broadcast to `shape`. */
  function Spread(x: Tensor, shape: seq<nat>, n: nat): (s: seq<real>)
    ensures |s| == n
  {
    if x.shape == shape && |x.data| == n then x.data
    else if Broadcasts(x.shape, shape) then Gather(n, Projection(shape, Padded(x.shape, |shape|)), x.data)
    else seq(n, _ => 0.0)
  }

  function AddJvp(lhs: Tensor, u: Tensor, v: Tensor): Tensor {
    Tensor(lhs.shape, AddSeq(u.data, Spread(v, lhs.shape, |u.data|)))
  }

  lemma SpreadLaw(rhs: Tensor, out: Tensor, v: Tensor, g: Tensor)
    requires Sized(out) && Sized(rhs) && (rhs.shape == out.shape || Broadcasts(rhs.shape, out.shape))
    requires Like(v, rhs) && Like(g, out)
    ensures var r := Reduced(g, rhs.shape);
            r.Some? && Like(r.value, rhs) && Dot(g.data, Spread(v, out.shape, |out.data|)) == Dot(r.value.data, v.data)
  {
    if rhs.shape != out.shape {
      ReductionIsAdjoint(out.shape, rhs.shape, v.data, g.data);
      DotCommutes(g.data, Spread(v, out.shape, |out.data|));
    }
  }

  lemma AddLaw(lhs: Tensor, rhs: Tensor, out: Tensor, u: Tensor, v: Tensor, g: Tensor)
    requires AddRecorded(lhs, rhs, out) && Like(u, lhs) && Like(v, rhs) && Like(g, out)
    ensures var r := AddVjp(Some(lhs), Some(rhs), g);
            && r.Some? && Like(r.value[0], lhs) && Like(r.value[1], rhs)
            && Dot(g.data, AddJvp(lhs, u, v).data) == Dot(r.value[0].data, u.data) + Dot(r.value[1].data, v.data)
  {
    SpreadLaw(rhs, out, v, g);
    SplitPairing(g.data, u.data, Spread(v, lhs.shape, |u.data|));
  }

  // ---------------------------------------------------------------- scaling

  lemma ScaleLaw(f: real, u: seq<real>, g: seq<real>)
    requires |u| == |g|
    ensures Dot(g, ScaleSeq(f, u)) == Dot(ScaleSeq(f, g), u)
  {
    DotCommutes(g, ScaleSeq(f, u));
    DotScale(f, u, g);
    DotScale(f, g, u);
    DotCommutes(u, g);
  }

  // ---------------------------------------------------------------- LoRA

  /** Rank 0 divides by zero in the code; recorded operations have a positive rank. */
  function LoraScale(alpha: real, rank: nat): real {
    if rank == 0 then 0.0 else alpha / rank as real
  }

  /** The extents `lora_backward` reads off its operands: only the first two axes of x. */
  function BackwardDims(x: Tensor, a: Tensor, b: Tensor): Option<LoraDims> {
    if |x.shape| == 0 || |a.shape| != 2 || |b.shape| != 2 then None
    else if |x.shape| == 1 then Some(LoraDims(1, x.shape[0], a.shape[0], b.shape[0]))
    else Some(LoraDims(x.shape[0], x.shape[1], a.shape[0], b.shape[0]))
  }

  ghost function LoraVjp(s: real, x: Tensor, a: Tensor, b: Tensor, g: Tensor): (r: Option<seq<Tensor>>)
    ensures r.Some? ==> |r.value| == 4
  {
    match BackwardDims(x, a, b)
    case None => None
    case Some(d) =>
      if !LoraSizes(d, g.data, x.data, a.data, b.data) then None
      else
        var r := LoraGradsOf(d, s, x.data, a.data, b.data, g.data);
        Some([g, Tensor(x.shape, r.x), Tensor(a.shape, r.a), Tensor(b.shape, r.b)])
  }

  /** Every axis after the first has extent 1. */
  predicate TailOnes(shape: seq<nat>) {
    forall e :: 1 <= e < |shape| ==> shape[e] == 1
  }

  ghost predicate LoraRecorded(rank: nat, base: Tensor, x: Tensor, a: Tensor, b: Tensor, out: Tensor) {
    && rank > 0 && Like(base, out) && (|x.shape| <= 2 || TailOnes(x.shape)) && BackwardDims(x, a, b).Some?
    && LoraSizes(BackwardDims(x, a, b).value, base.data, x.data, a.data, b.data)
  }

  function LoraTangent(s: real, base: Tensor, x: Tensor, a: Tensor, b: Tensor, ub: Tensor, ux: Tensor, ua: Tensor, uw: Tensor): Tensor {
    match BackwardDims(x, a, b)
    case None => ub
    case Some(d) => Tensor(base.shape, LoraJvp(d, s, x.data, a.data, b.data, ub.data, ux.data, ua.data, uw.data))
  }

  lemma LoraLaw(rank: nat, s: real, base: Tensor, x: Tensor, a: Tensor, b: Tensor, out: Tensor,
                ub: Tensor, ux: Tensor, ua: Tensor, uw: Tensor, g: Tensor)
    requires LoraRecorded(rank, base, x, a, b, out) && Like(g, out)
    requires Like(ub, base) && Like(ux, x) && Like(ua, a) && Like(uw, b)
    ensures var r := LoraVjp(s, x, a, b, g);
            && r.Some? && Like(r.value[0], base) && Like(r.value[1], x) && Like(r.value[2], a) && Like(r.value[3], b)
            && Dot(g.data, LoraTangent(s, base, x, a, b, ub, ux, ua, uw).data) ==
               Dot(r.value[0].data, ub.data) + Dot(r.value[1].data, ux.data) + Dot(r.value[2].data, ua.data) + Dot(r.value[3].data, uw.data)
  {
    var d := BackwardDims(x, a, b).value;
    LoraBackwardIsAdjoint(d, s, x.data, a.data, b.data, g.data, ub.data, ux.data, ua.data, uw.data);
    assert d.fin * d.rank == d.rank * d.fin && d.rank * d.fout == d.fout * d.rank;
  }

  // ---------------------------------------------------------------- rotary embedding

  /** The tables are constants of the operation; only x has a gradient. */
  function RopeVjp(c: seq<real>, s: seq<real>, g: Tensor): (r: Option<seq<Tensor>>)
    ensures r.Some? ==> |r.value| == 1
  {
    if !RopeInBounds(|c|, |s|, |g.data|) then None else Some([Tensor(g.shape, RopeBackwardOf(c, s, g.data))])
  }

  /** The lengths for which the gradient is right. */
  predicate RopeRecorded(x: Tensor, c: Tensor, s: Tensor, out: Tensor) {
    && Like(x, out) && ReplayAcceptsRope(|c.data|, |s.data|, |x.data|)
    && (|x.data| == 0 || |c.data| <= |s.data| || (|s.data| == 1 && !BackOnHeads(|c.data|, |x.data|)))
  }

  function RopeTangent(x: Tensor, c: Tensor, s: Tensor, u: Tensor): Tensor {
    var h := HalfHead(|c.data|, |s.data|);
    if h == 0 then u else Tensor(x.shape, RopeOf(h, c.data, s.data, u.data))
  }

  lemma RopeLaw(x: Tensor, c: Tensor, s: Tensor, out: Tensor, u: Tensor, g: Tensor)
    requires RopeRecorded(x, c, s, out) && Like(u, x) && Like(g, out)
    ensures var r := RopeVjp(c.data, s.data, g);
            && r.Some? && Like(r.value[0], x) && Like(RopeTangent(x, c, s, u), out)
            && Dot(g.data, RopeTangent(x, c, s, u).data) == Dot(r.value[0].data, u.data)
  {
    if |x.data| > 0 {
      RopeAdjoint(c.data, s.data, u.data, g.data);
    } else {
      assert RopeTangent(x, c, s, u).data == [] && RopeBackwardOf(c.data, s.data, g.data) == [];
    }
  }

  // ---------------------------------------------------------------- embedding

  function EmbeddingVjp(tokens: seq<nat>, vocab: nat, h: nat, g: Tensor): (r: Option<seq<Tensor>>)
    ensures r.Some? ==> |r.value| == 1
  {
    if |g.data| != |tokens| * h then None
    else Some([Tensor([vocab, h], ScatterAdd(|g.data|, TokenMap(tokens, h), g.data, vocab * h))])
  }

  predicate EmbeddingRecorded(tokens: seq<nat>, vocab: nat, h: nat, w: Tensor, out: Tensor) {
    && w.shape == [vocab, h] && |w.data| == vocab * h && out.shape == [|tokens|, h] && |out.data| == |tokens| * h
    && forall t :: 0 <= t < |tokens| ==> tokens[t] < vocab
  }

  function EmbeddingTangent(tokens: seq<nat>, h: nat, u: Tensor): Tensor {
    Tensor([|tokens|, h], Gather(|tokens| * h, TokenMap(tokens, h), u.data))
  }

  lemma EmbeddingLaw(tokens: seq<nat>, vocab: nat, h: nat, w: Tensor, out: Tensor, u: Tensor, g: Tensor)
    requires EmbeddingRecorded(tokens, vocab, h, w, out) && Like(u, w) && Like(g, out)
    ensures var r := EmbeddingVjp(tokens, vocab, h, g);
            && r.Some? && Like(r.value[0], w) && Like(EmbeddingTangent(tokens, h, u), out)
            && Dot(g.data, EmbeddingTangent(tokens, h, u).data) == Dot(r.value[0].data, u.data)
  {
    EmbeddingBackwardIsAdjoint(tokens, vocab, h, u.data, g.data);
  }

  // ---------------------------------------------------------------- the instance

  function LoraReplay(s: real, base: Tensor, x: Tensor, a: Tensor, b: Tensor): Option<Tensor> {
    if |x.shape| == 0 || |a.shape| != 2 || |b.shape| != 2 then None
    else
      var fin := x.shape[|x.shape| - 1];
      var d := LoraDims(Prod(x.shape[..|x.shape| - 1]), fin, a.shape[0], b.shape[0]);
      if a.shape[1] != fin || a.shape[0] != b.shape[1] || |base.data| != d.batch * d.fout then None
      else Some(Tensor(base.shape, LoraOf(d, s, base.data, x.data, a.data, b.data)))
  }

  function RopeReplay(x: Tensor, c: seq<real>, s: seq<real>): Option<Tensor> {
    if !ReplayAcceptsRope(|c|, |s|, |x.data|) then None else Some(Tensor(x.shape, RopeOf(HalfHead(|c|, |s|), c, s, x.data)))
  }

  function EmbeddingReplay(tokens: seq<nat>, vocab: nat, h: nat, w: Tensor): Option<Tensor> {
    match EmbeddingOf(tokens, vocab, h, w.data)
    case None => None
    case Some(out) => Some(Tensor([|tokens|, h], out))
  }

  /** `replay_entry`. The kernels `o` stand for the three arms that need a transcendental. */
  ghost function CpuReplay(o: Kernels, m: Metadata, ins: seq<Tensor>): Option<Tensor> {
    if |ins| != Arity(m) then None
    else
      match m
      case MatMul(ta, tb, mm, k, n) =>
        if ReplayAccepts(ta, tb, mm, k, n, |ins[0].data|, |ins[1].data|)
        then Some(Tensor([mm, n], MatMulOf(ta, tb, mm, k, n, ins[0].data, ins[1].data))) else None
      case Add =>
        (match ReplayAddOf(ins[0].data, ins[1].data)
         case None => None
         case Some(out) => Some(Tensor(ins[0].shape, out)))
      case Scale(f) => Some(Tensor(ins[0].shape, ScaleSeq(f, ins[0].data)))
      case LoRAApply(alpha, rank, _, _) => LoraReplay(LoraScale(alpha, rank), ins[0], ins[1], ins[2], ins[3])
      case Rope => RopeReplay(ins[0], ins[1].data, ins[2].data)
      case Embedding(tokens, vocab, h, _) => EmbeddingReplay(tokens, vocab, h, ins[0])
      case _ => o.replay(m, ins)
  }

  predicate Transcendental(m: Metadata) {
    m.SiluMul? || m.RmsNorm? || m.Softmax?
  }

  ghost function CpuVjp(o: Kernels, m: Metadata, ins: seq<Option<Tensor>>, out: Option<Tensor>, g: Tensor): Option<seq<Tensor>> {
    if Transcendental(m) then o.vjp(m, ins, out, g)
    else if |ins| != Arity(m) || !OperandsPresent(m, ins, out) then None
    else
      match m
      case MatMul(ta, tb, _, _, _) => MatMulVjp(ta, tb, ins[0].value, ins[1].value, g)
      case Add => AddVjp(ins[0], ins[1], g)
      case Scale(f) => Some([Tensor(g.shape, ScaleSeq(f, g.data))])
      case LoRAApply(alpha, rank, _, _) => LoraVjp(LoraScale(alpha, rank), ins[1].value, ins[2].value, ins[3].value, g)
      case Rope => RopeVjp(ins[1].value.data, ins[2].value.data, g)
      case Embedding(tokens, vocab, h, _) => EmbeddingVjp(tokens, vocab, h, g)
  }

  ghost function CpuJvp(oJ: Jvp, m: Metadata, ins: seq<Tensor>, tans: seq<Tensor>): Tensor {
    if Transcendental(m) || |ins| != Arity(m) || |tans| != Arity(m) then oJ(m, ins, tans)
    else
      match m
      case MatMul(ta, tb, mm, k, n) =>
        Tensor([mm, n], MatMulJvp(ta, tb, mm, k, n, ins[0].data, ins[1].data, tans[0].data, tans[1].data))
      case Add => AddJvp(ins[0], tans[0], tans[1])
      case Scale(f) => Tensor(ins[0].shape, ScaleSeq(f, tans[0].data))
      case LoRAApply(alpha, rank, _, _) =>
        LoraTangent(LoraScale(alpha, rank), ins[0], ins[1], ins[2], ins[3], tans[0], tans[1], tans[2], tans[3])
      case Rope => RopeTangent(ins[0], ins[1], ins[2], tans[0])
      case Embedding(tokens, _, h, _) => EmbeddingTangent(tokens, h, tans[0])
  }

  ghost function Cpu(o: Kernels): (K: Kernels)
    requires o.Valid()
    ensures K.Valid() && AddsPointwise(K)
  {
    Kernels((m, ins) => CpuReplay(o, m, ins), (m, ins, out, g) => CpuVjp(o, m, ins, out, g), CpuAdd)
  }

  ghost function CpuTangent(oJ: Jvp): Jvp {
    (m, ins, tans) => CpuJvp(oJ, m, ins, tans)
  }

  /** The operand shapes of one recorded operation. */
  ghost predicate Recordable(m: Metadata, ins: seq<Tensor>, out: Tensor)
    requires |ins| == Arity(m)
  {
    match m
    case MatMul(ta, tb, mm, k, n) => MatMulRecorded(ta, tb, mm, k, n, ins[0], ins[1], out)
    case Add => AddRecorded(ins[0], ins[1], out)
    case Scale(_) => Like(ins[0], out)
    case LoRAApply(_, rank, _, _) => LoraRecorded(rank, ins[0], ins[1], ins[2], ins[3], out)
    case Rope => RopeRecorded(ins[0], ins[1], ins[2], out)
    case Embedding(tokens, vocab, h, _) => EmbeddingRecorded(tokens, vocab, h, ins[0], out)
    case _ => false
  }

  // ---------------------------------------------------------------- the laws, arm by arm

  lemma PairSums(gs: seq<Tensor>, tans: seq<Tensor>, n: nat)
    requires n <= |gs| && n <= |tans| && n <= 4
    ensures n == 1 ==> PairSum(gs, tans, n) == Dot(gs[0].data, tans[0].data)
    ensures n == 2 ==> PairSum(gs, tans, n) == Dot(gs[0].data, tans[0].data) + Dot(gs[1].data, tans[1].data)
    ensures n == 4 ==> PairSum(gs, tans, n) == Dot(gs[0].data, tans[0].data) + Dot(gs[1].data, tans[1].data) +
                                               Dot(gs[2].data, tans[2].data) + Dot(gs[3].data, tans[3].data)
  {
    if n > 0 { PairSums(gs, tans, n - 1); }
    if n == 4 {
      assert PairSum(gs, tans, 3) == PairSum(gs, tans, 2) + Dot(gs[2].data, tans[2].data);
      PairSums(gs, tans, 2);
    }
  }

  /** The kernel succeeds, its gradients fit, and it is adjoint to the derivative. */
  ghost predicate ArmLaw(o: Kernels, oJ: Jvp, m: Metadata, ins: seq<Tensor>, out: Tensor, tans: seq<Tensor>, g: Tensor)
    requires |ins| == |tans| == Arity(m)
  {
    var r := CpuVjp(o, m, Somes(ins), Some(out), g);
    && r.Some? && |r.value| == NumGrads(m)
    && (forall k {:trigger r.value[k]} :: 0 <= k < NumGrads(m) ==> Like(r.value[k], ins[k]))
    && Like(CpuJvp(oJ, m, ins, tans), out)
    && Dot(g.data, CpuJvp(oJ, m, ins, tans).data) == PairSum(r.value, tans, NumGrads(m))
  }

  lemma MatMulArm(o: Kernels, oJ: Jvp, m: Metadata, ins: seq<Tensor>, out: Tensor, tans: seq<Tensor>, g: Tensor)
    requires m.MatMul? && |ins| == Arity(m) && Recordable(m, ins, out) && TangentsFor(tans, ins) && Like(g, out)
    ensures ArmLaw(o, oJ, m, ins, out, tans, g)
  {
    var r := CpuVjp(o, m, Somes(ins), Some(out), g);
    assert Somes(ins)[0] == Some(ins[0]) && Somes(ins)[1] == Some(ins[1]);
    assert Like(tans[0], ins[0]) && Like(tans[1], ins[1]);
    MatMulLaw(m.transposeA, m.transposeB, m.m, m.k, m.n, ins[0], ins[1], out, tans[0], tans[1], g);
    PairSums(r.value, tans, 2);
  }

  lemma AddArm(o: Kernels, oJ: Jvp, m: Metadata, ins: seq<Tensor>, out: Tensor, tans: seq<Tensor>, g: Tensor)
    requires m.Add? && |ins| == Arity(m) && Recordable(m, ins, out) && TangentsFor(tans, ins) && Like(g, out)
    ensures ArmLaw(o, oJ, m, ins, out, tans, g)
  {
    var r := CpuVjp(o, m, Somes(ins), Some(out), g);
    assert Somes(ins)[0] == Some(ins[0]) && Somes(ins)[1] == Some(ins[1]);
    assert Like(tans[0], ins[0]) && Like(tans[1], ins[1]);
    AddLaw(ins[0], ins[1], out, tans[0], tans[1], g);
    PairSums(r.value, tans, 2);
  }

  lemma ScaleArm(o: Kernels, oJ: Jvp, m: Metadata, ins: seq<Tensor>, out: Tensor, tans: seq<Tensor>, g: Tensor)
    requires m.Scale? && |ins| == Arity(m) && Recordable(m, ins, out) && TangentsFor(tans, ins) && Like(g, out)
    ensures ArmLaw(o, oJ, m, ins, out, tans, g)
  {
    var r := CpuVjp(o, m, Somes(ins), Some(out), g);
    assert Somes(ins)[0] == Some(ins[0]);
    assert Like(tans[0], ins[0]);
    ScaleLaw(m.factor, tans[0].data, g.data);
    PairSums(r.value, tans, 1);
  }

  lemma LoraVjpIs(o: Kernels, m: Metadata, ins: seq<Tensor>, out: Tensor, g: Tensor)
    requires m.LoRAApply? && |ins| == 4
    ensures CpuVjp(o, m, Somes(ins), Some(out), g) == LoraVjp(LoraScale(m.alpha, m.rank), ins[1], ins[2], ins[3], g)
  {
    var s := Somes(ins);
    assert s[0] == Some(ins[0]) && s[1] == Some(ins[1]) && s[2] == Some(ins[2]) && s[3] == Some(ins[3]);
  }

  lemma LoraJvpIs(oJ: Jvp, m: Metadata, ins: seq<Tensor>, tans: seq<Tensor>)
    requires m.LoRAApply? && |ins| == |tans| == 4
    ensures CpuJvp(oJ, m, ins, tans) ==
            LoraTangent(LoraScale(m.alpha, m.rank), ins[0], ins[1], ins[2], ins[3], tans[0], tans[1], tans[2], tans[3])
  {
  }

  lemma LoraArm(o: Kernels, oJ: Jvp, m: Metadata, ins: seq<Tensor>, out: Tensor, tans: seq<Tensor>, g: Tensor)
    requires m.LoRAApply? && |ins| == Arity(m) && Recordable(m, ins, out) && TangentsFor(tans, ins) && Like(g, out)
    ensures ArmLaw(o, oJ, m, ins, out, tans, g)
  {
    LoraVjpIs(o, m, ins, out, g);
    LoraJvpIs(oJ, m, ins, tans);
    assert Like(tans[0], ins[0]) && Like(tans[1], ins[1]) && Like(tans[2], ins[2]) && Like(tans[3], ins[3]);
    LoraLaw(m.rank, LoraScale(m.alpha, m.rank), ins[0], ins[1], ins[2], ins[3], out, tans[0], tans[1], tans[2], tans[3], g);
    PairSums(LoraVjp(LoraScale(m.alpha, m.rank), ins[1], ins[2], ins[3], g).value, tans, 4);
  }

  lemma RopeArm(o: Kernels, oJ: Jvp, m: Metadata, ins: seq<Tensor>, out: Tensor, tans: seq<Tensor>, g: Tensor)
    requires m.Rope? && |ins| == Arity(m) && Recordable(m, ins, out) && TangentsFor(tans, ins) && Like(g, out)
    ensures ArmLaw(o, oJ, m, ins, out, tans, g)
  {
    var r := CpuVjp(o, m, Somes(ins), Some(out), g);
    assert Somes(ins)[0] == Some(ins[0]) && Somes(ins)[1] == Some(ins[1]) && Somes(ins)[2] == Some(ins[2]);
    assert Like(tans[0], ins[0]) && Like(tans[1], ins[1]) && Like(tans[2], ins[2]);
    RopeLaw(ins[0], ins[1], ins[2], out, tans[0], g);
    PairSums(r.value, tans, 1);
  }

  lemma EmbeddingArm(o: Kernels, oJ: Jvp, m: Metadata, ins: seq<Tensor>, out: Tensor, tans: seq<Tensor>, g: Tensor)
    requires m.Embedding? && |ins| == Arity(m) && Recordable(m, ins, out) && TangentsFor(tans, ins) && Like(g, out)
    ensures ArmLaw(o, oJ, m, ins, out, tans, g)
  {
    var r := CpuVjp(o, m, Somes(ins), Some(out), g);
    assert Somes(ins)[0] == Some(ins[0]);
    assert Like(tans[0], ins[0]);
    EmbeddingLaw(m.tokenIds, m.vocabSize, m.hiddenDim, ins[0], out, tans[0], g);
    PairSums(r.value, tans, 1);
  }

  lemma ArmIsAdjoint(o: Kernels, oJ: Jvp, m: Metadata, ins: seq<Tensor>, out: Tensor, tans: seq<Tensor>, g: Tensor)
    requires |ins| == Arity(m) && Recordable(m, ins, out) && TangentsFor(tans, ins) && Like(g, out)
    ensures ArmLaw(o, oJ, m, ins, out, tans, g)
  {
    match m
    case MatMul(_, _, _, _, _) => MatMulArm(o, oJ, m, ins, out, tans, g);
    case Add => AddArm(o, oJ, m, ins, out, tans, g);
    case Scale(_) => ScaleArm(o, oJ, m, ins, out, tans, g);
    case LoRAApply(_, _, _, _) => LoraArm(o, oJ, m, ins, out, tans, g);
    case Rope => RopeArm(o, oJ, m, ins, out, tans, g);
    case Embedding(_, _, _, _) => EmbeddingArm(o, oJ, m, ins, out, tans, g);
  }

  // ---------------------------------------------------------------- whole tapes

  /** Every linear arm was recorded with fitting shapes; the transcendental ones are lawful by
      assumption on `o`. */
  ghost predicate CpuTape(o: Kernels, oJ: Jvp, t: TapeView)
    requires o.Valid() && WellFormed(t) && Resident(t)
  {
    forall i {:trigger t.entries[i]} :: 0 <= i < |t.entries| ==> CpuEntry(o, oJ, t, i)
  }

  ghost predicate CpuEntry(o: Kernels, oJ: Jvp, t: TapeView, i: nat)
    requires o.Valid() && WellFormed(t) && Resident(t) && i < |t.entries|
  {
    InputsResident(t, i);
    var e := t.entries[i];
    if Transcendental(e.metadata) then LocalLaws(Cpu(o), CpuTangent(oJ), t, i)
    else Recordable(e.metadata, Values(t, e.inputs), t.tensors[e.output])
  }

  lemma CpuLocalLaws(o: Kernels, oJ: Jvp, t: TapeView, i: nat)
    requires o.Valid() && WellFormed(t) && Resident(t) && i < |t.entries| && CpuEntry(o, oJ, t, i)
    ensures LocalLaws(Cpu(o), CpuTangent(oJ), t, i)
  {
    InputsResident(t, i);
    var e := t.entries[i];
    var K, J, m := Cpu(o), CpuTangent(oJ), e.metadata;
    var ins, out := Values(t, e.inputs), t.tensors[e.output];
    if !Transcendental(m) {
      ZerosAreTangents(ins);
      forall tans, g | TangentsFor(tans, ins) && Like(g, out)
        ensures LocalAdjoint(K, J, m, ins, out, tans, g) && K.vjp(m, Somes(ins), Some(out), g).Some? && Like(J(m, ins, tans), out)
      {
        ArmIsAdjoint(o, oJ, m, ins, out, tans, g);
        ArmIsLocal(o, oJ, m, ins, out, tans, g);
      }
      assert Like(out, out);
    }
  }

  function ZeroTangents(ins: seq<Tensor>): (r: seq<Tensor>)
    ensures |r| == |ins|
  {
    seq(|ins|, k requires 0 <= k < |ins| => ZerosLike(ins[k]))
  }

  lemma ZerosAreTangents(ins: seq<Tensor>)
    ensures TangentsFor(ZeroTangents(ins), ins)
  {
  }

  lemma ArmIsLocal(o: Kernels, oJ: Jvp, m: Metadata, ins: seq<Tensor>, out: Tensor, tans: seq<Tensor>, g: Tensor)
    requires o.Valid() && |ins| == |tans| == Arity(m) && ArmLaw(o, oJ, m, ins, out, tans, g)
    ensures LocalAdjoint(Cpu(o), CpuTangent(oJ), m, ins, out, tans, g)
    ensures Cpu(o).vjp(m, Somes(ins), Some(out), g).Some? && Like(CpuTangent(oJ)(m, ins, tans), out)
  {
  }

  lemma CpuIsLawful(o: Kernels, oJ: Jvp, t: TapeView)
    requires o.Valid() && WellFormed(t) && Resident(t) && CpuTape(o, oJ, t)
    ensures Lawful(Cpu(o), CpuTangent(oJ), t)
  {
    forall i | 0 <= i < |t.entries| ensures LocalLaws(Cpu(o), CpuTangent(oJ), t, i) {
      assert CpuEntry(o, oJ, t, i);
      CpuLocalLaws(o, oJ, t, i);
    }
  }

  /** Main theorem. For the CPU kernels as they are: the backward pass over a tape of matrix
      products, additions, scalings, LoRA, rotary and embedding operations succeeds and computes
      the adjoint of the tape, for every tangent on the leaves. */
  lemma CpuBackwardIsTheAdjoint(o: Kernels, oJ: Jvp, t: TapeView, leaf: map<TensorId, Tensor>, ps: seq<ParamId>,
                                lossGrad: Tensor, lossId: TensorId, params: Params)
    requires o.Valid() && WellFormed(t) && Resident(t) && CpuTape(o, oJ, t)
    requires Posed(CpuTangent(oJ), t, leaf, ps, lossGrad, lossId, params)
    ensures IsAdjointRun(CpuTangent(oJ), t, leaf, ps, lossGrad, lossId, params,
                         BackwardRun(Cpu(o), t, AccumulateSink(Cpu(o)), lossGrad, lossId, params))
  {
    CpuIsLawful(o, oJ, t);
    FullBackwardIsTheAdjoint(Cpu(o), CpuTangent(oJ), t, leaf, ps, lossGrad, lossId, params);
  }

  /** The same over the freed tape, where the CPU's replay reproduces every recorded output. */
  lemma CpuFreedBackwardIsTheAdjoint(o: Kernels, oJ: Jvp, t: TapeView, leaf: map<TensorId, Tensor>, ps: seq<ParamId>,
                                     lossGrad: Tensor, lossId: TensorId, params: Params)
    requires o.Valid() && Checkpointable(Cpu(o), t) && CpuTape(o, oJ, t)
    requires Posed(CpuTangent(oJ), t, leaf, ps, lossGrad, lossId, params)
    ensures WellFormed(Freed(t))
    ensures IsAdjointRun(CpuTangent(oJ), t, leaf, ps, lossGrad, lossId, params,
                         BackwardRun(Cpu(o), Freed(t), AccumulateSink(Cpu(o)), lossGrad, lossId, params))
  {
    CpuIsLawful(o, oJ, t);
    FreedBackwardIsTheAdjoint(Cpu(o), CpuTangent(oJ), t, leaf, ps, lossGrad, lossId, params);
  }
}
