/** The derivatives the gradients are adjoint to are those of the replayed operations: along any line
    through the recorded operands, every replayed entry is its value, plus h times the derivative,
    plus terms of second and third order. */
module ArmDerivatives {
  import opened Sums
  import opened Grids
  import opened Scatter
  import opened Tensors
  import opened TapeModel
  import opened Sweep
  import opened Adjoint
  import opened Pushforward
  import opened MatMulKernel
  import opened LoraKernel
  import opened BroadcastKernel
  import opened ReplayAddKernel
  import opened EmbeddingKernel
  import opened RopeKernel
  import opened CpuKernels
  import opened ArmValues

  function Along1(x: Tensor, u: Tensor, h: real): (y: Tensor)
    ensures Like(y, x)
  {
    Tensor(x.shape, AddSeq(x.data, ScaleSeq(h, u.data)))
  }

  /** The operands moved by h times their tangents. */
  function Moved(ins: seq<Tensor>, tans: seq<Tensor>, h: real): (r: seq<Tensor>)
    requires |tans| == |ins|
    ensures |r| == |ins| && forall k :: 0 <= k < |ins| ==> r[k] == Along1(ins[k], tans[k], h)
  {
    seq(|ins|, k requires 0 <= k < |ins| => Along1(ins[k], tans[k], h))
  }

  /** y == v + h j + h^2 q + h^3 c. */
  predicate OnCubic(h: real, y: real, v: real, j: real, q: real, c: real) {
    y == v + (h * j + h * h * (q + h * c))
  }

  predicate OnLine(h: real, y: real, v: real, j: real) {
    y == v + h * j
  }

  lemma LineIsCubic(h: real, y: real, v: real, j: real)
    requires OnLine(h, y, v, j)
    ensures OnCubic(h, y, v, j, 0.0, 0.0)
  {
  }

  lemma MovedAt(x: seq<real>, u: seq<real>, h: real, i: int)
    requires |u| == |x|
    ensures OnLine(h, At(AddSeq(x, ScaleSeq(h, u)), i), At(x, i), At(u, i))
  {
    if 0 <= i < |x| {
      ScaledAt(h, u, i);
      assert ScaledBy(h, u[i], At(ScaleSeq(h, u), i));
    }
  }

  // ---------------------------------------------------------------- linear arms

  lemma ScaledLine(f: real, h: real, y: real, v: real, j: real, fy: real, fv: real, fj: real)
    requires OnLine(h, y, v, j) && ScaledBy(f, y, fy) && ScaledBy(f, v, fv) && ScaledBy(f, j, fj)
    ensures OnLine(h, fy, fv, fj)
  {
    assert f * (v + h * j) == f * v + h * (f * j);
  }

  lemma ScaleLine(f: real, x: seq<real>, u: seq<real>, h: real, p: nat)
    requires p < |x| == |u|
    ensures OnLine(h, ScaleSeq(f, AddSeq(x, ScaleSeq(h, u)))[p], ScaleSeq(f, x)[p], ScaleSeq(f, u)[p])
  {
    var y := AddSeq(x, ScaleSeq(h, u));
    MovedAt(x, u, h, p);
    ScaledAt(f, y, p);
    ScaledAt(f, x, p);
    ScaledAt(f, u, p);
    ScaledLine(f, h, y[p], x[p], u[p], At(ScaleSeq(f, y), p), At(ScaleSeq(f, x), p), At(ScaleSeq(f, u), p));
  }

  lemma GatherLine(n: nat, at: int -> int, x: seq<real>, u: seq<real>, h: real, p: nat)
    requires p < n && |u| == |x|
    ensures OnLine(h, Gather(n, at, AddSeq(x, ScaleSeq(h, u)))[p], Gather(n, at, x)[p], Gather(n, at, u)[p])
  {
    MovedAt(x, u, h, at(p));
  }

  lemma SumOfLines(h: real, a: real, va: real, ja: real, b: real, vb: real, jb: real)
    requires OnLine(h, a, va, ja) && OnLine(h, b, vb, jb)
    ensures OnLine(h, a + b, va + vb, ja + jb)
  {
    assert h * (ja + jb) == h * ja + h * jb;
  }

  /** A pair turned by fixed angles. */
  lemma TurnedLine(h: real, c: real, s: real, x0: real, x1: real, y0: real, y1: real, v0: real, v1: real, w0: real, w1: real,
                   u0: real, u1: real, j0: real, j1: real)
    requires OnLine(h, x0, v0, u0) && OnLine(h, x1, v1, u1)
    requires Turned(x0, x1, c, s, y0, y1) && Turned(v0, v1, c, s, w0, w1) && Turned(u0, u1, c, s, j0, j1)
    ensures OnLine(h, y0, w0, j0) && OnLine(h, y1, w1, j1)
  {
    TimesLine(h, x0, v0, u0, c);
    TimesLine(h, x1, v1, u1, s);
    TimesLine(h, x0, v0, u0, s);
    TimesLine(h, x1, v1, u1, c);
    assert h * (u0 * c - u1 * s) == h * (u0 * c) - h * (u1 * s);
    assert h * (u0 * s + u1 * c) == h * (u0 * s) + h * (u1 * c);
  }

  lemma TimesLine(h: real, x: real, v: real, u: real, c: real)
    requires OnLine(h, x, v, u)
    ensures x * c == v * c + h * (u * c)
  {
    assert (v + h * u) * c == v * c + h * u * c;
    assert h * u * c == h * (u * c);
  }

  /** The pair at `at + i`, `at + n + i` of a head. */
  lemma PairLine(n: nat, c: seq<real>, s: seq<real>, x: seq<real>, u: seq<real>, y: seq<real>, h: real, rx: seq<real>, ru: seq<real>, ry: seq<real>, at: nat, i: nat)
    requires i < n <= |c| && n <= |s| && |x| == |u| == |y| == |rx| == |ru| == |ry| && at + 2 * n <= |x|
    requires OnLine(h, y[at + i], x[at + i], u[at + i]) && OnLine(h, y[at + n + i], x[at + n + i], u[at + n + i])
    requires Turned(y[at + i], y[at + n + i], c[i], s[i], ry[at + i], ry[at + n + i])
    requires Turned(x[at + i], x[at + n + i], c[i], s[i], rx[at + i], rx[at + n + i])
    requires Turned(u[at + i], u[at + n + i], c[i], s[i], ru[at + i], ru[at + n + i])
    ensures OnLine(h, ry[at + i], rx[at + i], ru[at + i]) && OnLine(h, ry[at + n + i], rx[at + n + i], ru[at + n + i])
  {
    TurnedLine(h, c[i], s[i], y[at + i], y[at + n + i], ry[at + i], ry[at + n + i], x[at + i], x[at + n + i], rx[at + i], rx[at + n + i],
               u[at + i], u[at + n + i], ru[at + i], ru[at + n + i]);
  }

  /** The pair of `x` at `at + i`, `at + n + i`, turned. */
  ghost predicate TurnedAt(n: nat, c: seq<real>, s: seq<real>, x: seq<real>, rx: seq<real>, at: nat, i: nat) {
    && i < n <= |c| && n <= |s| && |rx| == |x| && at + 2 * n <= |x|
    && Turned(x[at + i], x[at + n + i], c[i], s[i], rx[at + i], rx[at + n + i])
  }

  lemma HeadTurns(n: nat, c: seq<real>, s: seq<real>, f: seq<real> -> seq<real>, x: seq<real>, m: nat, b: nat, at: nat, i: nat)
    requires RotatesHeads(n, c, s, f) && |x| == m * (2 * n) && at == b * (2 * n) && at + 2 * n <= |x| && i < n
    ensures TurnedAt(n, c, s, x, MapBlocks(2 * n, f, x), at, i)
  {
    RotatedPair(n, c, s, f, x, m, b, at, i);
  }

  lemma HeadLine(n: nat, c: seq<real>, s: seq<real>, x: seq<real>, u: seq<real>, y: seq<real>, h: real, rx: seq<real>, ru: seq<real>, ry: seq<real>, at: nat, i: nat)
    requires |x| == |u| && y == AddSeq(x, ScaleSeq(h, u))
    requires TurnedAt(n, c, s, y, ry, at, i) && TurnedAt(n, c, s, x, rx, at, i) && TurnedAt(n, c, s, u, ru, at, i)
    ensures OnLine(h, ry[at + i], rx[at + i], ru[at + i]) && OnLine(h, ry[at + n + i], rx[at + n + i], ru[at + n + i])
  {
    MovedAt(x, u, h, at + i);
    MovedAt(x, u, h, at + n + i);
    PairLine(n, c, s, x, u, y, h, rx, ru, ry, at, i);
  }

  lemma EntryLine(n: nat, c: seq<real>, s: seq<real>, x: seq<real>, u: seq<real>, y: seq<real>, h: real, rx: seq<real>, ru: seq<real>, ry: seq<real>,
                  at: nat, i: nat, p: nat)
    requires |x| == |u| && y == AddSeq(x, ScaleSeq(h, u)) && (p == at + i || p == at + n + i)
    requires TurnedAt(n, c, s, y, ry, at, i) && TurnedAt(n, c, s, x, rx, at, i) && TurnedAt(n, c, s, u, ru, at, i)
    ensures |ry| == |rx| == |ru| == |x| && p < |x| && OnLine(h, ry[p], rx[p], ru[p])
  {
    HeadLine(n, c, s, x, u, y, h, rx, ru, ry, at, i);
  }

  /** Entry `p` lies in one pair, and that pair is turned in all three. */
  lemma HeadsTurn(n: nat, c: seq<real>, s: seq<real>, f: seq<real> -> seq<real>, x: seq<real>, u: seq<real>, y: seq<real>, m: nat, p: nat) returns (at: nat, i: nat)
    requires n > 0 && RotatesHeads(n, c, s, f) && |x| == m * (2 * n) && p < |x| == |u| == |y|
    ensures TurnedAt(n, c, s, y, MapBlocks(2 * n, f, y), at, i) && TurnedAt(n, c, s, x, MapBlocks(2 * n, f, x), at, i)
    ensures TurnedAt(n, c, s, u, MapBlocks(2 * n, f, u), at, i) && (p == at + i || p == at + n + i)
  {
    var b;
    b, at, i := HeadOfEntry(n, m, |x|, p);
    HeadTurns(n, c, s, f, y, m, b, at, i);
    HeadTurns(n, c, s, f, x, m, b, at, i);
    HeadTurns(n, c, s, f, u, m, b, at, i);
  }

  lemma BlocksLine(n: nat, c: seq<real>, s: seq<real>, f: seq<real> -> seq<real>, x: seq<real>, u: seq<real>, y: seq<real>, h: real, m: nat, p: nat)
    requires n > 0 && RotatesHeads(n, c, s, f) && |x| == m * (2 * n) && p < |x| == |u| && y == AddSeq(x, ScaleSeq(h, u))
    ensures var (ry, rx, ru) := (MapBlocks(2 * n, f, y), MapBlocks(2 * n, f, x), MapBlocks(2 * n, f, u));
            |ry| == |rx| == |ru| == |x| && OnLine(h, ry[p], rx[p], ru[p])
  {
    var at, i := HeadsTurn(n, c, s, f, x, u, y, m, p);
    EntryLine(n, c, s, x, u, y, h, MapBlocks(2 * n, f, x), MapBlocks(2 * n, f, u), MapBlocks(2 * n, f, y), at, i, p);
  }

  /** Entry `p` of `m` heads lies in head `b`, in the first or the second half. */
  lemma HeadOfEntry(n: nat, m: nat, size: nat, p: nat) returns (b: nat, at: nat, i: nat)
    requires n > 0 && p < size && size == m * (2 * n)
    ensures at == b * (2 * n) && at + 2 * n <= size && i < n && (p == at + i || p == at + n + i)
  {
    var r;
    b, at, r := BlockOfEntry(2 * n, m, size, p);
    i := if r < n then r else r - n;
  }

  lemma BlockOfEntry(w: nat, m: nat, size: nat, p: nat) returns (b: nat, at: nat, r: nat)
    requires w > 0 && p < size && size == m * w
    ensures at == b * w && at + w <= size && r < w && p == at + r
  {
    FlatSplit(m, w, p);
    b, r := p / w, p % w;
    at := b * w;
    MulMonotone(b + 1, m, w);
    assert (b + 1) * w == at + w;
  }

  // ---------------------------------------------------------------- products

  lemma ParabolaIsCubic(h: real, y: real, v: real, j: real, q: real)
    requires y == OnParabola(h, v, j, q)
    ensures OnCubic(h, y, v, j, q, 0.0)
  {
    assert h * 0.0 == 0.0;
  }

  lemma ParabolaWithMovingTop(h: real, y: real, v: real, j: real, r: real, q: real, c: real)
    requires y == OnParabola(h, v, j, r) && OnLine(h, r, q, c)
    ensures OnCubic(h, y, v, j, q, c)
  {
  }

  /** The second- and third-order parts of a LoRA entry. */
  function LoraSecond(d: LoraDims, s: real, x: seq<real>, a: seq<real>, b: seq<real>, ux: seq<real>, ua: seq<real>, ub: seq<real>, p: nat): real {
    At(ScaleSeq(s, AddSeq(Up(d, Hidden(d, ux, ua), b), Up(d, HiddenJvp(d, x, a, ux, ua), ub))), p)
  }

  function LoraThird(d: LoraDims, s: real, ux: seq<real>, ua: seq<real>, ub: seq<real>, p: nat): real {
    At(ScaleSeq(s, Up(d, Hidden(d, ux, ua), ub)), p)
  }

  lemma SumMoves(h: real, a: seq<real>, b: seq<real>, b': seq<real>, c: seq<real>, p: nat)
    requires p < |a| == |b| == |b'| == |c| && OnLine(h, b'[p], b[p], c[p])
    ensures OnLine(h, AddSeq(a, b')[p], AddSeq(a, b)[p], c[p])
  {
  }

  lemma ScaledMoves(s: real, h: real, y: seq<real>, v: seq<real>, j: seq<real>, p: nat)
    requires p < |y| == |v| == |j| && OnLine(h, y[p], v[p], j[p])
    ensures OnLine(h, At(ScaleSeq(s, y), p), At(ScaleSeq(s, v), p), At(ScaleSeq(s, j), p))
  {
    ScaledAt(s, y, p);
    ScaledAt(s, v, p);
    ScaledAt(s, j, p);
    ScaledLine(s, h, y[p], v[p], j[p], At(ScaleSeq(s, y), p), At(ScaleSeq(s, v), p), At(ScaleSeq(s, j), p));
  }

  /** The remainder of a LoRA entry moves on a line itself. */
  lemma RemainderLine(d: LoraDims, s: real, x: seq<real>, a: seq<real>, b: seq<real>, ux: seq<real>, ua: seq<real>, ub: seq<real>, h: real, p: nat)
    requires |x| == |ux| == d.batch * d.fin && |a| == |ua| == d.fin * d.rank && |b| == |ub| == d.rank * d.fout && p < d.batch * d.fout
    ensures OnLine(h, LoraRemainder(d, s, x, a, b, ux, ua, ub, h, p), LoraSecond(d, s, x, a, b, ux, ua, ub, p), LoraThird(d, s, ux, ua, ub, p))
  {
    var low := Up(d, Hidden(d, ux, ua), b);
    var j, q := HiddenJvp(d, x, a, ux, ua), Hidden(d, ux, ua);
    var c := UpAlongLine(d, j, q, ub, h, p);
    assert HiddenChord(d, x, a, ux, ua, h) == AddSeq(j, ScaleSeq(h, q));
    SumMoves(h, low, Up(d, j, ub), Up(d, HiddenChord(d, x, a, ux, ua, h), ub), Up(d, q, ub), p);
    ScaledMoves(s, h, AddSeq(low, Up(d, HiddenChord(d, x, a, ux, ua, h), ub)), AddSeq(low, Up(d, j, ub)), Up(d, q, ub), p);
  }

  lemma LoraCubic(d: LoraDims, s: real, base: seq<real>, x: seq<real>, a: seq<real>, b: seq<real>,
                  ubase: seq<real>, ux: seq<real>, ua: seq<real>, ub: seq<real>, h: real, p: nat)
    requires LoraSizes(d, base, x, a, b) && LoraSizes(d, ubase, ux, ua, ub) && p < d.batch * d.fout
    ensures OnCubic(h, LoraOf(d, s, AddSeq(base, ScaleSeq(h, ubase)), AddSeq(x, ScaleSeq(h, ux)), AddSeq(a, ScaleSeq(h, ua)), AddSeq(b, ScaleSeq(h, ub)))[p],
                    LoraOf(d, s, base, x, a, b)[p], LoraJvp(d, s, x, a, b, ubase, ux, ua, ub)[p],
                    LoraSecond(d, s, x, a, b, ux, ua, ub, p), LoraThird(d, s, ux, ua, ub, p))
  {
    LoraAlongLine(d, s, base, x, a, b, ubase, ux, ua, ub, h, p);
    RemainderLine(d, s, x, a, b, ux, ua, ub, h, p);
    ParabolaWithMovingTop(h, LoraOf(d, s, AddSeq(base, ScaleSeq(h, ubase)), AddSeq(x, ScaleSeq(h, ux)), AddSeq(a, ScaleSeq(h, ua)), AddSeq(b, ScaleSeq(h, ub)))[p],
                          LoraOf(d, s, base, x, a, b)[p], LoraJvp(d, s, x, a, b, ubase, ux, ua, ub)[p],
                          LoraRemainder(d, s, x, a, b, ux, ua, ub, h, p), LoraSecond(d, s, x, a, b, ux, ua, ub, p), LoraThird(d, s, ux, ua, ub, p));
  }

  // ---------------------------------------------------------------- the arms

  /** Replaying the moved operands succeeds, and its entry `p` lies on the cubic whose linear coefficient
      is the arm's derivative. */
  ghost predicate DerivesAt(o: Kernels, oJ: Jvp, m: Metadata, ins: seq<Tensor>, tans: seq<Tensor>, h: real, p: nat, q: real, c: real)
    requires |ins| == |tans|
  {
    var (y, v, j) := (CpuReplay(o, m, Moved(ins, tans, h)), CpuReplay(o, m, ins), CpuJvp(oJ, m, ins, tans));
    && y.Some? && v.Some? && p < |y.value.data| == |v.value.data| == |j.data|
    && OnCubic(h, y.value.data[p], v.value.data[p], j.data[p], q, c)
  }

  /** Replay accepts the operands and reproduces broadcasting; the rotation tables are constants. */
  ghost predicate Smooth(o: Kernels, m: Metadata, ins: seq<Tensor>, out: Tensor, tans: seq<Tensor>)
    requires |ins| == |tans| == Arity(m)
  {
    && Recordable(m, ins, out) && TangentsFor(tans, ins) && CpuReplay(o, m, ins).Some?
    && (m.Add? ==> ins[1].shape == out.shape || RowShaped(Padded(ins[1].shape, |out.shape|), out.shape))
    && (m.Rope? ==> IsZero(tans[1].data) && IsZero(tans[2].data))
  }

  lemma MatMulDerives(o: Kernels, oJ: Jvp, m: Metadata, ins: seq<Tensor>, out: Tensor, tans: seq<Tensor>, h: real, p: nat)
    requires m.MatMul? && |ins| == |tans| == 2 && Smooth(o, m, ins, out, tans) && p < |out.data|
    ensures DerivesAt(o, oJ, m, ins, tans, h, p, At(MatMulOf(m.transposeA, m.transposeB, m.m, m.k, m.n, tans[0].data, tans[1].data), p), 0.0)
  {
    var moved := Moved(ins, tans, h);
    assert moved[0] == Along1(ins[0], tans[0], h) && moved[1] == Along1(ins[1], tans[1], h);
    assert Like(tans[0], ins[0]) && Like(tans[1], ins[1]);
    var (ta, tb, mm, k, n) := (m.transposeA, m.transposeB, m.m, m.k, m.n);
    MatMulAlongLine(ta, tb, mm, k, n, ins[0].data, ins[1].data, tans[0].data, tans[1].data, h, p);
    ParabolaIsCubic(h, MatMulOf(ta, tb, mm, k, n, moved[0].data, moved[1].data)[p], MatMulOf(ta, tb, mm, k, n, ins[0].data, ins[1].data)[p],
                    MatMulJvp(ta, tb, mm, k, n, ins[0].data, ins[1].data, tans[0].data, tans[1].data)[p],
                    MatMulOf(ta, tb, mm, k, n, tans[0].data, tans[1].data)[p]);
  }

  lemma ScaleDerives(o: Kernels, oJ: Jvp, m: Metadata, ins: seq<Tensor>, out: Tensor, tans: seq<Tensor>, h: real, p: nat)
    requires m.Scale? && |ins| == |tans| == 1 && Smooth(o, m, ins, out, tans) && p < |out.data|
    ensures DerivesAt(o, oJ, m, ins, tans, h, p, 0.0, 0.0)
  {
    assert Moved(ins, tans, h)[0] == Along1(ins[0], tans[0], h) && Like(tans[0], ins[0]);
    ScaleLine(m.factor, ins[0].data, tans[0].data, h, p);
    LineIsCubic(h, ScaleSeq(m.factor, AddSeq(ins[0].data, ScaleSeq(h, tans[0].data)))[p], ScaleSeq(m.factor, ins[0].data)[p], ScaleSeq(m.factor, tans[0].data)[p]);
  }

  lemma EmbeddingDerives(o: Kernels, oJ: Jvp, m: Metadata, ins: seq<Tensor>, out: Tensor, tans: seq<Tensor>, h: real, p: nat)
    requires m.Embedding? && |ins| == |tans| == 1 && Smooth(o, m, ins, out, tans) && p < |out.data|
    ensures DerivesAt(o, oJ, m, ins, tans, h, p, 0.0, 0.0)
  {
    assert Moved(ins, tans, h)[0] == Along1(ins[0], tans[0], h) && Like(tans[0], ins[0]);
    var n, at := |m.tokenIds| * m.hiddenDim, TokenMap(m.tokenIds, m.hiddenDim);
    GatherLine(n, at, ins[0].data, tans[0].data, h, p);
    LineIsCubic(h, Gather(n, at, AddSeq(ins[0].data, ScaleSeq(h, tans[0].data)))[p], Gather(n, at, ins[0].data)[p], Gather(n, at, tans[0].data)[p]);
  }

  lemma NotMoved(x: seq<real>, u: seq<real>, h: real)
    requires |u| == |x| && IsZero(u)
    ensures AddSeq(x, ScaleSeq(h, u)) == x
  {
    var y := AddSeq(x, ScaleSeq(h, u));
    forall i | 0 <= i < |x| ensures y[i] == x[i] {
      ScaledAt(h, u, i);
      NoScale(h, u[i], At(ScaleSeq(h, u), i));
    }
  }

  lemma NoScale(h: real, u: real, z: real)
    requires u == 0.0 && ScaledBy(h, u, z)
    ensures z == 0.0
  {
  }

  lemma RopeDerives(o: Kernels, oJ: Jvp, m: Metadata, ins: seq<Tensor>, out: Tensor, tans: seq<Tensor>, h: real, p: nat)
    requires m.Rope? && |ins| == |tans| == 3 && Smooth(o, m, ins, out, tans) && p < |out.data|
    ensures DerivesAt(o, oJ, m, ins, tans, h, p, 0.0, 0.0)
  {
    var moved := Moved(ins, tans, h);
    assert moved[0] == Along1(ins[0], tans[0], h) && moved[1] == Along1(ins[1], tans[1], h) && moved[2] == Along1(ins[2], tans[2], h);
    assert Like(tans[0], ins[0]) && Like(tans[1], ins[1]) && Like(tans[2], ins[2]);
    NotMoved(ins[1].data, tans[1].data, h);
    NotMoved(ins[2].data, tans[2].data, h);
    RopeReplayLine(o, oJ, m, ins[0], ins[1], ins[2], tans, moved[0], h, p);
    assert moved == [moved[0], ins[1], ins[2]] && ins == [ins[0], ins[1], ins[2]];
  }

  lemma RopeReplayLine(o: Kernels, oJ: Jvp, m: Metadata, x: Tensor, c: Tensor, s: Tensor, tans: seq<Tensor>, y: Tensor, h: real, p: nat)
    requires m.Rope? && |tans| == 3 && Like(tans[0], x) && p < |x.data| && y == Along1(x, tans[0], h) && ReplayAcceptsRope(|c.data|, |s.data|, |x.data|)
    ensures var (ry, rx, j) := (CpuReplay(o, m, [y, c, s]), CpuReplay(o, m, [x, c, s]), CpuJvp(oJ, m, [x, c, s], tans));
            && ry.Some? && rx.Some? && |ry.value.data| == |rx.value.data| == |j.data| == |x.data|
            && OnCubic(h, ry.value.data[p], rx.value.data[p], j.data[p], 0.0, 0.0)
  {
    var half := HalfHead(|c.data|, |s.data|);
    var f := HeadMap(half, c.data, s.data);
    RopeReplayIs(o, x, c, s, half);
    RopeReplayIs(o, y, c, s, half);
    RopeTangentIs(oJ, m, x, c, s, tans, half);
    HeadMapRotates(half, c.data, s.data);
    var k := WholeHeads(|x.data|, 2 * half);
    BlocksCubic(half, c.data, s.data, f, x.data, tans[0].data, y.data, h, k, p);
  }

  lemma BlocksCubic(n: nat, c: seq<real>, s: seq<real>, f: seq<real> -> seq<real>, x: seq<real>, u: seq<real>, y: seq<real>, h: real, m: nat, p: nat)
    requires n > 0 && RotatesHeads(n, c, s, f) && |x| == m * (2 * n) && p < |x| == |u| && y == AddSeq(x, ScaleSeq(h, u))
    ensures var (ry, rx, ru) := (MapBlocks(2 * n, f, y), MapBlocks(2 * n, f, x), MapBlocks(2 * n, f, u));
            |ry| == |rx| == |ru| == |x| && OnCubic(h, ry[p], rx[p], ru[p], 0.0, 0.0)
  {
    BlocksLine(n, c, s, f, x, u, y, h, m, p);
    LineIsCubic(h, MapBlocks(2 * n, f, y)[p], MapBlocks(2 * n, f, x)[p], MapBlocks(2 * n, f, u)[p]);
  }

  lemma RopeTangentIs(oJ: Jvp, m: Metadata, x: Tensor, c: Tensor, s: Tensor, tans: seq<Tensor>, half: nat)
    requires m.Rope? && |tans| == 3 && half == HalfHead(|c.data|, |s.data|) > 0
    ensures CpuJvp(oJ, m, [x, c, s], tans) == Tensor(x.shape, RopeOf(half, c.data, s.data, tans[0].data))
  {
  }

  // ---------------------------------------------------------------- addition

  /** Replay adds the right operand as broadcasting reads it. */
  lemma AddReplaySpreads(o: Kernels, l: Tensor, r: Tensor, out: Tensor)
    requires AddRecorded(l, r, out) && (r.shape == out.shape || RowShaped(Padded(r.shape, |out.shape|), out.shape))
    ensures CpuReplay(o, Add, [l, r]) == Some(Tensor(l.shape, AddSeq(l.data, Spread(r, l.shape, |l.data|))))
  {
    if r.shape != out.shape {
      var pad := Padded(r.shape, |out.shape|);
      ReplayAddIffRowShaped(out.shape, pad);
      PaddingKeepsProd(r.shape, |out.shape|);
      assert ReplaysAs(l.data, r.data, out.shape, pad);
      assert BroadcastAdd(l.data, r.data, out.shape, pad) == AddSeq(l.data, Spread(r, l.shape, |l.data|));
    }
  }

  lemma SpreadLine(r: Tensor, v: Tensor, shape: seq<nat>, n: nat, h: real, p: nat)
    requires p < n && Like(v, r) && (r.shape == shape ==> |r.data| == n)
    ensures OnLine(h, Spread(Along1(r, v, h), shape, n)[p], Spread(r, shape, n)[p], Spread(v, shape, n)[p])
  {
    if r.shape == shape {
      MovedAt(r.data, v.data, h, p);
    } else if Broadcasts(r.shape, shape) {
      GatherLine(n, Projection(shape, Padded(r.shape, |shape|)), r.data, v.data, h, p);
    } else {
      StillLine(h);
    }
  }

  lemma StillLine(h: real)
    ensures OnLine(h, 0.0, 0.0, 0.0)
  {
  }

  lemma AddLine(l: seq<real>, l': seq<real>, u: seq<real>, r: seq<real>, r': seq<real>, v: seq<real>, h: real, p: nat)
    requires p < |l| == |l'| == |u| == |r| == |r'| == |v| && OnLine(h, l'[p], l[p], u[p]) && OnLine(h, r'[p], r[p], v[p])
    ensures OnCubic(h, AddSeq(l', r')[p], AddSeq(l, r)[p], AddSeq(u, v)[p], 0.0, 0.0)
  {
    SumOfLines(h, l'[p], l[p], u[p], r'[p], r[p], v[p]);
    LineIsCubic(h, AddSeq(l', r')[p], AddSeq(l, r)[p], AddSeq(u, v)[p]);
  }

  lemma AddCubic(l: Tensor, r: Tensor, u: Tensor, v: Tensor, h: real, p: nat)
    requires p < |l.data| && Like(u, l) && Like(v, r) && (r.shape == l.shape ==> |r.data| == |l.data|)
    ensures var (l', r', n) := (Along1(l, u, h), Along1(r, v, h), |l.data|);
            OnCubic(h, AddSeq(l'.data, Spread(r', l.shape, n))[p], AddSeq(l.data, Spread(r, l.shape, n))[p], AddJvp(l, u, v).data[p], 0.0, 0.0)
  {
    var (l', r', n) := (Along1(l, u, h), Along1(r, v, h), |l.data|);
    MovedAt(l.data, u.data, h, p);
    SpreadLine(r, v, l.shape, n, h, p);
    AddLine(l.data, l'.data, u.data, Spread(r, l.shape, n), Spread(r', l.shape, n), Spread(v, l.shape, n), h, p);
  }

  lemma AddJvpIs(oJ: Jvp, l: Tensor, r: Tensor, tans: seq<Tensor>)
    requires |tans| == 2
    ensures CpuJvp(oJ, Add, [l, r], tans) == AddJvp(l, tans[0], tans[1])
  {
  }

  lemma AddReplayLine(o: Kernels, oJ: Jvp, l: Tensor, r: Tensor, out: Tensor, tans: seq<Tensor>, l': Tensor, r': Tensor, h: real, p: nat)
    requires AddRecorded(l, r, out) && (r.shape == out.shape || RowShaped(Padded(r.shape, |out.shape|), out.shape)) && p < |out.data|
    requires |tans| == 2 && Like(tans[0], l) && Like(tans[1], r) && l' == Along1(l, tans[0], h) && r' == Along1(r, tans[1], h)
    ensures var (y, v, j) := (CpuReplay(o, Add, [l', r']), CpuReplay(o, Add, [l, r]), CpuJvp(oJ, Add, [l, r], tans));
            && y.Some? && v.Some? && |y.value.data| == |v.value.data| == |j.data| == |out.data|
            && OnCubic(h, y.value.data[p], v.value.data[p], j.data[p], 0.0, 0.0)
  {
    AddReplaySpreads(o, l, r, out);
    AddReplaySpreads(o, l', r', out);
    AddJvpIs(oJ, l, r, tans);
    AddCubic(l, r, tans[0], tans[1], h, p);
  }

  lemma AddDerives(o: Kernels, oJ: Jvp, m: Metadata, ins: seq<Tensor>, out: Tensor, tans: seq<Tensor>, h: real, p: nat)
    requires m.Add? && |ins| == |tans| == 2 && Smooth(o, m, ins, out, tans) && p < |out.data|
    ensures DerivesAt(o, oJ, m, ins, tans, h, p, 0.0, 0.0)
  {
    var moved := Moved(ins, tans, h);
    assert moved[0] == Along1(ins[0], tans[0], h) && moved[1] == Along1(ins[1], tans[1], h);
    assert Like(tans[0], ins[0]) && Like(tans[1], ins[1]);
    AddReplayLine(o, oJ, ins[0], ins[1], out, tans, moved[0], moved[1], h, p);
    assert m == Add && moved == [moved[0], moved[1]] && ins == [ins[0], ins[1]];
  }

  // ---------------------------------------------------------------- LoRA

  lemma {:induction false} ProdTailOnes(shape: seq<nat>)
    requires |shape| > 0 && TailOnes(shape)
    ensures Prod(shape) == shape[0]
  {
    if |shape| == 1 {
      assert shape[..0] == [] && Prod([]) == 1;
    } else {
      ProdTailOnes(shape[..|shape| - 1]);
    }
  }

  /** Where replay folds no leading axes, it and the gradient read the same extents. */
  lemma SameDims(x: Tensor, a: Tensor, b: Tensor)
    requires (|x.shape| <= 2 || TailOnes(x.shape)) && BackwardDims(x, a, b).Some?
    ensures BackwardDims(x, a, b).value == LoraDims(Prod(x.shape[..|x.shape| - 1]), x.shape[|x.shape| - 1], a.shape[0], b.shape[0])
  {
    var front := x.shape[..|x.shape| - 1];
    if |x.shape| == 1 { assert front == []; } else { ProdTailOnes(front); }
  }

  lemma LoraReplayAt(o: Kernels, m: Metadata, base: Tensor, x: Tensor, a: Tensor, b: Tensor, d: LoraDims)
    requires m.LoRAApply? && (|x.shape| <= 2 || TailOnes(x.shape)) && BackwardDims(x, a, b) == Some(d) && LoraSizes(d, base.data, x.data, a.data, b.data)
    requires a.shape[1] == x.shape[|x.shape| - 1] && a.shape[0] == b.shape[1]
    ensures CpuReplay(o, m, [base, x, a, b]) ==
            Some(Tensor(base.shape, LoraOf(d, LoraScale(m.alpha, m.rank), base.data, x.data, a.data, b.data)))
  {
    SameDims(x, a, b);
  }

  lemma LoraTangentIs(oJ: Jvp, m: Metadata, base: Tensor, x: Tensor, a: Tensor, b: Tensor, tans: seq<Tensor>, d: LoraDims)
    requires m.LoRAApply? && |tans| == 4 && BackwardDims(x, a, b) == Some(d)
    ensures CpuJvp(oJ, m, [base, x, a, b], tans) ==
            Tensor(base.shape, LoraJvp(d, LoraScale(m.alpha, m.rank), x.data, a.data, b.data, tans[0].data, tans[1].data, tans[2].data, tans[3].data))
  {
  }

  lemma LoraDerives(o: Kernels, oJ: Jvp, m: Metadata, ins: seq<Tensor>, out: Tensor, tans: seq<Tensor>, h: real, p: nat, d: LoraDims, q: real, c: real)
    requires m.LoRAApply? && |ins| == |tans| == 4 && Smooth(o, m, ins, out, tans) && p < |out.data| && BackwardDims(ins[1], ins[2], ins[3]) == Some(d)
    requires q == LoraSecond(d, LoraScale(m.alpha, m.rank), ins[1].data, ins[2].data, ins[3].data, tans[1].data, tans[2].data, tans[3].data, p)
    requires c == LoraThird(d, LoraScale(m.alpha, m.rank), tans[1].data, tans[2].data, tans[3].data, p)
    ensures DerivesAt(o, oJ, m, ins, tans, h, p, q, c)
  {
    var moved := Moved(ins, tans, h);
    assert moved[0] == Along1(ins[0], tans[0], h) && moved[1] == Along1(ins[1], tans[1], h);
    assert moved[2] == Along1(ins[2], tans[2], h) && moved[3] == Along1(ins[3], tans[3], h);
    assert Like(tans[0], ins[0]) && Like(tans[1], ins[1]) && Like(tans[2], ins[2]) && Like(tans[3], ins[3]);
    assert moved == [moved[0], moved[1], moved[2], moved[3]] && ins == [ins[0], ins[1], ins[2], ins[3]];
    LoraReplayAt(o, m, ins[0], ins[1], ins[2], ins[3], d);
    LoraReplayAt(o, m, moved[0], moved[1], moved[2], moved[3], d);
    LoraTangentIs(oJ, m, ins[0], ins[1], ins[2], ins[3], tans, d);
    LoraCubic(d, LoraScale(m.alpha, m.rank), ins[0].data, ins[1].data, ins[2].data, ins[3].data, tans[0].data, tans[1].data, tans[2].data, tans[3].data, h, p);
  }

  // ---------------------------------------------------------------- all arms

  /** Main theorem. For every recorded operation that replay accepts, every tangent and every entry there
      are coefficients such that for all h the entry of the operation replayed on operands + h tangents
      is its value + h (the arm's derivative) + h^2 q + h^3 c: the derivative to which the backward arm
      is adjoint is that of the replayed operation. */
  lemma JvpIsDerivative(o: Kernels, oJ: Jvp, m: Metadata, ins: seq<Tensor>, out: Tensor, tans: seq<Tensor>, p: nat) returns (q: real, c: real)
    requires |ins| == |tans| == Arity(m) && Smooth(o, m, ins, out, tans) && p < |out.data|
    ensures forall h: real {:trigger DerivesAt(o, oJ, m, ins, tans, h, p, q, c)} :: DerivesAt(o, oJ, m, ins, tans, h, p, q, c)
  {
    q, c := 0.0, 0.0;
    if m.MatMul? {
      q := At(MatMulOf(m.transposeA, m.transposeB, m.m, m.k, m.n, tans[0].data, tans[1].data), p);
    } else if m.LoRAApply? {
      var (d, s) := (BackwardDims(ins[1], ins[2], ins[3]).value, LoraScale(m.alpha, m.rank));
      q := LoraSecond(d, s, ins[1].data, ins[2].data, ins[3].data, tans[1].data, tans[2].data, tans[3].data, p);
      c := LoraThird(d, s, tans[1].data, tans[2].data, tans[3].data, p);
    }
    forall h: real ensures DerivesAt(o, oJ, m, ins, tans, h, p, q, c) {
      match m
      case MatMul(_, _, _, _, _) => MatMulDerives(o, oJ, m, ins, out, tans, h, p);
      case Add => AddDerives(o, oJ, m, ins, out, tans, h, p);
      case Scale(_) => ScaleDerives(o, oJ, m, ins, out, tans, h, p);
      case LoRAApply(_, _, _, _) => LoraDerives(o, oJ, m, ins, out, tans, h, p, BackwardDims(ins[1], ins[2], ins[3]).value, q, c);
      case Rope => RopeDerives(o, oJ, m, ins, out, tans, h, p);
      case Embedding(_, _, _, _) => EmbeddingDerives(o, oJ, m, ins, out, tans, h, p);
    }
  }
}
