/** The fused LoRA operation: out = base + s * (x Aᵀ) Bᵀ, its replay loops and its backward loops. */
module LoraKernel {
  import opened Sums
  import opened Grids
  import opened Rows
  import opened Tensors
  import opened MatMulKernel

  /** The extents: x is batch-by-fin, A rank-by-fin, B fout-by-rank. */
  datatype LoraDims = LoraDims(batch: nat, fin: nat, rank: nat, fout: nat)

  ghost predicate LoraSizes(d: LoraDims, base: seq<real>, x: seq<real>, a: seq<real>, b: seq<real>) {
    && |base| == d.batch * d.fout && |x| == d.batch * d.fin
    && |a| == d.fin * d.rank && |b| == d.rank * d.fout
  }

  function Hidden(d: LoraDims, x: seq<real>, a: seq<real>): (h: seq<real>)
    ensures |h| == d.batch * d.rank
  {
    MatMulOf(false, true, d.batch, d.fin, d.rank, x, a)
  }

  function Up(d: LoraDims, h: seq<real>, b: seq<real>): (c: seq<real>)
    ensures |c| == d.batch * d.fout
  {
    MatMulOf(false, true, d.batch, d.rank, d.fout, h, b)
  }

  function LoraOf(d: LoraDims, s: real, base: seq<real>, x: seq<real>, a: seq<real>, b: seq<real>): (c: seq<real>)
    ensures |c| == |base|
  {
    AddSeq(base, ScaleSeq(s, Up(d, Hidden(d, x, a), b)))
  }

  lemma LoraFits(d: LoraDims, base: seq<real>, x: seq<real>, a: seq<real>, b: seq<real>)
    requires LoraSizes(d, base, x, a, b)
    ensures Fits(x, d.batch, d.fin, d.fin, 1) && Fits(x, d.fin, 1, d.batch, d.fin)
    ensures Fits(a, d.rank, d.fin, d.fin, 1) && Fits(a, d.fin, 1, d.rank, d.fin)
    ensures Fits(b, d.fout, d.rank, d.rank, 1) && Fits(b, d.rank, 1, d.fout, d.rank)
  {
    assert d.fin * d.rank == d.rank * d.fin && d.rank * d.fout == d.fout * d.rank;
    RowMajorFits(x, d.batch, d.fin);
    RowMajorFits(a, d.rank, d.fin);
    RowMajorFits(b, d.fout, d.rank);
  }

  /** Scaling the left factor scales the product. */
  lemma ScaledProduct(m: nat, n: nat, k: nat, s: real, x: seq<real>, xi: nat, xl: nat, Y: (int, int) -> real)
    requires Fits(x, m, xi, k, xl)
    ensures Grid(m, n, ProductOf(k, View(ScaleSeq(s, x), xi, xl), Y)) == ScaleSeq(s, Grid(m, n, ProductOf(k, View(x, xi, xl), Y)))
  {
    var X', X := View(ScaleSeq(s, x), xi, xl), View(x, xi, xl);
    forall i, l | 0 <= i < m && 0 <= l < k ensures X'(i, l) == s * X(i, l) {
      assert InRange(x, xi, xl, i, l);
    }
    ScaledGrid(m, n, k, s, X', X, Y);
  }

  lemma ScaledGrid(m: nat, n: nat, k: nat, s: real, X': (int, int) -> real, X: (int, int) -> real, Y: (int, int) -> real)
    requires forall i, l :: 0 <= i < m && 0 <= l < k ==> X'(i, l) == s * X(i, l)
    ensures Grid(m, n, ProductOf(k, X', Y)) == ScaleSeq(s, Grid(m, n, ProductOf(k, X, Y)))
  {
    var a, b := Grid(m, n, ProductOf(k, X', Y)), ScaleSeq(s, Grid(m, n, ProductOf(k, X, Y)));
    forall p | 0 <= p < m * n ensures a[p] == b[p] {
      ScaledEntry(m, n, k, s, X', X, Y, p);
    }
  }

  lemma ScaledEntry(m: nat, n: nat, k: nat, s: real, X': (int, int) -> real, X: (int, int) -> real, Y: (int, int) -> real, p: nat)
    requires p < m * n && forall i, l :: 0 <= i < m && 0 <= l < k ==> X'(i, l) == s * X(i, l)
    ensures Grid(m, n, ProductOf(k, X', Y))[p] == s * Grid(m, n, ProductOf(k, X, Y))[p]
  {
    MatMulCell(m, n, k, X', Y, p);
    MatMulCell(m, n, k, X, Y, p);
    ScaledCell(k, s, X', X, Y, p / n, p % n);
  }

  lemma ScaledCell(k: nat, s: real, X': (int, int) -> real, X: (int, int) -> real, Y: (int, int) -> real, i: int, j: int)
    requires forall l :: 0 <= l < k ==> X'(i, l) == s * X(i, l)
    ensures Product(k, X', Y, i, j) == s * Product(k, X, Y, i, j)
  {
    var u, v := (l: int) => X(i, l) * Y(l, j), (l: int) => X'(i, l) * Y(l, j);
    forall l | 0 <= l < k ensures v(l) == s * u(l) {
      Assoc(s, X(i, l), Y(l, j), X'(i, l));
      assert v(l) == X'(i, l) * Y(l, j);
    }
    SumScale(k, s, u, v);
  }

  /** The replay arm of `LoRAApply`, from the operand extents as stored. */
  method ReplayLora(batch: nat, fin: nat, aRank: nat, aIn: nat, bOut: nat, bRank: nat, s: real,
                    base: seq<real>, x: seq<real>, a: seq<real>, b: seq<real>) returns (r: Option<seq<real>>)
    requires |x| == batch * fin && |a| == aIn * aRank && |b| == bRank * bOut
    ensures r == if aIn == fin && aRank == bRank && |base| == batch * bOut
                 then Some(LoraOf(LoraDims(batch, fin, aRank, bOut), s, base, x, a, b)) else None
  {
    if aIn != fin || aRank != bRank { return None; }
    ghost var d := LoraDims(batch, fin, aRank, bOut);
    assert aIn * aRank == aRank * aIn && bRank * bOut == bOut * bRank;
    RowMajorFits(x, batch, fin);
    RowMajorFits(a, aRank, fin);
    RowMajorFits(b, bOut, aRank);
    var h := RowLoop(batch, aRank, fin, x, fin, 1, a, 1, fin, true);
    assert h[..] == Hidden(d, x, a);
    if |base| != batch * bOut { return None; }
    var hs := ScaleSeq(s, h[..]);
    RowMajorFits(h[..], batch, aRank);
    RowMajorFits(hs, batch, aRank);
    var out := RowLoopFrom(base, batch, bOut, aRank, hs, aRank, 1, b, 1, aRank, true);
    ScaledProduct(batch, bOut, aRank, s, h[..], aRank, 1, View(b, 1, aRank));
    r := Some(out[..]);
  }

  // ---------------------------------------------------------------- backward

  datatype LoraGrads = LoraGrads(base: seq<real>, x: seq<real>, a: seq<real>, b: seq<real>)

  /** The gradient of the hidden activations, already scaled. */
  function HiddenGrad(d: LoraDims, s: real, b: seq<real>, g: seq<real>): (dh: seq<real>)
    ensures |dh| == d.batch * d.rank
  {
    ScaleSeq(s, GradLeft(false, true, d.batch, d.rank, d.fout, d.rank, b, g))
  }

  function LoraGradsOf(d: LoraDims, s: real, x: seq<real>, a: seq<real>, b: seq<real>, g: seq<real>): LoraGrads {
    var dh := HiddenGrad(d, s, b, g);
    LoraGrads(
      g,
      GradLeft(false, true, d.batch, d.fin, d.rank, d.fin, a, dh),
      GradRight(false, true, d.batch, d.fin, d.rank, d.fin, x, dh),
      ScaleSeq(s, GradRight(false, true, d.batch, d.rank, d.fout, d.rank, Hidden(d, x, a), g)))
  }

  /** `lora_backward`, loop nest by loop nest. */
  method LoraBackward(d: LoraDims, s: real, x: seq<real>, a: seq<real>, b: seq<real>, g: seq<real>) returns (r: LoraGrads)
    requires LoraSizes(d, g, x, a, b)
    ensures r == LoraGradsOf(d, s, x, a, b, g)
  {
    LoraFits(d, g, x, a, b);
    RowMajorFits(g, d.batch, d.fout);
    var h := SumLoop(d.batch, d.rank, d.fin, x, d.fin, 1, a, 1, d.fin);
    assert h[..] == Hidden(d, x, a);
    RowMajorFits(h[..], d.batch, d.rank);
    var sums := SumLoop(d.batch, d.rank, d.fout, g, d.fout, 1, b, d.rank, 1);
    var dh := ScaleSeq(s, sums[..]);
    RowMajorFits(dh, d.batch, d.rank);
    var bsums := SumLoop(d.fout, d.rank, d.batch, g, 1, d.fout, h[..], d.rank, 1);
    var da := SumLoop(d.rank, d.fin, d.batch, dh, 1, d.rank, x, d.fin, 1);
    var dx := SumLoop(d.batch, d.fin, d.rank, dh, d.rank, 1, a, d.fin, 1);
    r := LoraGrads(g, dx[..], da[..], ScaleSeq(s, bsums[..]));
  }

  /** The derivative of the LoRA operation in direction (ub, ux, ua, vb). */
  function LoraJvp(d: LoraDims, s: real, x: seq<real>, a: seq<real>, b: seq<real>,
                   ubase: seq<real>, ux: seq<real>, ua: seq<real>, ub: seq<real>): (c: seq<real>)
    ensures |c| == |ubase|
  {
    AddSeq(ubase, ScaleSeq(s, MatMulJvp(false, true, d.batch, d.rank, d.fout, Hidden(d, x, a), b, HiddenJvp(d, x, a, ux, ua), ub)))
  }

  function HiddenJvp(d: LoraDims, x: seq<real>, a: seq<real>, ux: seq<real>, ua: seq<real>): (c: seq<real>)
    ensures |c| == d.batch * d.rank
  {
    MatMulJvp(false, true, d.batch, d.fin, d.rank, x, a, ux, ua)
  }

  /** The pairing of `g` with the scaled inner derivative, split into its two operands. */
  lemma ScaledPairing(d: LoraDims, s: real, h: seq<real>, b: seq<real>, g: seq<real>, uh: seq<real>, ub: seq<real>)
    requires |h| == |uh| == d.batch * d.rank && |b| == |ub| == d.rank * d.fout && |g| == d.batch * d.fout
    ensures Dot(g, ScaleSeq(s, MatMulJvp(false, true, d.batch, d.rank, d.fout, h, b, uh, ub))) ==
            Dot(HiddenGrad(d, s, b, g), uh) + Dot(ScaleSeq(s, GradRight(false, true, d.batch, d.rank, d.fout, d.rank, h, g)), ub)
  {
    var J := MatMulJvp(false, true, d.batch, d.rank, d.fout, h, b, uh, ub);
    var left := GradLeft(false, true, d.batch, d.rank, d.fout, d.rank, b, g);
    var right := GradRight(false, true, d.batch, d.rank, d.fout, d.rank, h, g);
    MatMulBackwardIsAdjoint(true, d.batch, d.rank, d.fout, h, b, g, uh, ub);
    ScaleAll(s, g, J, left, uh, right, ub);
  }

  lemma ScaleAll(s: real, g: seq<real>, J: seq<real>, l: seq<real>, u: seq<real>, r: seq<real>, v: seq<real>)
    requires |g| == |J| && Dot(g, J) == Dot(l, u) + Dot(r, v)
    ensures Dot(g, ScaleSeq(s, J)) == Dot(ScaleSeq(s, l), u) + Dot(ScaleSeq(s, r), v)
  {
    DotCommutes(g, ScaleSeq(s, J));
    DotCommutes(g, J);
    DotScale(s, J, g);
    DotScale(s, l, u);
    DotScale(s, r, v);
    Distribute(s, Dot(J, g), Dot(l, u), Dot(r, v));
  }

  lemma Distribute(s: real, x: real, y: real, z: real)
    requires x == y + z
    ensures s * x == s * y + s * z
  {
  }

  /** Main result: the LoRA backward loops are the exact adjoint of the trilinear forward, in all
      four operands at once and for every shape. */
  lemma LoraBackwardIsAdjoint(d: LoraDims, s: real, x: seq<real>, a: seq<real>, b: seq<real>, g: seq<real>,
                              ubase: seq<real>, ux: seq<real>, ua: seq<real>, ub: seq<real>)
    requires LoraSizes(d, g, x, a, b) && LoraSizes(d, ubase, ux, ua, ub)
    ensures var r := LoraGradsOf(d, s, x, a, b, g);
            Dot(g, LoraJvp(d, s, x, a, b, ubase, ux, ua, ub)) ==
            Dot(r.base, ubase) + Dot(r.x, ux) + Dot(r.a, ua) + Dot(r.b, ub)
  {
    var h, uh := Hidden(d, x, a), HiddenJvp(d, x, a, ux, ua);
    ScaledPairing(d, s, h, b, g, uh, ub);
    MatMulBackwardIsAdjoint(true, d.batch, d.fin, d.rank, x, a, HiddenGrad(d, s, b, g), ux, ua);
    var sJ := ScaleSeq(s, MatMulJvp(false, true, d.batch, d.rank, d.fout, h, b, uh, ub));
    SplitPairing(g, ubase, sJ);
  }

  lemma SplitPairing(g: seq<real>, u: seq<real>, v: seq<real>)
    requires |g| == |u| == |v|
    ensures Dot(g, AddSeq(u, v)) == Dot(g, u) + Dot(g, v)
  {
    DotCommutes(g, AddSeq(u, v));
    DotCommutes(g, u);
    DotCommutes(g, v);
    DotAdd(u, v, g);
  }

  // ---------------------------------------------------------------- the derivative

  /** The hidden activations along a line, as a line with a moving direction. */
  function HiddenChord(d: LoraDims, x: seq<real>, a: seq<real>, ux: seq<real>, ua: seq<real>, h: real): (c: seq<real>)
    ensures |c| == d.batch * d.rank
  {
    AddSeq(HiddenJvp(d, x, a, ux, ua), ScaleSeq(h, Hidden(d, ux, ua)))
  }

  lemma HiddenAlongLine(d: LoraDims, x: seq<real>, a: seq<real>, ux: seq<real>, ua: seq<real>, h: real)
    requires |x| == |ux| == d.batch * d.fin && |a| == |ua| == d.fin * d.rank
    ensures Hidden(d, AddSeq(x, ScaleSeq(h, ux)), AddSeq(a, ScaleSeq(h, ua))) ==
            AddSeq(Hidden(d, x, a), ScaleSeq(h, HiddenChord(d, x, a, ux, ua, h)))
  {
    var lhs := Hidden(d, AddSeq(x, ScaleSeq(h, ux)), AddSeq(a, ScaleSeq(h, ua)));
    forall p | 0 <= p < d.batch * d.rank
      ensures lhs[p] == OnParabola(h, Hidden(d, x, a)[p], HiddenJvp(d, x, a, ux, ua)[p], Hidden(d, ux, ua)[p])
    {
      MatMulAlongLine(false, true, d.batch, d.fin, d.rank, x, a, ux, ua, h, p);
    }
    ParabolasAsChord(h, lhs, Hidden(d, x, a), HiddenJvp(d, x, a, ux, ua), Hidden(d, ux, ua));
  }

  lemma ParabolasAsChord(h: real, s: seq<real>, a: seq<real>, b: seq<real>, c: seq<real>)
    requires |s| == |a| == |b| == |c|
    requires forall p :: 0 <= p < |s| ==> s[p] == OnParabola(h, a[p], b[p], c[p])
    ensures s == AddSeq(a, ScaleSeq(h, AddSeq(b, ScaleSeq(h, c))))
  {
    var t := AddSeq(a, ScaleSeq(h, AddSeq(b, ScaleSeq(h, c))));
    forall p | 0 <= p < |s| ensures s[p] == t[p] {
      ParabolaAsChord(h, a[p], b[p], c[p]);
    }
  }

  lemma ParabolaAsChord(h: real, c0: real, c1: real, c2: real)
    ensures OnParabola(h, c0, c1, c2) == c0 + h * (c1 + h * c2)
  {
  }

  lemma LeftAlongSum(k: nat, f: int -> real, u: int -> real, g: int -> real, e: int -> real, h: real, c: real)
    requires (forall l :: 0 <= l < k ==> e(l) == f(l) + g(l)) && (forall l :: 0 <= l < k ==> g(l) == h * u(l)) && c == Sum(k, u)
    ensures Sum(k, e) == Sum(k, f) + h * c
  {
    SumAdd(k, f, g, e);
    SumScale(k, h, u, g);
  }

  predicate OnLineAt(h: real, y: real, y0: real, c: real) {
    y == y0 + h * c
  }

  lemma LeftAlong(k: nat, X: (int, int) -> real, U: (int, int) -> real, Y: (int, int) -> real, X': (int, int) -> real, i: int, j: int, h: real) returns (c: real)
    requires forall l :: 0 <= l < k ==> X'(i, l) == Along(h, X, U)(i, l)
    ensures c == Product(k, U, Y, i, j) && OnLineAt(h, Product(k, X', Y, i, j), Product(k, X, Y, i, j), c)
  {
    c := Product(k, U, Y, i, j);
    var f, u, e := (l: int) => X(i, l) * Y(l, j), (l: int) => U(i, l) * Y(l, j), (l: int) => X'(i, l) * Y(l, j);
    var g := (l: int) => h * u(l);
    forall l | 0 <= l < k ensures e(l) == f(l) + g(l) {
      SplitFactor(X(i, l), h, U(i, l), Y(l, j), X'(i, l));
    }
    LeftAlongSum(k, f, u, g, e, h, c);
  }

  lemma SplitFactor(x: real, h: real, u: real, y: real, x': real)
    requires x' == x + h * u
    ensures x' * y == x * y + h * (u * y)
  {
  }

  lemma RowsAlongLine(m: nat, k: nat, a: seq<real>, u: seq<real>, h: real)
    requires |a| == |u| == m * k
    ensures Agree(m, k, View(AddSeq(a, ScaleSeq(h, u)), k, 1), Along(h, View(a, k, 1), View(u, k, 1)))
  {
    RowMajorFits(a, m, k);
    ViewAlongLine(m, k, a, u, k, 1, h);
  }

  lemma UpAlongLine(d: LoraDims, a: seq<real>, u: seq<real>, b: seq<real>, h: real, p: nat) returns (c: real)
    requires |a| == |u| == d.batch * d.rank && |b| == d.rank * d.fout && p < d.batch * d.fout
    ensures c == Up(d, u, b)[p] && Up(d, AddSeq(a, ScaleSeq(h, u)), b)[p] == Up(d, a, b)[p] + h * c
  {
    RowsAlongLine(d.batch, d.rank, a, u, h);
    c := GridAlong(d.batch, d.fout, d.rank, View(a, d.rank, 1), View(u, d.rank, 1), View(b, 1, d.rank), View(AddSeq(a, ScaleSeq(h, u)), d.rank, 1), h, p);
  }

  lemma GridAlong(m: nat, n: nat, k: nat, X: (int, int) -> real, U: (int, int) -> real, Y: (int, int) -> real, X': (int, int) -> real, h: real, p: nat) returns (c: real)
    requires Agree(m, k, X', Along(h, X, U)) && p < m * n
    ensures c == Grid(m, n, ProductOf(k, U, Y))[p] && OnLineAt(h, Grid(m, n, ProductOf(k, X', Y))[p], Grid(m, n, ProductOf(k, X, Y))[p], c)
  {
    MatMulCell(m, n, k, X', Y, p);
    MatMulCell(m, n, k, X, Y, p);
    MatMulCell(m, n, k, U, Y, p);
    c := LeftAlong(k, X, U, Y, X', p / n, p % n, h);
  }

  /** What remains of an output entry after its value and its derivative, over h squared. */
  function LoraRemainder(d: LoraDims, s: real, x: seq<real>, a: seq<real>, b: seq<real>, ux: seq<real>, ua: seq<real>, ub: seq<real>, h: real, p: nat): real {
    At(ScaleSeq(s, AddSeq(Up(d, Hidden(d, ux, ua), b), Up(d, HiddenChord(d, x, a, ux, ua, h), ub))), p)
  }

  /** `LoraJvp` is the derivative of the LoRA operation in all four operands: along any line the
      output is its value, plus h times `LoraJvp`, plus h squared times a polynomial in h. */
  lemma LoraAlongLine(d: LoraDims, s: real, base: seq<real>, x: seq<real>, a: seq<real>, b: seq<real>,
                      ubase: seq<real>, ux: seq<real>, ua: seq<real>, ub: seq<real>, h: real, p: nat)
    requires LoraSizes(d, base, x, a, b) && LoraSizes(d, ubase, ux, ua, ub) && p < d.batch * d.fout
    ensures LoraOf(d, s, AddSeq(base, ScaleSeq(h, ubase)), AddSeq(x, ScaleSeq(h, ux)), AddSeq(a, ScaleSeq(h, ua)), AddSeq(b, ScaleSeq(h, ub)))[p] ==
            OnParabola(h, LoraOf(d, s, base, x, a, b)[p], LoraJvp(d, s, x, a, b, ubase, ux, ua, ub)[p],
                       LoraRemainder(d, s, x, a, b, ux, ua, ub, h, p))
  {
    var hid := Hidden(d, x, a);
    var m, m1, mq, mv, mw, up := UpBothAlongLine(d, x, a, b, ux, ua, ub, h, p);
    var jvp := MatMulJvp(false, true, d.batch, d.rank, d.fout, hid, b, HiddenJvp(d, x, a, ux, ua), ub);
    assert jvp[p] == m1 + mv;
    LineOfBuffers(s, h, base, ubase, Up(d, Hidden(d, AddSeq(x, ScaleSeq(h, ux)), AddSeq(a, ScaleSeq(h, ua))), AddSeq(b, ScaleSeq(h, ub))), Up(d, hid, b), jvp,
                  Up(d, Hidden(d, ux, ua), b), Up(d, HiddenChord(d, x, a, ux, ua, h), ub), p, m, m1, mq, mv, mw, up);
  }

  /** Adding the scaled low-rank term to the base keeps the entry on a parabola. */
  lemma LineOfBuffers(s: real, h: real, base: seq<real>, ubase: seq<real>, c: seq<real>, value: seq<real>, jvp: seq<real>, q: seq<real>, w: seq<real>, p: nat,
                      m: real, m1: real, mq: real, mv: real, mw: real, up: real)
    requires p < |base| == |ubase| == |c| == |value| == |jvp| == |q| == |w|
    requires c[p] == up && value[p] == m && jvp[p] == m1 + mv && q[p] == mq && w[p] == mw
    requires up == OnParabola(h, m, m1 + h * mq + mv, mw)
    ensures AddSeq(AddSeq(base, ScaleSeq(h, ubase)), ScaleSeq(s, c))[p] ==
            OnParabola(h, AddSeq(base, ScaleSeq(s, value))[p], AddSeq(ubase, ScaleSeq(s, jvp))[p], At(ScaleSeq(s, AddSeq(q, w)), p))
  {
    ScaledSum(h, base, ubase, ubase[p], p);
    ScaledSum(s, AddSeq(base, ScaleSeq(h, ubase)), c, up, p);
    ScaledSum(s, base, value, m, p);
    ScaledSum(s, ubase, jvp, m1 + mv, p);
    SameProduct(s, At(AddSeq(q, w), p), s, mq + mw);
    CollectPowers(h, s, base[p], ubase[p], m, m1, mq, mv, mw, up, AddSeq(base, ScaleSeq(s, value))[p], AddSeq(ubase, ScaleSeq(s, jvp))[p],
                  At(ScaleSeq(s, AddSeq(q, w)), p), AddSeq(AddSeq(base, ScaleSeq(h, ubase)), ScaleSeq(s, c))[p]);
  }

  lemma ScaledSum(s: real, base: seq<real>, c: seq<real>, m: real, p: nat)
    requires p < |base| == |c| && m == c[p]
    ensures AddSeq(base, ScaleSeq(s, c))[p] == base[p] + s * m
  {
    SameProduct(s, At(c, p), s, m);
  }

  /** The unscaled LoRA term along a line, entry by entry. */
  lemma UpBothAlongLine(d: LoraDims, x: seq<real>, a: seq<real>, b: seq<real>, ux: seq<real>, ua: seq<real>, ub: seq<real>, h: real, p: nat)
    returns (m: real, m1: real, mq: real, mv: real, mw: real, up: real)
    requires |x| == |ux| == d.batch * d.fin && |a| == |ua| == d.fin * d.rank && |b| == |ub| == d.rank * d.fout && p < d.batch * d.fout
    ensures up == Up(d, Hidden(d, AddSeq(x, ScaleSeq(h, ux)), AddSeq(a, ScaleSeq(h, ua))), AddSeq(b, ScaleSeq(h, ub)))[p]
    ensures m == Up(d, Hidden(d, x, a), b)[p] && m1 == Up(d, HiddenJvp(d, x, a, ux, ua), b)[p] && mq == Up(d, Hidden(d, ux, ua), b)[p]
    ensures mv == Up(d, Hidden(d, x, a), ub)[p] && mw == Up(d, HiddenChord(d, x, a, ux, ua, h), ub)[p]
    ensures up == OnParabola(h, m, m1 + h * mq + mv, mw)
  {
    var hid, w := Hidden(d, x, a), HiddenChord(d, x, a, ux, ua, h);
    HiddenAlongLine(d, x, a, ux, ua, h);
    var wb;
    up, m, wb, mv, mw := UpAlong(d, hid, w, b, ub, h, p);
    m1 := Up(d, HiddenJvp(d, x, a, ux, ua), b)[p];
    mq := UpAlongLine(d, HiddenJvp(d, x, a, ux, ua), Hidden(d, ux, ua), b, h, p);
  }

  lemma UpAlong(d: LoraDims, hid: seq<real>, w: seq<real>, b: seq<real>, ub: seq<real>, h: real, p: nat) returns (up: real, m: real, wb: real, mv: real, mw: real)
    requires |hid| == |w| == d.batch * d.rank && |b| == |ub| == d.rank * d.fout && p < d.batch * d.fout
    ensures up == Up(d, AddSeq(hid, ScaleSeq(h, w)), AddSeq(b, ScaleSeq(h, ub)))[p]
    ensures m == Up(d, hid, b)[p] && wb == Up(d, w, b)[p] && mv == Up(d, hid, ub)[p] && mw == Up(d, w, ub)[p]
    ensures up == OnParabola(h, m, wb + mv, mw)
  {
    MatMulAlongLine(false, true, d.batch, d.rank, d.fout, hid, b, w, ub, h, p);
    up, m, wb, mv, mw := Up(d, AddSeq(hid, ScaleSeq(h, w)), AddSeq(b, ScaleSeq(h, ub)))[p], Up(d, hid, b)[p], Up(d, w, b)[p], Up(d, hid, ub)[p], Up(d, w, ub)[p];
  }

  lemma CollectPowers(h: real, s: real, base: real, ubase: real, m: real, m1: real, mq: real, mv: real, mw: real, up: real, c0: real, c1: real, c2: real, line: real)
    requires up == OnParabola(h, m, m1 + h * mq + mv, mw) && line == (base + h * ubase) + s * up
    requires c0 == base + s * m && c1 == ubase + s * (m1 + mv) && c2 == s * (mq + mw)
    ensures line == OnParabola(h, c0, c1, c2)
  {
    var w := h * mq;
    assert h * (m1 + w + mv) == h * (m1 + mv) + h * w;
    assert h * w == h * h * mq;
    assert up == m + (h * (m1 + mv) + h * h * (mq + mw));
    ScaleParabola(s, h, m, m1 + mv, mq + mw);
  }

  lemma ScaleParabola(s: real, h: real, a: real, b: real, c: real)
    ensures s * (a + (h * b + h * h * c)) == s * a + (h * (s * b) + h * h * (s * c))
  {
  }
}
