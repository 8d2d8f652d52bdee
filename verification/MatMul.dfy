/** Matrix product: the replay loop, the CPU backward loops, and when the latter are the adjoint
    of the former. Operands are stored row-major; a transposed operand is stored transposed. */
module MatMulKernel {
  import opened Sums
  import opened Grids
  import opened Rows
  import opened Tensors

  /** The effective left operand; it is stored m-by-k, or k-by-m if `ta`. */
  function Left(ta: bool, m: nat, k: nat, a: seq<real>): (int, int) -> real {
    if ta then View(a, 1, m) else View(a, k, 1)
  }

  /** The effective right operand; it is stored k-by-n, or n-by-k if `tb`. */
  function Right(tb: bool, k: nat, n: nat, b: seq<real>): (int, int) -> real {
    if tb then View(b, 1, k) else View(b, n, 1)
  }

  /** The product itself. */
  function MatMulOf(ta: bool, tb: bool, m: nat, k: nat, n: nat, a: seq<real>, b: seq<real>): (c: seq<real>)
    ensures |c| == m * n
  {
    Grid(m, n, ProductOf(k, Left(ta, m, k, a), Right(tb, k, n, b)))
  }

  // ---------------------------------------------------------------- replay

  /** The extents replay insists on: effective columns of A against effective rows of B, as the
      code computes them from the stored shapes. */
  predicate ReplayAccepts(ta: bool, tb: bool, m: nat, k: nat, n: nat, lenA: nat, lenB: nat) {
    var (ar, ac) := if ta then (k, m) else (m, k);
    var (br, bc) := if tb then (n, k) else (k, n);
    lenA == ar * ac && lenB == br * bc && ac == br
  }

  /** Replay accepts a well-sized product exactly when the *stored* extents agree: always for
      A·B, only for k == n with B transposed, only for m == k with A transposed, and only for
      m == n with both. */
  lemma ReplayAcceptsExactly(ta: bool, tb: bool, m: nat, k: nat, n: nat)
    ensures ReplayAccepts(ta, tb, m, k, n, m * k, k * n) <==>
            (if ta then (if tb then m == n else m == k) else (tb ==> k == n))
  {
    assert m * k == k * m && k * n == n * k;
  }

  lemma OperandsFit(ta: bool, tb: bool, m: nat, k: nat, n: nat, a: seq<real>, b: seq<real>)
    requires |a| == m * k && |b| == k * n
    ensures if ta then Fits(a, m, 1, k, m) else Fits(a, m, k, k, 1)
    ensures if tb then Fits(b, k, 1, n, k) else Fits(b, k, n, n, 1)
  {
    assert m * k == k * m && k * n == n * k;
    if ta { RowMajorFits(a, k, m); } else { RowMajorFits(a, m, k); }
    if tb { RowMajorFits(b, n, k); } else { RowMajorFits(b, k, n); }
  }

  /** The replay arm of `MatMul`. */
  method ReplayMatMul(ta: bool, tb: bool, m: nat, k: nat, n: nat, av: seq<real>, bv: seq<real>) returns (r: Option<seq<real>>)
    ensures r == if ReplayAccepts(ta, tb, m, k, n, |av|, |bv|) then Some(MatMulOf(ta, tb, m, k, n, av, bv)) else None
  {
    if !ReplayAccepts(ta, tb, m, k, n, |av|, |bv|) { return None; }
    assert |av| == m * k && |bv| == k * n by { assert m * k == k * m && k * n == n * k; }
    OperandsFit(ta, tb, m, k, n, av, bv);
    var xi, xl := if ta then 1 else k, if ta then m else 1;
    var yl, yj := if tb then 1 else n, if tb then k else 1;
    var out := RowLoop(m, n, k, av, xi, xl, bv, yl, yj, true);
    r := Some(out[..]);
  }

  // ---------------------------------------------------------------- backward

  /** The gradient loops for operands stored a0-by-a1 and b0-by-b1, index for index. Without
      transposes the output is a0-by-b1; otherwise the code strides the output gradient by b0. */
  function GradLeft(ta: bool, tb: bool, a0: nat, a1: nat, b0: nat, b1: nat, b: seq<real>, g: seq<real>): (d: seq<real>)
    ensures |d| == a0 * a1
  {
    if !ta && !tb then Grid(a0, a1, ProductOf(b1, View(g, b1, 1), View(b, 1, b1)))
    else if !ta then Grid(a0, a1, ProductOf(b0, View(g, b0, 1), View(b, b1, 1)))
    else Grid(a0, a1, ProductOf(b0, View(b, b1, 1), View(g, 1, b0)))
  }

  function GradRight(ta: bool, tb: bool, a0: nat, a1: nat, b0: nat, b1: nat, a: seq<real>, g: seq<real>): (d: seq<real>)
    ensures |d| == b0 * b1
  {
    if !ta && !tb then Grid(b0, b1, ProductOf(a0, View(a, 1, a1), View(g, b1, 1)))
    else if tb then Grid(b0, b1, ProductOf(a0, View(g, 1, b0), View(a, a1, 1)))
    else Grid(b0, b1, ProductOf(a0, View(a, a1, 1), View(g, b0, 1)))
  }

  /** No loop of the CPU path indexes outside a buffer. */
  ghost predicate BackwardInBounds(ta: bool, tb: bool, a0: nat, a1: nat, b0: nat, b1: nat, a: seq<real>, b: seq<real>, g: seq<real>) {
    if !ta && !tb then
      && Fits(g, a0, b1, b1, 1) && Fits(b, b1, 1, a1, b1)
      && Fits(a, b0, 1, a0, a1) && Fits(g, a0, b1, b1, 1)
    else
      && (if !ta then Fits(g, a0, b0, b0, 1) && Fits(b, b0, b1, a1, 1)
          else Fits(b, a0, b1, b0, 1) && Fits(g, b0, 1, a1, b0))
      && (if tb then Fits(g, b0, 1, a0, b0) && Fits(a, a0, a1, b1, 1)
          else Fits(a, b0, a1, a0, 1) && Fits(g, a0, b0, b1, 1))
  }

  /** `matmul_backward` on the CPU. */
  method MatMulBackward(ta: bool, tb: bool, a0: nat, a1: nat, b0: nat, b1: nat, a: seq<real>, b: seq<real>, g: seq<real>)
    returns (da: array<real>, db: array<real>)
    requires BackwardInBounds(ta, tb, a0, a1, b0, b1, a, b, g)
    ensures da[..] == GradLeft(ta, tb, a0, a1, b0, b1, b, g)
    ensures db[..] == GradRight(ta, tb, a0, a1, b0, b1, a, g)
  {
    if !ta && !tb {
      da := SumLoop(a0, a1, b1, g, b1, 1, b, 1, b1);
      db := SumLoop(b0, b1, a0, a, 1, a1, g, b1, 1);
    } else {
      if !ta {
        da := RowLoop(a0, a1, b0, g, b0, 1, b, b1, 1, false);
      } else {
        da := SumLoop(a0, a1, b0, b, b1, 1, g, 1, b0);
      }
      if tb {
        db := OuterLoop(b0, b1, a0, g, 1, b0, a, a1, 1);
      } else {
        db := RowLoop(b0, b1, a0, a, a1, 1, g, b0, 1, false);
      }
    }
  }

  /** The derivative of the product in direction (u, v). */
  function MatMulJvp(ta: bool, tb: bool, m: nat, k: nat, n: nat, a: seq<real>, b: seq<real>, u: seq<real>, v: seq<real>): (c: seq<real>)
    ensures |c| == m * n
  {
    AddSeq(MatMulOf(ta, tb, m, k, n, u, b), MatMulOf(ta, tb, m, k, n, a, v))
  }

  /** Pairing a gradient with a product, through views. */
  lemma ProductPairing(m: nat, k: nat, n: nat, X: (int, int) -> real, Y: (int, int) -> real, g: seq<real>)
    requires |g| == m * n
    ensures Dot(g, Grid(m, n, ProductOf(k, X, Y))) == Inner(m, n, View(g, n, 1), ProductOf(k, X, Y))
  {
    DotCommutes(g, Grid(m, n, ProductOf(k, X, Y)));
    GridPairing(m, n, ProductOf(k, X, Y), g);
    InnerCommutes(m, n, View(g, n, 1), ProductOf(k, X, Y));
  }

  /** The left half of adjointness, for either way of storing B. */
  lemma LeftAdjoint(tb: bool, m: nat, k: nat, n: nat, b: seq<real>, g: seq<real>, u: seq<real>)
    requires |b| == k * n && |g| == m * n && |u| == m * k
    ensures Dot(g, MatMulOf(false, tb, m, k, n, u, b)) ==
            Dot(GradLeft(false, tb, m, k, if tb then n else k, if tb then k else n, b, g), u)
  {
    var X, Y, G := View(u, k, 1), Right(tb, k, n, b), View(g, n, 1);
    ProductPairing(m, k, n, X, Y, g);
    ProductAdjointLeft(m, k, n, X, Y, G);
    var Yt := if tb then View(b, k, 1) else View(b, 1, n);
    ProductExt(m, k, n, G, G, Flip(Y), Yt);
    GridPairing(m, k, ProductOf(n, G, Yt), u);
    InnerExt(m, k, ProductOf(n, G, Flip(Y)), ProductOf(n, G, Yt), X, X);
  }

  /** The right half. */
  lemma RightAdjoint(tb: bool, m: nat, k: nat, n: nat, a: seq<real>, g: seq<real>, v: seq<real>)
    requires |a| == m * k && |g| == m * n && |v| == k * n
    ensures Dot(g, MatMulOf(false, tb, m, k, n, a, v)) ==
            Dot(GradRight(false, tb, m, k, if tb then n else k, if tb then k else n, a, g), v)
  {
    var X, Y, G := View(a, k, 1), Right(tb, k, n, v), View(g, n, 1);
    ProductPairing(m, k, n, X, Y, g);
    ProductAdjointRight(m, k, n, X, Y, G);
    var D := ProductOf(m, Flip(X), G);
    if tb {
      InnerFlip(k, n, D, Y);
      FlipProduct(k, n, m, Flip(X), G);
      var E := ProductOf(m, View(g, 1, n), View(a, k, 1));
      ProductExt(n, k, m, Flip(G), View(g, 1, n), Flip(Flip(X)), View(a, k, 1));
      InnerExt(n, k, Flip(D), E, Flip(Y), View(v, k, 1));
      GridPairing(n, k, E, v);
    } else {
      var E := ProductOf(m, View(a, 1, k), G);
      ProductExt(k, n, m, Flip(X), View(a, 1, k), G, G);
      InnerExt(k, n, D, E, Y, Y);
      GridPairing(k, n, E, v);
    }
  }

  /** Main result. With A not transposed the backward loops are the exact adjoint of the product,
      for every shape, with or without B transposed. */
  lemma MatMulBackwardIsAdjoint(tb: bool, m: nat, k: nat, n: nat, a: seq<real>, b: seq<real>, g: seq<real>, u: seq<real>, v: seq<real>)
    requires |a| == |u| == m * k && |b| == |v| == k * n && |g| == m * n
    ensures var (b0, b1) := if tb then (n, k) else (k, n);
            && BackwardInBounds(false, tb, m, k, b0, b1, a, b, g)
            && Dot(g, MatMulJvp(false, tb, m, k, n, a, b, u, v)) ==
               Dot(GradLeft(false, tb, m, k, b0, b1, b, g), u) + Dot(GradRight(false, tb, m, k, b0, b1, a, g), v)
  {
    LeftAdjoint(tb, m, k, n, b, g, u);
    RightAdjoint(tb, m, k, n, a, g, v);
    var c, d := MatMulOf(false, tb, m, k, n, u, b), MatMulOf(false, tb, m, k, n, a, v);
    DotCommutes(g, AddSeq(c, d));
    DotCommutes(g, c);
    DotCommutes(g, d);
    DotAdd(c, d, g);
    assert k * n == n * k;
    RowMajorFits(g, m, n);
    RowMajorFits(a, m, k);
    if tb { RowMajorFits(b, n, k); } else { RowMajorFits(b, k, n); }
  }

  // ---------------------------------------------------------------- A transposed

  /** Stored operands k-by-m and k-by-n: no loop leaves its buffer, and the loops are adjoint. */
  ghost predicate TransposedLeftWorks(m: nat, k: nat, n: nat, a: seq<real>, b: seq<real>, g: seq<real>, u: seq<real>, v: seq<real>) {
    |a| == |u| == m * k && |b| == |v| == k * n && |g| == m * n ==>
      && BackwardInBounds(true, false, k, m, k, n, a, b, g)
      && Dot(g, MatMulJvp(true, false, m, k, n, a, b, u, v)) ==
         Dot(GradLeft(true, false, k, m, k, n, b, g), u) + Dot(GradRight(true, false, k, m, k, n, a, g), v)
  }

  lemma TransposedLeftWorksOnSquares(s: nat, a: seq<real>, b: seq<real>, g: seq<real>, u: seq<real>, v: seq<real>)
    ensures TransposedLeftWorks(s, s, s, a, b, g, u, v)
  {
    if |a| == |u| == s * s && |b| == |v| == s * s && |g| == s * s {
      RowMajorFits(a, s, s);
      RowMajorFits(b, s, s);
      RowMajorFits(g, s, s);
      var G, X, Y := View(g, s, 1), View(u, 1, s), View(b, s, 1);
      ProductPairing(s, s, s, X, Y, g);
      ProductAdjointLeft(s, s, s, X, Y, G);
      InnerFlip(s, s, ProductOf(s, G, Flip(Y)), X);
      FlipProduct(s, s, s, G, Flip(Y));
      var D := ProductOf(s, View(b, s, 1), View(g, 1, s));
      ProductExt(s, s, s, Flip(Flip(Y)), View(b, s, 1), Flip(G), View(g, 1, s));
      InnerExt(s, s, Flip(ProductOf(s, G, Flip(Y))), D, Flip(X), View(u, s, 1));
      GridPairing(s, s, D, u);

      var A, V := View(a, 1, s), View(v, s, 1);
      ProductPairing(s, s, s, A, V, g);
      ProductAdjointRight(s, s, s, A, V, G);
      var E := ProductOf(s, View(a, s, 1), View(g, s, 1));
      ProductExt(s, s, s, Flip(A), View(a, s, 1), G, G);
      InnerExt(s, s, ProductOf(s, Flip(A), G), E, V, V);
      GridPairing(s, s, E, v);

      var c, d := MatMulOf(true, false, s, s, s, u, b), MatMulOf(true, false, s, s, s, a, v);
      DotCommutes(g, AddSeq(c, d));
      DotCommutes(g, c);
      DotCommutes(g, d);
      DotAdd(c, d, g);
    }
  }

  function Const(n: nat, c: real): (s: seq<real>)
    ensures |s| == n
  {
    seq(n, _ => c)
  }

  lemma {:induction false} SumConst(n: nat, f: int -> real, c: real)
    requires forall i :: 0 <= i < n ==> f(i) == c
    ensures Sum(n, f) == n as real * c
  {
    if n > 0 {
      SumConst(n - 1, f, c);
      assert n as real * c == (n - 1) as real * c + c;
    }
  }

  lemma DotConst(n: nat, s: seq<real>, t: seq<real>, c: real, d: real)
    requires s == Const(n, c) && t == Const(n, d)
    ensures Dot(s, t) == n as real * (c * d)
  {
    SumConst(n, i => At(s, i) * At(t, i), c * d);
  }

  /** A product of constant matrices is constant. */
  lemma ConstProduct(m: nat, n: nat, k: nat, X: (int, int) -> real, Y: (int, int) -> real, c: real, d: real, e: real)
    requires Agree(m, k, X, (i, j) => c) && Agree(k, n, Y, (i, j) => d)
    requires e == k as real * (c * d)
    ensures Grid(m, n, ProductOf(k, X, Y)) == Const(m * n, e)
  {
    forall p | 0 <= p < m * n ensures Grid(m, n, ProductOf(k, X, Y))[p] == e {
      MatMulCell(m, n, k, X, Y, p);
      ConstProductAt(k, X, Y, p / n, p % n, c, d, e);
    }
  }

  lemma ConstProductAt(k: nat, X: (int, int) -> real, Y: (int, int) -> real, i: int, j: int, c: real, d: real, e: real)
    requires forall l :: 0 <= l < k ==> X(i, l) == c && Y(l, j) == d
    requires e == k as real * (c * d)
    ensures Product(k, X, Y, i, j) == e
  {
    SumConst(k, l => X(i, l) * Y(l, j), c * d);
  }

  lemma ConstView(m: nat, n: nat, s: seq<real>, a: nat, b: nat, c: real)
    requires Fits(s, m, a, n, b) && s == Const(|s|, c)
    ensures Agree(m, n, View(s, a, b), (i, j) => c)
  {
    forall i, j | 0 <= i < m && 0 <= j < n ensures View(s, a, b)(i, j) == c {
      assert InRange(s, a, b, i, j);
    }
  }

  lemma ConstForward(m: nat, k: nat, n: nat, a: seq<real>, b: seq<real>, c: real, d: real, e: real)
    requires a == Const(m * k, c) && b == Const(k * n, d) && e == k as real * (c * d)
    ensures MatMulOf(true, false, m, k, n, a, b) == Const(m * n, e)
  {
    assert m * k == k * m;
    RowMajorFits(a, k, m);
    RowMajorFits(b, k, n);
    ConstView(m, k, a, 1, m, c);
    ConstView(k, n, b, n, 1, d);
    ConstProduct(m, n, k, View(a, 1, m), View(b, n, 1), c, d, e);
  }

  lemma ConstLeft(m: nat, k: nat, n: nat, b: seq<real>, g: seq<real>)
    requires Fits(b, k, n, k, 1) && Fits(g, k, 1, m, k) && b == Const(|b|, 1.0) && g == Const(|g|, 1.0)
    ensures GradLeft(true, false, k, m, k, n, b, g) == Const(k * m, k as real)
  {
    ConstView(k, k, b, n, 1, 1.0);
    ConstView(k, m, g, 1, k, 1.0);
    ConstProduct(k, m, k, View(b, n, 1), View(g, 1, k), 1.0, 1.0, k as real);
  }

  lemma ConstRight(m: nat, k: nat, n: nat, a: seq<real>, g: seq<real>)
    requires Fits(a, k, m, k, 1) && Fits(g, k, k, n, 1) && a == Const(|a|, 1.0) && g == Const(|g|, 1.0)
    ensures GradRight(true, false, k, m, k, n, a, g) == Const(k * n, k as real)
  {
    ConstView(k, k, a, m, 1, 1.0);
    ConstView(k, n, g, k, 1, 1.0);
    ConstProduct(k, n, k, View(a, m, 1), View(g, k, 1), 1.0, 1.0, k as real);
  }

  /** The derivative at constant operands, in constant directions x and y. */
  lemma ConstJvp(m: nat, k: nat, n: nat, a: seq<real>, b: seq<real>, u: seq<real>, v: seq<real>, x: real, y: real, c: real, d: real)
    requires a == Const(m * k, 1.0) && b == Const(k * n, 1.0) && u == Const(m * k, x) && v == Const(k * n, y)
    requires c == k as real * (x * 1.0) && d == k as real * (1.0 * y)
    ensures MatMulJvp(true, false, m, k, n, a, b, u, v) == Const(m * n, c + d)
  {
    ConstForward(m, k, n, u, b, x, 1.0, c);
    ConstForward(m, k, n, a, v, 1.0, y, d);
    JoinConst(MatMulOf(true, false, m, k, n, u, b), MatMulOf(true, false, m, k, n, a, v), m * n, c, d);
  }

  lemma JoinConst(s: seq<real>, t: seq<real>, n: nat, c: real, d: real)
    requires s == Const(n, c) && t == Const(n, d)
    ensures AddSeq(s, t) == Const(n, c + d)
  {
  }

  /** Moving A alone, the law counts m*n*k products on one side and k*m*k on the other. */
  lemma MovingLeft(m: nat, k: nat, n: nat)
    requires TransposedLeftWorks(m, k, n, Const(m * k, 1.0), Const(k * n, 1.0), Const(m * n, 1.0), Const(m * k, 1.0), Const(k * n, 0.0))
    ensures (m * n) as real * k as real == (k * m) as real * k as real
  {
    var a, b, g, u, v := Const(m * k, 1.0), Const(k * n, 1.0), Const(m * n, 1.0), Const(m * k, 1.0), Const(k * n, 0.0);
    ConstJvp(m, k, n, a, b, u, v, 1.0, 0.0, k as real, 0.0);
    ConstLeft(m, k, n, b, g);
    MovedLeft(m, k, n, g, u, v, MatMulJvp(true, false, m, k, n, a, b, u, v),
              GradLeft(true, false, k, m, k, n, b, g), GradRight(true, false, k, m, k, n, a, g));
  }

  lemma MovedLeft(m: nat, k: nat, n: nat, g: seq<real>, u: seq<real>, v: seq<real>, J: seq<real>, dl: seq<real>, dr: seq<real>)
    requires g == Const(m * n, 1.0) && u == Const(m * k, 1.0) && v == Const(k * n, 0.0)
    requires J == Const(m * n, k as real + 0.0) && dl == Const(k * m, k as real)
    requires Dot(g, J) == Dot(dl, u) + Dot(dr, v)
    ensures (m * n) as real * k as real == (k * m) as real * k as real
  {
    assert m * k == k * m;
    DotConst(m * n, g, J, 1.0, k as real);
    DotConst(k * m, dl, u, k as real, 1.0);
    DotZero(dr, v);
  }

  /** Moving B alone, m*n*k against k*n*k. */
  lemma MovingRight(m: nat, k: nat, n: nat)
    requires TransposedLeftWorks(m, k, n, Const(m * k, 1.0), Const(k * n, 1.0), Const(m * n, 1.0), Const(m * k, 0.0), Const(k * n, 1.0))
    ensures (m * n) as real * k as real == (k * n) as real * k as real
  {
    var a, b, g, u, v := Const(m * k, 1.0), Const(k * n, 1.0), Const(m * n, 1.0), Const(m * k, 0.0), Const(k * n, 1.0);
    ConstJvp(m, k, n, a, b, u, v, 0.0, 1.0, 0.0, k as real);
    ConstRight(m, k, n, a, g);
    MovedRight(m, k, n, g, u, v, MatMulJvp(true, false, m, k, n, a, b, u, v),
               GradLeft(true, false, k, m, k, n, b, g), GradRight(true, false, k, m, k, n, a, g));
  }

  lemma MovedRight(m: nat, k: nat, n: nat, g: seq<real>, u: seq<real>, v: seq<real>, J: seq<real>, dl: seq<real>, dr: seq<real>)
    requires g == Const(m * n, 1.0) && u == Const(m * k, 0.0) && v == Const(k * n, 1.0)
    requires J == Const(m * n, 0.0 + k as real) && dr == Const(k * n, k as real)
    requires Dot(g, J) == Dot(dl, u) + Dot(dr, v)
    ensures (m * n) as real * k as real == (k * n) as real * k as real
  {
    DotConst(m * n, g, J, 1.0, k as real);
    DotConst(k * n, dr, v, k as real, 1.0);
    DotZero(dl, u);
  }

  lemma Cancel(p: nat, q: nat, r: nat)
    requires r > 0 && p as real * r as real == q as real * r as real
    ensures p == q
  {
    var x, y, z := p as real, q as real, r as real;
    assert x == (x * z) / z && y == (y * z) / z;
  }

  lemma CancelFactor(p: nat, q: nat, r: nat)
    requires r > 0 && r * p == r * q
    ensures p == q
  {
  }

  /** Exactly when the code's Aᵀ·B gradient is right: on non-empty operands, it stays in bounds
      and is adjoint for all values if and only if m == k == n. */
  lemma TransposedLeftIffSquare(m: nat, k: nat, n: nat)
    requires m > 0 && k > 0 && n > 0
    ensures (forall a, b, g, u, v :: TransposedLeftWorks(m, k, n, a, b, g, u, v)) <==> m == k == n
  {
    if m == k == n {
      forall a, b, g, u, v ensures TransposedLeftWorks(m, k, n, a, b, g, u, v) {
        TransposedLeftWorksOnSquares(m, a, b, g, u, v);
      }
    }
    if forall a, b, g, u, v :: TransposedLeftWorks(m, k, n, a, b, g, u, v) {
      assert TransposedLeftWorks(m, k, n, Const(m * k, 1.0), Const(k * n, 1.0), Const(m * n, 1.0), Const(m * k, 1.0), Const(k * n, 0.0));
      assert TransposedLeftWorks(m, k, n, Const(m * k, 1.0), Const(k * n, 1.0), Const(m * n, 1.0), Const(m * k, 0.0), Const(k * n, 1.0));
      BothForceSquare(m, k, n);
    }
  }

  lemma BothForceSquare(m: nat, k: nat, n: nat)
    requires m > 0 && k > 0 && n > 0
    requires TransposedLeftWorks(m, k, n, Const(m * k, 1.0), Const(k * n, 1.0), Const(m * n, 1.0), Const(m * k, 1.0), Const(k * n, 0.0))
    requires TransposedLeftWorks(m, k, n, Const(m * k, 1.0), Const(k * n, 1.0), Const(m * n, 1.0), Const(m * k, 0.0), Const(k * n, 1.0))
    ensures m == k == n
  {
    MovingLeft(m, k, n);
    MovingRight(m, k, n);
    Cancel(m * n, k * m, k);
    Cancel(m * n, k * n, k);
    assert k * m == m * k && m * n == n * m && k * n == n * k;
    CancelFactor(n, k, m);
    CancelFactor(m, k, n);
  }

  // ---------------------------------------------------------------- the derivative

  /** The point at `h` on the line from X in direction U. */
  function Along(h: real, X: (int, int) -> real, U: (int, int) -> real): (int, int) -> real {
    (i, j) => X(i, j) + h * U(i, j)
  }

  lemma ViewAlongLine(m: nat, n: nat, s: seq<real>, t: seq<real>, x: nat, y: nat, h: real)
    requires |s| == |t| && Fits(s, m, x, n, y)
    ensures Agree(m, n, View(AddSeq(s, ScaleSeq(h, t)), x, y), Along(h, View(s, x, y), View(t, x, y)))
  {
    forall i, j | 0 <= i < m && 0 <= j < n
      ensures View(AddSeq(s, ScaleSeq(h, t)), x, y)(i, j) == Along(h, View(s, x, y), View(t, x, y))(i, j)
    {
      assert InRange(s, x, y, i, j);
    }
  }

  function OnParabola(h: real, c0: real, c1: real, c2: real): real {
    c0 + (h * c1 + h * h * c2)
  }

  /** The derivative of a product of matrices along a line. */
  lemma {:induction false} ProductAlongLine(k: nat, i: int, j: int, X: (int, int) -> real, Y: (int, int) -> real, U: (int, int) -> real, V: (int, int) -> real, h: real)
    ensures Product(k, Along(h, X, U), Along(h, Y, V), i, j) ==
            OnParabola(h, Product(k, X, Y, i, j), Product(k, U, Y, i, j) + Product(k, X, V, i, j), Product(k, U, V, i, j))
  {
    if k > 0 {
      var l := k - 1;
      var x, u, y, v := X(i, l), U(i, l), Y(l, j), V(l, j);
      var x', y' := Along(h, X, U)(i, l), Along(h, Y, V)(l, j);
      ProductAlongLine(l, i, j, X, Y, U, V, h);
      ProductStep(l, Along(h, X, U), Along(h, Y, V), i, j, x', y');
      ProductStep(l, X, Y, i, j, x, y);
      ProductStep(l, U, Y, i, j, u, y);
      ProductStep(l, X, V, i, j, x, v);
      ProductStep(l, U, V, i, j, u, v);
      OneMoreTerm(h, x, u, y, v, x', y', Product(l, X, Y, i, j), Product(l, U, Y, i, j), Product(l, X, V, i, j), Product(l, U, V, i, j),
                  Product(l, Along(h, X, U), Along(h, Y, V), i, j));
    } else {
      FlatParabola(h);
    }
  }

  lemma FlatParabola(h: real)
    ensures OnParabola(h, 0.0, 0.0 + 0.0, 0.0) == 0.0
  {
  }

  lemma ProductStep(l: nat, X: (int, int) -> real, Y: (int, int) -> real, i: int, j: int, x: real, y: real)
    requires X(i, l) == x && Y(l, j) == y
    ensures Product(l + 1, X, Y, i, j) == Product(l, X, Y, i, j) + x * y
  {
  }

  lemma OneMoreTerm(h: real, x: real, u: real, y: real, v: real, x': real, y': real, o: real, p: real, q: real, r: real, o': real)
    requires x' == x + h * u && y' == y + h * v && o' == OnParabola(h, o, p + q, r)
    ensures o' + x' * y' == OnParabola(h, o + x * y, (p + u * y) + (q + x * v), r + u * v)
  {
    ExpandAlongLine(x, u, y, v, h);
    CollectPowers(h, p, u * y, q, x * v, r, u * v);
  }

  lemma ExpandAlongLine(x: real, u: real, y: real, v: real, h: real)
    ensures (x + h * u) * (y + h * v) == x * y + (h * (u * y + x * v) + h * h * (u * v))
  {
  }

  lemma CollectPowers(h: real, p: real, p': real, q: real, q': real, r: real, r': real)
    ensures h * ((p + p') + (q + q')) + h * h * (r + r') == (h * (p + q) + h * h * r) + (h * (p' + q') + h * h * r')
  {
  }

  lemma MatMulCell(m: nat, n: nat, k: nat, X: (int, int) -> real, Y: (int, int) -> real, p: nat)
    requires p < m * n
    ensures n > 0 && p / n < m && p % n < n && Grid(m, n, ProductOf(k, X, Y))[p] == Product(k, X, Y, p / n, p % n)
  {
    FlatSplit(m, n, p);
  }

  lemma OperandsAlongLine(ta: bool, tb: bool, m: nat, k: nat, n: nat, a: seq<real>, b: seq<real>, u: seq<real>, v: seq<real>, h: real)
    requires |a| == |u| == m * k && |b| == |v| == k * n
    ensures Agree(m, k, Left(ta, m, k, AddSeq(a, ScaleSeq(h, u))), Along(h, Left(ta, m, k, a), Left(ta, m, k, u)))
    ensures Agree(k, n, Right(tb, k, n, AddSeq(b, ScaleSeq(h, v))), Along(h, Right(tb, k, n, b), Right(tb, k, n, v)))
  {
    OperandsFit(ta, tb, m, k, n, a, b);
    if ta { ViewAlongLine(m, k, a, u, 1, m, h); } else { ViewAlongLine(m, k, a, u, k, 1, h); }
    if tb { ViewAlongLine(k, n, b, v, 1, k, h); } else { ViewAlongLine(k, n, b, v, n, 1, h); }
  }

  /** `MatMulJvp` is the derivative: along any line every entry of the product is a quadratic in
      the step `h`, and its linear coefficient is the entry of `MatMulJvp`. */
  lemma MatMulAlongLine(ta: bool, tb: bool, m: nat, k: nat, n: nat, a: seq<real>, b: seq<real>, u: seq<real>, v: seq<real>, h: real, p: nat)
    requires |a| == |u| == m * k && |b| == |v| == k * n && p < m * n
    ensures MatMulOf(ta, tb, m, k, n, AddSeq(a, ScaleSeq(h, u)), AddSeq(b, ScaleSeq(h, v)))[p] ==
            OnParabola(h, MatMulOf(ta, tb, m, k, n, a, b)[p], MatMulJvp(ta, tb, m, k, n, a, b, u, v)[p], MatMulOf(ta, tb, m, k, n, u, v)[p])
  {
    var X', Y' := Left(ta, m, k, AddSeq(a, ScaleSeq(h, u))), Right(tb, k, n, AddSeq(b, ScaleSeq(h, v)));
    var X, Y, U, V := Left(ta, m, k, a), Right(tb, k, n, b), Left(ta, m, k, u), Right(tb, k, n, v);
    OperandsAlongLine(ta, tb, m, k, n, a, b, u, v, h);
    MatMulCell(m, n, k, X', Y', p);
    MatMulCell(m, n, k, X, Y, p);
    MatMulCell(m, n, k, U, Y, p);
    MatMulCell(m, n, k, X, V, p);
    MatMulCell(m, n, k, U, V, p);
    ProductExt(m, n, k, X', Along(h, X, U), Y', Along(h, Y, V));
    assert ProductOf(k, X', Y')(p / n, p % n) == ProductOf(k, Along(h, X, U), Along(h, Y, V))(p / n, p % n);
    ProductAlongLine(k, p / n, p % n, X, Y, U, V, h);
    assert MatMulJvp(ta, tb, m, k, n, a, b, u, v)[p] == Product(k, U, Y, p / n, p % n) + Product(k, X, V, p / n, p % n);
  }
}
