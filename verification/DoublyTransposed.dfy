/** The gradient of Aᵀ·Bᵀ. The loops read B by rows where its columns are meant, and add up the
    wrong extent of A; this says for which shapes nothing comes of it. */
module DoublyTransposed {
  import opened Sums
  import opened Grids
  import opened Rows
  import opened MatMulKernel

  /** Stored operands k-by-m and n-by-k: no loop leaves its buffer, and the loops are adjoint. */
  ghost predicate BothTransposedWorks(m: nat, k: nat, n: nat, a: seq<real>, b: seq<real>, g: seq<real>, u: seq<real>, v: seq<real>) {
    |a| == |u| == m * k && |b| == |v| == k * n && |g| == m * n ==>
      && BackwardInBounds(true, true, k, m, n, k, a, b, g)
      && Dot(g, MatMulJvp(true, true, m, k, n, a, b, u, v)) ==
         Dot(GradLeft(true, true, k, m, n, k, b, g), u) + Dot(GradRight(true, true, k, m, n, k, a, g), v)
  }

  // ---------------------------------------------------------------- one row, one term

  lemma OneTerm(X: (int, int) -> real, Y: (int, int) -> real, i: int, j: int)
    ensures Product(1, X, Y, i, j) == X(i, 0) * Y(0, j)
  {
    var f := (l: int) => X(i, l) * Y(l, j);
    assert Sum(1, f) == Sum(0, f) + f(0);
  }

  lemma ForwardAt(transposed: bool, n: nat, a: seq<real>, b: seq<real>, j: nat)
    requires |a| == 1 && |b| == n && j < n
    ensures MatMulOf(transposed, transposed, 1, 1, n, a, b)[j] == a[0] * b[j]
  {
    var X, Y := Left(transposed, 1, 1, a), Right(transposed, 1, n, b);
    GridCell(1, n, ProductOf(1, X, Y), 0, j);
    OneTerm(X, Y, 0, j);
    assert X(0, 0) == a[0] && Y(0, j) == b[j];
  }

  lemma SameForward(n: nat, a: seq<real>, b: seq<real>)
    requires |a| == 1 && |b| == n
    ensures MatMulOf(true, true, 1, 1, n, a, b) == MatMulOf(false, false, 1, 1, n, a, b)
  {
    forall j | 0 <= j < n ensures MatMulOf(true, true, 1, 1, n, a, b)[j] == MatMulOf(false, false, 1, 1, n, a, b)[j] {
      ForwardAt(true, n, a, b, j);
      ForwardAt(false, n, a, b, j);
    }
  }

  lemma SameGradLeft(n: nat, b: seq<real>, g: seq<real>)
    requires |b| == |g| == n
    ensures GradLeft(true, true, 1, 1, n, 1, b, g) == GradLeft(false, false, 1, 1, 1, n, b, g)
  {
    var X, Y, G, B := View(b, 1, 1), View(g, 1, n), View(g, n, 1), View(b, 1, n);
    GridCell(1, 1, ProductOf(n, X, Y), 0, 0);
    GridCell(1, 1, ProductOf(n, G, B), 0, 0);
    SumExt(n, l => X(0, l) * Y(l, 0), l => G(0, l) * B(l, 0));
  }

  lemma SameGradRight(n: nat, a: seq<real>, g: seq<real>)
    requires |a| == 1 && |g| == n
    ensures GradRight(true, true, 1, 1, n, 1, a, g) == GradRight(false, false, 1, 1, 1, n, a, g)
  {
    var s, t := GradRight(true, true, 1, 1, n, 1, a, g), GradRight(false, false, 1, 1, 1, n, a, g);
    forall j | 0 <= j < n ensures s[j] == t[j] {
      GridCell(n, 1, ProductOf(1, View(g, 1, n), View(a, 1, 1)), j, 0);
      GridCell(1, n, ProductOf(1, View(a, 1, 1), View(g, n, 1)), 0, j);
      OneTerm(View(g, 1, n), View(a, 1, 1), j, 0);
      OneTerm(View(a, 1, 1), View(g, n, 1), 0, j);
    }
  }

  /** A single row times a single column of B: the same loops as without transposing. */
  lemma UnitWorks(n: nat, a: seq<real>, b: seq<real>, g: seq<real>, u: seq<real>, v: seq<real>)
    ensures BothTransposedWorks(1, 1, n, a, b, g, u, v)
  {
    if |a| == |u| == 1 && |b| == |v| == n && |g| == n {
      MatMulBackwardIsAdjoint(false, 1, 1, n, a, b, g, u, v);
      SameForward(n, u, b);
      SameForward(n, a, v);
      SameGradLeft(n, b, g);
      SameGradRight(n, a, g);
    }
  }

  // ---------------------------------------------------------------- two inputs that tell

  lemma ZeroProduct(k: nat, X: (int, int) -> real, Y: (int, int) -> real, i: int, j: int)
    requires (forall l :: 0 <= l < k ==> X(i, l) == 0.0) || (forall l :: 0 <= l < k ==> Y(l, j) == 0.0)
    ensures Product(k, X, Y, i, j) == 0.0
  {
    SumZero(k, l => X(i, l) * Y(l, j));
  }

  lemma SingleProduct(k: nat, X: (int, int) -> real, Y: (int, int) -> real, i: int, j: int, at: nat)
    requires at < k && forall l :: 0 <= l < k && l != at ==> X(i, l) == 0.0 || Y(l, j) == 0.0
    ensures Product(k, X, Y, i, j) == X(i, at) * Y(at, j)
  {
    SumSingle(k, l => X(i, l) * Y(l, j), at);
  }

  lemma JvpAt(m: nat, k: nat, n: nat, a: seq<real>, b: seq<real>, u: seq<real>, v: seq<real>, i: nat, j: nat, p: nat)
    requires i < m && j < n && p == i * n + j
    ensures p < m * n && MatMulJvp(true, true, m, k, n, a, b, u, v)[p] ==
            Product(k, View(u, 1, m), View(b, 1, k), i, j) + Product(k, View(a, 1, m), View(v, 1, k), i, j)
  {
    FlatIndex(m, n, i, j);
    GridCell(m, n, ProductOf(k, View(u, 1, m), View(b, 1, k)), i, j);
    GridCell(m, n, ProductOf(k, View(a, 1, m), View(v, 1, k)), i, j);
  }

  /** Nothing reaches entry (0, 0) of the product when only A[1, 0] moves and only B[1, 0] is set. */
  lemma NothingForward(m: nat, k: nat, n: nat, a: seq<real>, b: seq<real>, g: seq<real>, u: seq<real>, v: seq<real>)
    requires m > 0 && k > 1 && n > 1 && 0 < m * n
    requires a == Const(m * k, 0.0) && b == OneHot(k * n, k) && g == OneHot(m * n, 0) && u == OneHot(m * k, m) && v == Const(k * n, 0.0)
    ensures Dot(g, MatMulJvp(true, true, m, k, n, a, b, u, v)) == 0.0
  {
    JvpAt(m, k, n, a, b, u, v, 0, 0, 0);
    ZeroProduct(k, View(u, 1, m), View(b, 1, k), 0, 0);
    ZeroProduct(k, View(a, 1, m), View(v, 1, k), 0, 0);
    PairWithUnit(m * n, 0, MatMulJvp(true, true, m, k, n, a, b, u, v));
  }

  /** But the loops give A[1, 0] that entry of B as its gradient. */
  lemma SomethingBack(m: nat, k: nat, n: nat, b: seq<real>, g: seq<real>, u: seq<real>)
    requires m > 0 && k > 1 && n > 1 && 0 < m * n && k < k * n && m < m * k
    requires b == OneHot(k * n, k) && g == OneHot(m * n, 0) && u == OneHot(m * k, m)
    ensures Dot(GradLeft(true, true, k, m, n, k, b, g), u) == 1.0
  {
    var dl := GradLeft(true, true, k, m, n, k, b, g);
    assert k * m == m * k;
    GridCell(k, m, ProductOf(n, View(b, k, 1), View(g, 1, n)), 1, 0);
    SingleProduct(n, View(b, k, 1), View(g, 1, n), 1, 0, 0);
    PairWithUnit(m * k, m, dl);
  }

  /** With two rows of A or more, one entry of B is taken for another. */
  lemma WrongEntryOfB(m: nat, k: nat, n: nat)
    requires m > 0 && k > 1 && n > 1
    ensures k < k * n && m < m * k && 0 < m * n
    ensures !BothTransposedWorks(m, k, n, Const(m * k, 0.0), OneHot(k * n, k), OneHot(m * n, 0), OneHot(m * k, m), Const(k * n, 0.0))
  {
    Larger(k, n);
    Larger(m, k);
    Larger(m, n);
    var a, b, g, u, v := Const(m * k, 0.0), OneHot(k * n, k), OneHot(m * n, 0), OneHot(m * k, m), Const(k * n, 0.0);
    NothingForward(m, k, n, a, b, g, u, v);
    SomethingBack(m, k, n, b, g, u);
    DotZero(GradRight(true, true, k, m, n, k, a, g), v);
  }

  lemma Larger(a: nat, b: nat)
    requires a > 0 && b > 1
    ensures a < a * b
  {
    MulMonotone(2, b, a);
  }

  /** With one row of A, a second column of A is never added up. */
  lemma MissedColumnOfA(m: nat, n: nat)
    requires m > 1 && n > 0
    ensures n < m * n
    ensures !BothTransposedWorks(m, 1, n, OneHot(m, 1), Const(n, 0.0), OneHot(m * n, n), Const(m, 0.0), OneHot(n, 0))
  {
    Larger(n, m);
    var a, b, g, u, v := OneHot(m, 1), Const(n, 0.0), OneHot(m * n, n), Const(m, 0.0), OneHot(n, 0);
    JvpAt(m, 1, n, a, b, u, v, 1, 0, n);
    OneTerm(View(u, 1, m), View(b, 1, 1), 1, 0);
    OneTerm(View(a, 1, m), View(v, 1, 1), 1, 0);
    PairWithUnit(m * n, n, MatMulJvp(true, true, m, 1, n, a, b, u, v));
    DotZero(GradLeft(true, true, 1, m, n, 1, b, g), u);
    var dr := GradRight(true, true, 1, m, n, 1, a, g);
    GridCell(n, 1, ProductOf(1, View(g, 1, n), View(a, m, 1)), 0, 0);
    OneTerm(View(g, 1, n), View(a, m, 1), 0, 0);
    PairWithUnit(n, 0, dr);
  }

  /** With two rows of A and a single row of B, the loops leave B. */
  lemma LeavesB(m: nat, k: nat, a: seq<real>, b: seq<real>, g: seq<real>)
    requires k > 1 && |b| == k
    ensures !BackwardInBounds(true, true, k, m, 1, k, a, b, g)
  {
    assert !InRange(b, k, 1, 1, 0);
  }

  /** Main result. With both operands transposed the CPU gradient is in bounds and adjoint for all
      values if and only if A is a single number. */
  lemma BothTransposedIffUnit(m: nat, k: nat, n: nat)
    requires m > 0 && k > 0 && n > 0
    ensures (forall a, b, g, u, v :: BothTransposedWorks(m, k, n, a, b, g, u, v)) <==> m == 1 && k == 1
  {
    if m == 1 && k == 1 {
      forall a, b, g, u, v ensures BothTransposedWorks(m, k, n, a, b, g, u, v) {
        UnitWorks(n, a, b, g, u, v);
      }
    } else if k == 1 {
      MissedColumnOfA(m, n);
    } else if n == 1 {
      var a, b, g := Const(m * k, 0.0), Const(k * n, 0.0), Const(m * n, 0.0);
      LeavesB(m, k, a, b, g);
      assert !BothTransposedWorks(m, k, n, a, b, g, a, b);
    } else {
      WrongEntryOfB(m, k, n);
    }
  }
}
