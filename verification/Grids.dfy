/** Row-major matrices in flat buffers: indexing, inner products as double sums, and the law of
    triple sums behind every matrix gradient. */
module Grids {
  import opened Sums

  function Least(a: nat, b: nat): (m: nat)
    ensures m <= a && m <= b
  {
    if a < b then a else b
  }

  /** Entry (i, j) of a row-major matrix of width `w`. */
  function Cell(s: seq<real>, w: int, i: int, j: int): real {
    At(s, i * w + j)
  }

  function Grid(m: nat, n: nat, f: (int, int) -> real): (s: seq<real>)
    ensures |s| == m * n
  {
    seq(m * n, p => if n == 0 then 0.0 else f(p / n, p % n))
  }

  lemma FlatIndex(m: nat, n: nat, i: nat, j: nat)
    requires i < m && j < n
    ensures 0 <= i * n + j < m * n
    ensures (i * n + j) / n == i && (i * n + j) % n == j
  {
    assert (i + 1) * n <= m * n by { MulMonotone(i + 1, m, n); }
    DivModUnique(i, j, n);
  }

  lemma MulMonotone(a: int, b: int, n: nat)
    requires a <= b
    ensures a * n <= b * n
  {
  }

  lemma DivModUnique(i: nat, j: nat, n: nat)
    requires j < n
    ensures (i * n + j) / n == i && (i * n + j) % n == j
  {
    var q, r := (i * n + j) / n, (i * n + j) % n;
    assert q * n + r == i * n + j;
    if q < i {
      MulMonotone(q + 1, i, n);
    } else if q > i {
      MulMonotone(i + 1, q, n);
    }
  }

  lemma FlatSplit(m: nat, n: nat, p: nat)
    requires p < m * n
    ensures n > 0 && p / n < m && p % n < n && p == (p / n) * n + p % n
  {
    if p / n >= m { MulMonotone(m, p / n, n); }
  }

  lemma GridCell(m: nat, n: nat, f: (int, int) -> real, i: nat, j: nat)
    requires i < m && j < n
    ensures Cell(Grid(m, n, f), n, i, j) == f(i, j)
  {
    FlatIndex(m, n, i, j);
  }

  lemma GridsEqual(m: nat, n: nat, s: seq<real>, f: (int, int) -> real)
    requires |s| == m * n
    requires forall i, j :: 0 <= i < m && 0 <= j < n ==> Cell(s, n, i, j) == f(i, j)
    ensures s == Grid(m, n, f)
  {
    forall p | 0 <= p < m * n ensures s[p] == Grid(m, n, f)[p] {
      FlatSplit(m, n, p);
      assert Cell(s, n, p / n, p % n) == f(p / n, p % n);
    }
  }

  function DoubleSum(m: nat, n: nat, f: (int, int) -> real): real {
    Sum(m, i => RowSum(n, f, i))
  }

  lemma {:induction false} RowSumExt(n: nat, f: (int, int) -> real, g: (int, int) -> real, i: int)
    requires forall j :: 0 <= j < n ==> f(i, j) == g(i, j)
    ensures RowSum(n, f, i) == RowSum(n, g, i)
  {
    SumExt(n, j => f(i, j), j => g(i, j));
  }

  lemma DoubleSumExt(m: nat, n: nat, f: (int, int) -> real, g: (int, int) -> real)
    requires forall i, j :: 0 <= i < m && 0 <= j < n ==> f(i, j) == g(i, j)
    ensures DoubleSum(m, n, f) == DoubleSum(m, n, g)
  {
    forall i | 0 <= i < m ensures RowSum(n, f, i) == RowSum(n, g, i) {
      RowSumExt(n, f, g, i);
    }
    SumExt(m, i => RowSum(n, f, i), i => RowSum(n, g, i));
  }

  lemma DoubleSumSwap(m: nat, n: nat, f: (int, int) -> real, g: (int, int) -> real)
    requires forall i, j :: 0 <= i < m && 0 <= j < n ==> f(i, j) == g(j, i)
    ensures DoubleSum(m, n, f) == DoubleSum(n, m, g)
  {
    SumSwap(m, n, f);
    forall j | 0 <= j < n ensures ColSum(m, f, j) == RowSum(m, g, j) {
      SumExt(m, i => f(i, j), i => g(j, i));
    }
    SumExt(n, j => ColSum(m, f, j), j => RowSum(m, g, j));
  }

  lemma {:induction false} FlatSum(m: nat, n: nat, f: int -> real, g: (int, int) -> real)
    requires forall i, j :: 0 <= i < m && 0 <= j < n ==> f(i * n + j) == g(i, j)
    ensures Sum(m * n, f) == DoubleSum(m, n, g)
  {
    if m > 0 {
      FlatSum(m - 1, n, f, g);
      assert m * n == (m - 1) * n + n;
      SumConcat((m - 1) * n, n, f, j => g(m - 1, j));
    }
  }

  // ---------------------------------------------------------------- inner products of matrices

  /** A matrix view of a buffer: entry (i, j) lies at i * a + j * b. */
  function View(s: seq<real>, a: int, b: int): (int, int) -> real {
    (i, j) => At(s, i * a + j * b)
  }

  function Times(F: (int, int) -> real, H: (int, int) -> real): (int, int) -> real {
    (i, j) => F(i, j) * H(i, j)
  }

  /** The inner product of two m-by-n matrices. */
  function Inner(m: nat, n: nat, F: (int, int) -> real, H: (int, int) -> real): real {
    DoubleSum(m, n, Times(F, H))
  }

  ghost predicate Agree(m: nat, n: nat, F: (int, int) -> real, H: (int, int) -> real) {
    forall i, j :: 0 <= i < m && 0 <= j < n ==> F(i, j) == H(i, j)
  }

  lemma InnerExt(m: nat, n: nat, F: (int, int) -> real, F': (int, int) -> real, H: (int, int) -> real, H': (int, int) -> real)
    requires Agree(m, n, F, F') && Agree(m, n, H, H')
    ensures Inner(m, n, F, H) == Inner(m, n, F', H')
  {
    DoubleSumExt(m, n, Times(F, H), Times(F', H'));
  }

  lemma InnerCommutes(m: nat, n: nat, F: (int, int) -> real, H: (int, int) -> real)
    ensures Inner(m, n, F, H) == Inner(m, n, H, F)
  {
    DoubleSumExt(m, n, Times(F, H), Times(H, F));
  }

  function Flip(F: (int, int) -> real): (int, int) -> real {
    (i, j) => F(j, i)
  }

  lemma InnerFlip(m: nat, n: nat, F: (int, int) -> real, H: (int, int) -> real)
    ensures Inner(m, n, F, H) == Inner(n, m, Flip(F), Flip(H))
  {
    DoubleSumSwap(m, n, Times(F, H), Times(Flip(F), Flip(H)));
  }

  /** The flat inner product of a grid and a row-major buffer. */
  lemma GridPairing(m: nat, n: nat, F: (int, int) -> real, u: seq<real>)
    ensures Dot(Grid(m, n, F), u) == Inner(m, n, F, View(u, n, 1))
  {
    var s := Grid(m, n, F);
    forall i, j | 0 <= i < m && 0 <= j < n ensures At(s, i * n + j) * At(u, i * n + j) == Times(F, View(u, n, 1))(i, j) {
      GridCell(m, n, F, i, j);
    }
    FlatSum(m, n, p => At(s, p) * At(u, p), Times(F, View(u, n, 1)));
  }

  /** (X Y)(i, j), with inner extent k. */
  function Product(k: nat, X: (int, int) -> real, Y: (int, int) -> real, i: int, j: int): real {
    Sum(k, l => X(i, l) * Y(l, j))
  }

  function ProductOf(k: nat, X: (int, int) -> real, Y: (int, int) -> real): (int, int) -> real {
    (i, j) => Product(k, X, Y, i, j)
  }

  lemma ProductExt(m: nat, n: nat, k: nat, X: (int, int) -> real, X': (int, int) -> real, Y: (int, int) -> real, Y': (int, int) -> real)
    requires Agree(m, k, X, X') && Agree(k, n, Y, Y')
    ensures Agree(m, n, ProductOf(k, X, Y), ProductOf(k, X', Y'))
  {
    forall i, j | 0 <= i < m && 0 <= j < n ensures Product(k, X, Y, i, j) == Product(k, X', Y', i, j) {
      SumExt(k, l => X(i, l) * Y(l, j), l => X'(i, l) * Y'(l, j));
    }
  }

  function Term(X: (int, int) -> real, Y: (int, int) -> real, G: (int, int) -> real, i: int, j: int, l: int): real {
    G(i, j) * (X(i, l) * Y(l, j))
  }

  lemma SwapInto(n: nat, k: nat, f: (int, int) -> real, u: int -> real, v: int -> real)
    requires forall j :: 0 <= j < n ==> RowSum(k, f, j) == u(j)
    requires forall l :: 0 <= l < k ==> ColSum(n, f, l) == v(l)
    ensures Sum(n, u) == Sum(k, v)
  {
    SumSwap(n, k, f);
    SumExt(n, j => RowSum(k, f, j), u);
    SumExt(k, l => ColSum(n, f, l), v);
  }

  lemma ScaledRow(k: nat, X: (int, int) -> real, Y: (int, int) -> real, G: (int, int) -> real, i: int, j: int)
    ensures Sum(k, l => Term(X, Y, G, i, j, l)) == G(i, j) * Product(k, X, Y, i, j)
  {
    SumScale(k, G(i, j), l => X(i, l) * Y(l, j), l => Term(X, Y, G, i, j, l));
  }

  lemma ScaledColumn(n: nat, X: (int, int) -> real, Y: (int, int) -> real, G: (int, int) -> real, i: int, l: int)
    ensures Sum(n, j => Term(X, Y, G, i, j, l)) == Product(n, G, Flip(Y), i, l) * X(i, l)
  {
    var u, v := (j: int) => G(i, j) * Flip(Y)(j, l), (j: int) => Term(X, Y, G, i, j, l);
    var x := X(i, l);
    forall j | 0 <= j < n ensures v(j) == x * u(j) {
      MulSwap(G(i, j), x, Y(l, j));
    }
    SumScale(n, x, u, v);
  }

  lemma MulSwap(a: real, b: real, c: real)
    ensures a * (b * c) == b * (a * c)
  {
  }

  /** One row of the identity below. */
  lemma RowAdjoint(k: nat, n: nat, X: (int, int) -> real, Y: (int, int) -> real, G: (int, int) -> real, i: int)
    ensures RowSum(n, Times(G, ProductOf(k, X, Y)), i) == RowSum(k, Times(ProductOf(n, G, Flip(Y)), X), i)
  {
    var f := (j: int, l: int) => Term(X, Y, G, i, j, l);
    var u, v := Times(G, ProductOf(k, X, Y)), Times(ProductOf(n, G, Flip(Y)), X);
    forall j | 0 <= j < n ensures RowSum(k, f, j) == u(i, j) {
      ScaledRow(k, X, Y, G, i, j);
      SumExt(k, l => f(j, l), l => Term(X, Y, G, i, j, l));
    }
    forall l | 0 <= l < k ensures ColSum(n, f, l) == v(i, l) {
      ScaledColumn(n, X, Y, G, i, l);
      SumExt(n, j => f(j, l), j => Term(X, Y, G, i, j, l));
    }
    SwapInto(n, k, f, j => u(i, j), l => v(i, l));
  }

  /** Pairing G with a product X·Y is pairing G·Yᵀ with X. */
  lemma ProductAdjointLeft(m: nat, k: nat, n: nat, X: (int, int) -> real, Y: (int, int) -> real, G: (int, int) -> real)
    ensures Inner(m, n, G, ProductOf(k, X, Y)) == Inner(m, k, ProductOf(n, G, Flip(Y)), X)
  {
    var a, b := Times(G, ProductOf(k, X, Y)), Times(ProductOf(n, G, Flip(Y)), X);
    forall i | 0 <= i < m ensures RowSum(n, a, i) == RowSum(k, b, i) {
      RowAdjoint(k, n, X, Y, G, i);
    }
    SumExt(m, i => RowSum(n, a, i), i => RowSum(k, b, i));
  }

  lemma Commutes(a: real, b: real)
    ensures a * b == b * a
  {
  }

  lemma FlippedEntry(k: nat, X: (int, int) -> real, Y: (int, int) -> real, i: int, j: int)
    ensures Product(k, X, Y, i, j) == Product(k, Flip(Y), Flip(X), j, i)
  {
    var f, g := (l: int) => X(i, l) * Y(l, j), (l: int) => Flip(Y)(j, l) * Flip(X)(l, i);
    forall l | 0 <= l < k ensures f(l) == g(l) {
      Commutes(X(i, l), Y(l, j));
      assert Flip(Y)(j, l) == Y(l, j) && Flip(X)(l, i) == X(i, l);
    }
    SumExt(k, f, g);
  }

  lemma FlipProduct(m: nat, n: nat, k: nat, X: (int, int) -> real, Y: (int, int) -> real)
    ensures Agree(n, m, Flip(ProductOf(k, X, Y)), ProductOf(k, Flip(Y), Flip(X)))
  {
    forall i, j | 0 <= i < n && 0 <= j < m ensures Product(k, X, Y, j, i) == Product(k, Flip(Y), Flip(X), i, j) {
      FlippedEntry(k, X, Y, j, i);
    }
  }

  /** Pairing G with a product X·Y is pairing Xᵀ·G with Y. */
  lemma ProductAdjointRight(m: nat, k: nat, n: nat, X: (int, int) -> real, Y: (int, int) -> real, G: (int, int) -> real)
    ensures Inner(m, n, G, ProductOf(k, X, Y)) == Inner(k, n, ProductOf(m, Flip(X), G), Y)
  {
    InnerFlip(m, n, G, ProductOf(k, X, Y));
    FlipProduct(m, n, k, X, Y);
    InnerExt(n, m, Flip(G), Flip(G), Flip(ProductOf(k, X, Y)), ProductOf(k, Flip(Y), Flip(X)));
    ProductAdjointLeft(n, k, m, Flip(Y), Flip(X), Flip(G));
    InnerFlip(k, n, ProductOf(m, Flip(X), G), Y);
    FlipProduct(k, n, m, Flip(X), G);
    ProductExt(n, k, m, Flip(G), Flip(G), Flip(Flip(X)), X);
    InnerExt(n, k, Flip(ProductOf(m, Flip(X), G)), ProductOf(m, Flip(G), Flip(Flip(X))), Flip(Y), Flip(Y));
  }
}
