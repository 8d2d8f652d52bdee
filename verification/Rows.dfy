/** The three loop nests of the matrix kernels, over strided views of flat buffers. Whatever the
    order of the loops, and whether the innermost one sums or accumulates, each fills a row-major
    buffer with the same inner products. */
module Rows {
  import opened Sums
  import opened Grids

  // ---------------------------------------------------------------- views

  predicate InRange(s: seq<real>, a: nat, b: nat, i: nat, j: nat) {
    i * a + j * b < |s|
  }

  ghost predicate Fits(s: seq<real>, m: nat, a: nat, n: nat, b: nat) {
    forall i, j :: 0 <= i < m && 0 <= j < n ==> InRange(s, a, b, i, j)
  }

  /** An m-by-n row-major buffer fits its own view and the transposed one. */
  lemma RowMajorFits(s: seq<real>, m: nat, n: nat)
    requires |s| == m * n
    ensures Fits(s, m, n, n, 1) && Fits(s, n, 1, m, n)
  {
    forall i, j | 0 <= i < m && 0 <= j < n ensures InRange(s, n, 1, i, j) && InRange(s, 1, n, j, i) {
      FlatIndex(m, n, i, j);
    }
  }

  // ---------------------------------------------------------------- single rows

  /** The first `j` cells of row `i` hold `f`. */
  ghost predicate RowUpTo(s: seq<real>, n: nat, i: int, f: int -> real, j: int) {
    forall q {:trigger f(q)} :: 0 <= q < j ==> Cell(s, n, i, q) == f(q)
  }

  ghost predicate RowIs(s: seq<real>, n: nat, i: int, f: int -> real) {
    RowUpTo(s, n, i, f, n)
  }

  /** The two buffers agree outside row `p`. */
  ghost predicate OnlyRow(s: seq<real>, t: seq<real>, n: nat, p: int) {
    |s| == |t| && forall r :: 0 <= r < |s| && !(p * n <= r < p * n + n) ==> s[r] == t[r]
  }

  lemma RowsApart(n: nat, i: nat, p: nat, q: nat)
    requires i != p && q < n
    ensures !(p * n <= i * n + q < p * n + n)
  {
    if i < p { MulMonotone(i + 1, p, n); } else { MulMonotone(p + 1, i, n); }
  }

  lemma RowSurvives(s: seq<real>, t: seq<real>, n: nat, p: nat, i: nat, f: int -> real)
    requires OnlyRow(s, t, n, p) && i != p && RowIs(s, n, i, f)
    ensures RowIs(t, n, i, f)
  {
    forall q | 0 <= q < n ensures Cell(t, n, i, q) == f(q) {
      RowsApart(n, i, p, q);
    }
  }

  /** Row `p` gains `c` times row `l` of `Y`; nothing else changes. */
  ghost predicate AddedRow(s: seq<real>, t: seq<real>, n: nat, p: int, c: real, Y: (int, int) -> real, l: int) {
    && OnlyRow(s, t, n, p)
    && forall q {:trigger Y(l, q)} :: 0 <= q < n ==> Cell(t, n, p, q) == Cell(s, n, p, q) + c * Y(l, q)
  }

  lemma SameScaled(c: real, x: real, y: real)
    requires x == y
    ensures c * x == c * y
  {
  }

  /** dst[p * n + q] += c * src[l * a + q * b] for q < n. */
  lemma CellInRange(s: seq<real>, a: nat, b: nat, i: nat, j: nat, off: nat)
    requires InRange(s, a, b, i, j) && off == i * a
    ensures off + j * b < |s| && View(s, a, b)(i, j) == s[off + j * b]
  {
  }

  method Axpy(dst: array<real>, n: nat, p: nat, c: real, src: seq<real>, a: nat, b: nat, l: nat)
    requires p * n + n <= dst.Length
    requires forall q :: 0 <= q < n ==> InRange(src, a, b, l, q)
    modifies dst
    ensures AddedRow(old(dst[..]), dst[..], n, p, c, View(src, a, b), l)
  {
    var base, off := p * n, l * a;
    ghost var Y, was := View(src, a, b), dst[..];
    for q := 0 to n
      invariant forall r :: 0 <= r < dst.Length ==>
        dst[r] == if base <= r < base + q then was[r] + c * Y(l, r - base) else was[r]
    {
      CellInRange(src, a, b, l, q, off);
      var y := src[off + q * b];
      SameScaled(c, y, Y(l, q));
      dst[base + q] := dst[base + q] + c * y;
    }
    RowAdded(was, dst[..], n, p, base, c, Y, l);
  }

  lemma RowAdded(s: seq<real>, t: seq<real>, n: nat, p: nat, base: nat, c: real, Y: (int, int) -> real, l: nat)
    requires |s| == |t| && base == p * n && base + n <= |s|
    requires forall r :: 0 <= r < |t| ==> t[r] == if base <= r < base + n then s[r] + c * Y(l, r - base) else s[r]
    ensures AddedRow(s, t, n, p, c, Y, l)
  {
  }

  // ---------------------------------------------------------------- partial products

  function ProductRow(k: nat, X: (int, int) -> real, Y: (int, int) -> real, i: int): int -> real {
    q => Product(k, X, Y, i, q)
  }

  /** Row `i` of an initial buffer plus the first `k` terms of its inner products. */
  function SumRow(init: seq<real>, n: nat, k: nat, X: (int, int) -> real, Y: (int, int) -> real, i: int): int -> real {
    q => Cell(init, n, i, q) + Product(k, X, Y, i, q)
  }

  /** One more term of every inner product of row `p`. */
  lemma SumRowGrows(init: seq<real>, s: seq<real>, t: seq<real>, n: nat, p: nat, l: nat, X: (int, int) -> real, Y: (int, int) -> real)
    requires RowIs(s, n, p, SumRow(init, n, l, X, Y, p)) && AddedRow(s, t, n, p, X(p, l), Y, l)
    ensures RowIs(t, n, p, SumRow(init, n, l + 1, X, Y, p))
  {
    forall q | 0 <= q < n ensures Cell(t, n, p, q) == SumRow(init, n, l + 1, X, Y, p)(q) {
      assert Cell(s, n, p, q) == SumRow(init, n, l, X, Y, p)(q);
      assert Cell(t, n, p, q) == Cell(s, n, p, q) + X(p, l) * Y(l, q);
      assert Product(l + 1, X, Y, p, q) == Product(l, X, Y, p, q) + X(p, l) * Y(l, q);
    }
  }

  function Zeros(n: nat): (s: seq<real>)
    ensures |s| == n
  {
    seq(n, _ => 0.0)
  }

  /** Row `r` holds the initial row plus the first `terms(r)` terms of its inner products. */
  ghost predicate PartialProduct(init: seq<real>, s: seq<real>, m: nat, n: nat, X: (int, int) -> real, Y: (int, int) -> real, terms: int -> nat) {
    && |init| == |s| == m * n
    && forall r {:trigger terms(r)} :: 0 <= r < m ==> RowIs(s, n, r, SumRow(init, n, terms(r), X, Y, r))
  }

  lemma PartialStarts(init: seq<real>, m: nat, n: nat, X: (int, int) -> real, Y: (int, int) -> real, terms: int -> nat)
    requires |init| == m * n && forall r :: 0 <= r < m ==> terms(r) == 0
    ensures PartialProduct(init, init, m, n, X, Y, terms)
  {
    forall r | 0 <= r < m ensures RowIs(init, n, r, SumRow(init, n, terms(r), X, Y, r)) {
      assert terms(r) == 0;
    }
  }

  lemma PartialAdvances(init: seq<real>, s: seq<real>, t: seq<real>, m: nat, n: nat, X: (int, int) -> real, Y: (int, int) -> real,
                        i: nat, l: nat, terms: int -> nat, terms': int -> nat)
    requires i < m && PartialProduct(init, s, m, n, X, Y, terms) && AddedRow(s, t, n, i, X(i, l), Y, l)
    requires terms(i) == l && forall r :: 0 <= r < m ==> terms'(r) == if r == i then l + 1 else terms(r)
    ensures PartialProduct(init, t, m, n, X, Y, terms')
  {
    SumRowGrows(init, s, t, n, i, l, X, Y);
    forall r | 0 <= r < m ensures RowIs(t, n, r, SumRow(init, n, terms'(r), X, Y, r)) {
      assert terms'(r) == if r == i then l + 1 else terms(r);
      if r != i { RowSurvives(s, t, n, i, r, SumRow(init, n, terms(r), X, Y, r)); }
    }
  }

  lemma PartialSame(init: seq<real>, s: seq<real>, m: nat, n: nat, X: (int, int) -> real, Y: (int, int) -> real, terms: int -> nat, terms': int -> nat)
    requires PartialProduct(init, s, m, n, X, Y, terms) && forall r :: 0 <= r < m ==> terms'(r) == terms(r)
    ensures PartialProduct(init, s, m, n, X, Y, terms')
  {
    forall r | 0 <= r < m ensures RowIs(s, n, r, SumRow(init, n, terms'(r), X, Y, r)) {
      assert terms'(r) == terms(r);
    }
  }

  lemma PartialDone(init: seq<real>, s: seq<real>, m: nat, n: nat, k: nat, X: (int, int) -> real, Y: (int, int) -> real, terms: int -> nat)
    requires PartialProduct(init, s, m, n, X, Y, terms) && forall r :: 0 <= r < m ==> terms(r) == k
    ensures s == AddSeq(init, Grid(m, n, ProductOf(k, X, Y)))
  {
    var d := Grid(m, n, ProductOf(k, X, Y));
    forall p | 0 <= p < m * n ensures s[p] == init[p] + d[p] {
      FlatSplit(m, n, p);
      var i, j := p / n, p % n;
      assert terms(i) == k;
      assert Cell(s, n, i, j) == SumRow(init, n, k, X, Y, i)(j);
    }
    assert s == AddSeq(init, d);
  }

  lemma AddZeros(s: seq<real>)
    ensures AddSeq(Zeros(|s|), s) == s
  {
  }

  lemma AddedNothing(s: seq<real>, n: nat, p: int, Y: (int, int) -> real, l: int)
    ensures AddedRow(s, s, n, p, 0.0, Y, l)
  {
  }

  /** Terms held when the nest (i, l, j) is at row `i`, term `l`. */
  function RowTerms(k: nat, i: int, l: nat): int -> nat {
    r => if r < i then k else if r == i then l else 0
  }

  /** Terms held when the nest (l, i, j) is at term `l`, row `i`. */
  function OuterTerms(l: nat, i: int): int -> nat {
    r => if r < i then l + 1 else l
  }

  // ---------------------------------------------------------------- the loop nests

  /** One row of the nest: a scaled row of `y` for every term. */
  method RowOfTerms(ghost init: seq<real>, out: array<real>, m: nat, n: nat, k: nat, x: seq<real>, xi: nat, xl: nat, y: seq<real>, yl: nat, yj: nat, i: nat, skipZero: bool)
    requires i < m && |init| == out.Length == m * n && Fits(x, m, xi, k, xl) && Fits(y, k, yl, n, yj)
    requires PartialProduct(init, out[..], m, n, View(x, xi, xl), View(y, yl, yj), RowTerms(k, i, 0))
    modifies out
    ensures PartialProduct(init, out[..], m, n, View(x, xi, xl), View(y, yl, yj), RowTerms(k, i, k))
  {
    MulMonotone(i + 1, m, n);
    for l := 0 to k
      invariant PartialProduct(init, out[..], m, n, View(x, xi, xl), View(y, yl, yj), RowTerms(k, i, l))
    {
      OneTerm(init, out, m, n, k, x, xi, xl, y, yl, yj, i, l, skipZero);
    }
  }

  method OneTerm(ghost init: seq<real>, out: array<real>, m: nat, n: nat, k: nat, x: seq<real>, xi: nat, xl: nat, y: seq<real>, yl: nat, yj: nat, i: nat, l: nat, skipZero: bool)
    requires i < m && l < k && |init| == out.Length == m * n && i * n + n <= m * n && Fits(x, m, xi, k, xl) && Fits(y, k, yl, n, yj)
    requires PartialProduct(init, out[..], m, n, View(x, xi, xl), View(y, yl, yj), RowTerms(k, i, l))
    modifies out
    ensures PartialProduct(init, out[..], m, n, View(x, xi, xl), View(y, yl, yj), RowTerms(k, i, l + 1))
  {
    ghost var X, Y, before := View(x, xi, xl), View(y, yl, yj), out[..];
    assert InRange(x, xi, xl, i, l) && X(i, l) == At(x, i * xi + l * xl);
    var c := x[i * xi + l * xl];
    if !skipZero || c != 0.0 {
      Axpy(out, n, i, c, y, yl, yj, l);
    } else {
      AddedNothing(before, n, i, Y, l);
    }
    PartialAdvances(init, before, out[..], m, n, X, Y, i, l, RowTerms(k, i, l), RowTerms(k, i, l + 1));
  }

  /** Nest (i, l, j): every row accumulates scaled rows of `y`. A zero coefficient may skip the
      innermost loop. */
  method RowLoopFrom(init: seq<real>, m: nat, n: nat, k: nat, x: seq<real>, xi: nat, xl: nat, y: seq<real>, yl: nat, yj: nat, skipZero: bool) returns (out: array<real>)
    requires |init| == m * n && Fits(x, m, xi, k, xl) && Fits(y, k, yl, n, yj)
    ensures fresh(out) && out[..] == AddSeq(init, Grid(m, n, ProductOf(k, View(x, xi, xl), View(y, yl, yj))))
  {
    out := new real[m * n](p requires 0 <= p < |init| => init[p]);
    ghost var X, Y := View(x, xi, xl), View(y, yl, yj);
    assert out[..] == init;
    PartialStarts(init, m, n, X, Y, RowTerms(k, 0, 0));
    for i := 0 to m
      invariant PartialProduct(init, out[..], m, n, X, Y, RowTerms(k, i, 0))
    {
      RowOfTerms(init, out, m, n, k, x, xi, xl, y, yl, yj, i, skipZero);
      PartialSame(init, out[..], m, n, X, Y, RowTerms(k, i, k), RowTerms(k, i + 1, 0));
    }
    PartialDone(init, out[..], m, n, k, X, Y, RowTerms(k, m, 0));
  }

  method RowLoop(m: nat, n: nat, k: nat, x: seq<real>, xi: nat, xl: nat, y: seq<real>, yl: nat, yj: nat, skipZero: bool) returns (out: array<real>)
    requires Fits(x, m, xi, k, xl) && Fits(y, k, yl, n, yj)
    ensures fresh(out) && out[..] == Grid(m, n, ProductOf(k, View(x, xi, xl), View(y, yl, yj)))
  {
    out := RowLoopFrom(Zeros(m * n), m, n, k, x, xi, xl, y, yl, yj, skipZero);
    AddZeros(Grid(m, n, ProductOf(k, View(x, xi, xl), View(y, yl, yj))));
  }

  /** One term of the outer nest: a scaled row of `y` into every row. */
  method OuterTerm(ghost init: seq<real>, out: array<real>, m: nat, n: nat, k: nat, x: seq<real>, xi: nat, xl: nat, y: seq<real>, yl: nat, yj: nat, l: nat)
    requires l < k && |init| == out.Length == m * n && Fits(x, m, xi, k, xl) && Fits(y, k, yl, n, yj)
    requires PartialProduct(init, out[..], m, n, View(x, xi, xl), View(y, yl, yj), OuterTerms(l, 0))
    modifies out
    ensures PartialProduct(init, out[..], m, n, View(x, xi, xl), View(y, yl, yj), OuterTerms(l, m))
  {
    ghost var X, Y := View(x, xi, xl), View(y, yl, yj);
    for i := 0 to m
      invariant PartialProduct(init, out[..], m, n, X, Y, OuterTerms(l, i))
    {
      MulMonotone(i + 1, m, n);
      assert InRange(x, xi, xl, i, l) && X(i, l) == At(x, i * xi + l * xl);
      var c := x[i * xi + l * xl];
      ghost var before := out[..];
      Axpy(out, n, i, c, y, yl, yj, l);
      PartialAdvances(init, before, out[..], m, n, X, Y, i, l, OuterTerms(l, i), OuterTerms(l, i + 1));
    }
  }

  /** Nest (l, i, j): every term of the sum is an outer product added to the whole buffer. */
  method OuterLoop(m: nat, n: nat, k: nat, x: seq<real>, xi: nat, xl: nat, y: seq<real>, yl: nat, yj: nat) returns (out: array<real>)
    requires Fits(x, m, xi, k, xl) && Fits(y, k, yl, n, yj)
    ensures fresh(out) && out[..] == Grid(m, n, ProductOf(k, View(x, xi, xl), View(y, yl, yj)))
  {
    out := new real[m * n](_ => 0.0);
    ghost var X, Y, init := View(x, xi, xl), View(y, yl, yj), Zeros(m * n);
    assert out[..] == init;
    PartialStarts(init, m, n, X, Y, OuterTerms(0, 0));
    for l := 0 to k
      invariant PartialProduct(init, out[..], m, n, X, Y, OuterTerms(l, 0))
    {
      OuterTerm(init, out, m, n, k, x, xi, xl, y, yl, yj, l);
      PartialSame(init, out[..], m, n, X, Y, OuterTerms(l, m), OuterTerms(l + 1, 0));
    }
    PartialDone(init, out[..], m, n, k, X, Y, OuterTerms(k, 0));
    AddZeros(Grid(m, n, ProductOf(k, X, Y)));
  }

  /** Rows before `i` are complete. */
  ghost predicate RowsBefore(s: seq<real>, n: nat, k: nat, X: (int, int) -> real, Y: (int, int) -> real, i: int) {
    forall r {:trigger ProductRow(k, X, Y, r)} :: 0 <= r < i ==> RowIs(s, n, r, ProductRow(k, X, Y, r))
  }

  /** Writing cell (p, j) extends the row's prefix by one and leaves earlier rows alone. */
  lemma SetCell(s: seq<real>, t: seq<real>, m: nat, n: nat, k: nat, X: (int, int) -> real, Y: (int, int) -> real, p: nat, j: nat)
    requires p < m && j < n && |s| == m * n
    requires RowsBefore(s, n, k, X, Y, p) && RowUpTo(s, n, p, ProductRow(k, X, Y, p), j)
    ensures p * n + j < |s|
    ensures t == s[p * n + j := Product(k, X, Y, p, j)] ==>
              RowsBefore(t, n, k, X, Y, p) && RowUpTo(t, n, p, ProductRow(k, X, Y, p), j + 1)
  {
    FlatIndex(m, n, p, j);
    if t == s[p * n + j := Product(k, X, Y, p, j)] {
      forall r | 0 <= r < p ensures RowIs(t, n, r, ProductRow(k, X, Y, r)) {
        RowSurvives(s, t, n, p, r, ProductRow(k, X, Y, r));
      }
    }
  }

  method InnerSum(i: nat, j: nat, k: nat, x: seq<real>, xi: nat, xl: nat, y: seq<real>, yl: nat, yj: nat) returns (sum: real)
    requires forall l :: 0 <= l < k ==> InRange(x, xi, xl, i, l) && InRange(y, yl, yj, l, j)
    ensures sum == Product(k, View(x, xi, xl), View(y, yl, yj), i, j)
  {
    sum := 0.0;
    for l := 0 to k
      invariant sum == Product(l, View(x, xi, xl), View(y, yl, yj), i, j)
    {
      assert InRange(x, xi, xl, i, l) && InRange(y, yl, yj, l, j);
      sum := sum + x[i * xi + l * xl] * y[l * yl + j * yj];
    }
  }

  /** Nest (i, j, l): every cell is one running sum, stored when complete. */
  method SumLoop(m: nat, n: nat, k: nat, x: seq<real>, xi: nat, xl: nat, y: seq<real>, yl: nat, yj: nat) returns (out: array<real>)
    requires Fits(x, m, xi, k, xl) && Fits(y, k, yl, n, yj)
    ensures fresh(out) && out[..] == Grid(m, n, ProductOf(k, View(x, xi, xl), View(y, yl, yj)))
  {
    out := new real[m * n](_ => 0.0);
    ghost var X, Y := View(x, xi, xl), View(y, yl, yj);
    for i := 0 to m
      invariant RowsBefore(out[..], n, k, X, Y, i)
    {
      for j := 0 to n
        invariant RowsBefore(out[..], n, k, X, Y, i) && RowUpTo(out[..], n, i, ProductRow(k, X, Y, i), j)
      {
        var sum := InnerSum(i, j, k, x, xi, xl, y, yl, yj);
        ghost var before := out[..];
        FlatIndex(m, n, i, j);
        out[i * n + j] := sum;
        SetCell(before, out[..], m, n, k, X, Y, i, j);
      }
    }
    forall i, j | 0 <= i < m && 0 <= j < n ensures Cell(out[..], n, i, j) == ProductOf(k, X, Y)(i, j) {
      assert RowIs(out[..], n, i, ProductRow(k, X, Y, i));
      assert ProductRow(k, X, Y, i)(j) == Product(k, X, Y, i, j);
    }
    GridsEqual(m, n, out[..], ProductOf(k, X, Y));
  }
}
