/** Modified Gram-Schmidt over the columns of a row-major buffer, in place. */
module GramSchmidt {
  import opened Sums
  import opened GaussJordan

  const EPS: real := 0.000000000001

  // ---------------------------------------------------------------- on columns

  /** `v` with its component along `q` removed. */
  function Projected(v: seq<real>, q: seq<real>): (z: seq<real>)
    ensures |z| == |v|
  {
    Minus(v, Dot(q, v), q)
  }

  /** `v` orthogonalised against the first `j` columns in turn. */
  function Residual(cols: seq<seq<real>>, v: seq<real>, j: nat): (z: seq<real>)
    requires j <= |cols|
    ensures |z| == |v|
  {
    if j == 0 then v else Projected(Residual(cols, v, j - 1), cols[j - 1])
  }

  function Norm(root: real -> real, v: seq<real>): (n: real)
    ensures n >= EPS
  {
    var n := root(Dot(v, v));
    if n > EPS then n else EPS
  }

  function Divided(v: seq<real>, n: real): (z: seq<real>)
    requires n != 0.0
    ensures |z| == |v|
  {
    seq(|v|, i => At(v, i) / n)
  }

  /** The columns after the first `n` have been processed. */
  function Orthogonalised(root: real -> real, cols: seq<seq<real>>, n: nat): (z: seq<seq<real>>)
    requires n <= |cols|
    ensures |z| == |cols|
    ensures forall k :: n <= k < |cols| ==> z[k] == cols[k]
  {
    if n == 0 then cols
    else
      var p := Orthogonalised(root, cols, n - 1);
      var v := Residual(p, p[n - 1], n - 1);
      p[n - 1 := Divided(v, Norm(root, v))]
  }

  ghost predicate SameHeight(cols: seq<seq<real>>, rows: nat) {
    forall k :: 0 <= k < |cols| ==> |cols[k]| == rows
  }

  /** The first `n` columns are orthonormal. */
  ghost predicate Orthonormal(cols: seq<seq<real>>, n: nat)
    requires n <= |cols|
  {
    forall i, j :: 0 <= i < n && 0 <= j < n ==> Dot(cols[i], cols[j]) == Unit(i, j)
  }

  /** <q, v - f w> == <q, v> - f <q, w>. */
  lemma DotMinus(q: seq<real>, v: seq<real>, f: real, w: seq<real>)
    requires |q| == |v| == |w|
    ensures Dot(q, Minus(v, f, w)) == Dot(q, v) - f * Dot(q, w)
  {
    MinusIsSum(v, f, w);
    var g := 0.0 - f;
    DotCommutes(q, AddSeq(v, ScaleSeq(g, w)));
    DotAdd(v, ScaleSeq(g, w), q);
    DotScale(g, w, q);
    DotCommutes(v, q);
    DotCommutes(w, q);
    NegatedFactor(Dot(q, v), f, Dot(q, w));
  }

  lemma Removed(d: real, u: real)
    ensures u == 1.0 ==> d - d * u == 0.0
    ensures u == 0.0 ==> d * u == 0.0
  {
  }

  /** The residual is orthogonal to every column already used. */
  lemma {:induction false} ResidualOrthogonal(cols: seq<seq<real>>, v: seq<real>, rows: nat, j: nat, i: nat)
    requires SameHeight(cols, rows) && |v| == rows && i < j <= |cols| && Orthonormal(cols, j)
    ensures Dot(cols[i], Residual(cols, v, j)) == 0.0
  {
    var p, q := Residual(cols, v, j - 1), cols[j - 1];
    DotMinus(cols[i], p, Dot(q, p), q);
    assert Dot(cols[i], q) == Unit(i, j - 1);
    Removed(Dot(q, p), Dot(cols[i], q));
    if i < j - 1 { ResidualOrthogonal(cols, v, rows, j - 1, i); }
  }

  lemma DividedIsScaled(v: seq<real>, n: real)
    requires n != 0.0
    ensures Divided(v, n) == ScaleSeq(1.0 / n, v)
  {
    forall i | 0 <= i < |v| ensures Divided(v, n)[i] == ScaleSeq(1.0 / n, v)[i] {
      DivideIsScale(v[i], n);
    }
  }

  lemma DivideIsScale(x: real, n: real)
    requires n != 0.0
    ensures x / n == (1.0 / n) * x
  {
  }

  lemma DotDivided(q: seq<real>, v: seq<real>, n: real)
    requires n != 0.0 && |q| == |v|
    ensures Dot(q, Divided(v, n)) == Dot(q, v) / n
  {
    DividedIsScaled(v, n);
    DotCommutes(q, Divided(v, n));
    DotScale(1.0 / n, v, q);
    DotCommutes(v, q);
    DivideIsScale(Dot(q, v), n);
  }

  lemma DividedNorm(v: seq<real>, n: real)
    requires n != 0.0
    ensures Dot(Divided(v, n), Divided(v, n)) == Dot(v, v) / n / n
  {
    var z := Divided(v, n);
    DotDivided(z, v, n);
    DotCommutes(z, v);
    DotDivided(v, v, n);
  }

  lemma UnitQuotient(s: real, n: real)
    requires n > 0.0
    ensures s / n / n == 1.0 <==> s == n * n
    ensures s == 0.0 ==> s / n == 0.0
  {
    var x := s / n;
    assert x * n == s;
    var y := x / n;
    assert y * n == x;
    if y == 1.0 { assert x == n; }
    if s == n * n { assert x * n == n * n; Cancelled(x, n); assert y * n == n; Cancelled1(y, n); }
  }

  lemma Cancelled(x: real, n: real)
    requires n > 0.0 && x * n == n * n
    ensures x == n
  {
    assert (x - n) * n == 0.0;
  }

  lemma Cancelled1(y: real, n: real)
    requires n > 0.0 && y * n == n
    ensures y == 1.0
  {
    assert (y - 1.0) * n == 0.0;
  }

  lemma {:induction false} DotSelf(n: nat, f: int -> real)
    requires forall i :: 0 <= i < n ==> f(i) >= 0.0
    ensures Sum(n, f) >= 0.0
  {
    if n > 0 { DotSelf(n - 1, f); }
  }

  lemma NormSquare(v: seq<real>)
    ensures Dot(v, v) >= 0.0
  {
    var f := (i: int) => At(v, i) * At(v, i);
    forall i | 0 <= i < |v| ensures f(i) >= 0.0 { SquareNotNegative(At(v, i)); }
    DotSelf(|v|, f);
  }

  /** A normalised residual has length 1 exactly when its norm was not raised to eps. */
  lemma NormalisedLength(root: real -> real, v: seq<real>)
    requires IsRoot(root)
    ensures var z := Divided(v, Norm(root, v)); Dot(z, z) == 1.0 <==> root(Dot(v, v)) >= EPS
  {
    NormSquare(v);
    var s, n := Dot(v, v), Norm(root, v);
    DividedNorm(v, n);
    UnitQuotient(s, n);
    if root(s) < EPS {
      SmallerSquare(root(s), EPS);
    }
  }

  lemma SmallerSquare(x: real, y: real)
    requires 0.0 <= x < y
    ensures x * x < y * y
  {
    PositiveProduct(y - x, y + x);
    assert (y - x) * (y + x) == y * y - x * x;
  }

  lemma PositiveProduct(a: real, b: real)
    requires a > 0.0 && b > 0.0
    ensures a * b > 0.0
  {
  }

  // ---------------------------------------------------------------- the whole run

  /** The norm met at column `k`, before it is raised to eps. */
  function NormMet(root: real -> real, cols: seq<seq<real>>, k: nat): real
    requires k < |cols|
  {
    var p := Orthogonalised(root, cols, k);
    var v := Residual(p, p[k], k);
    root(Dot(v, v))
  }

  ghost predicate NoSmallNorm(root: real -> real, cols: seq<seq<real>>, n: nat)
    requires n <= |cols|
  {
    forall k :: 0 <= k < n ==> NormMet(root, cols, k) >= EPS
  }

  lemma {:induction false} HeightKept(root: real -> real, cols: seq<seq<real>>, rows: nat, n: nat)
    requires n <= |cols| && SameHeight(cols, rows)
    ensures SameHeight(Orthogonalised(root, cols, n), rows)
  {
    if n > 0 { HeightKept(root, cols, rows, n - 1); }
  }

  /** Columns already processed are never touched again. */
  lemma {:induction false} ColumnsStay(root: real -> real, cols: seq<seq<real>>, k: nat, n: nat)
    requires k < n <= |cols|
    ensures Orthogonalised(root, cols, n)[k] == Orthogonalised(root, cols, k + 1)[k]
  {
    if k + 1 < n { ColumnsStay(root, cols, k, n - 1); }
  }

  /** The normalised residual is orthogonal to an earlier column. */
  lemma QuotientOrthogonal(root: real -> real, p: seq<seq<real>>, rows: nat, k: nat, i: nat)
    requires IsRoot(root) && i < k < |p| && SameHeight(p, rows) && Orthonormal(p, k)
    ensures var v := Residual(p, p[k], k);
            var q := Divided(v, Norm(root, v));
            Dot(p[i], q) == 0.0 && Dot(q, p[i]) == 0.0
  {
    var v := Residual(p, p[k], k);
    ResidualOrthogonal(p, p[k], rows, k, i);
    DotDivided(p[i], v, Norm(root, v));
    UnitQuotient(Dot(p[i], v), Norm(root, v));
    DotCommutes(p[i], Divided(v, Norm(root, v)));
  }

  lemma {:induction false} OrthonormalSoFar(root: real -> real, cols: seq<seq<real>>, rows: nat, n: nat)
    requires IsRoot(root) && n <= |cols| && SameHeight(cols, rows) && NoSmallNorm(root, cols, n)
    ensures Orthonormal(Orthogonalised(root, cols, n), n)
  {
    if n > 0 {
      OrthonormalSoFar(root, cols, rows, n - 1);
      HeightKept(root, cols, rows, n - 1);
      assert NormMet(root, cols, n - 1) >= EPS;
      ColumnJoins(root, Orthogonalised(root, cols, n - 1), rows, n);
    }
  }

  /** A column whose residual is not too short joins the orthonormal ones. */
  lemma ColumnJoins(root: real -> real, p: seq<seq<real>>, rows: nat, n: nat)
    requires IsRoot(root) && 0 < n <= |p| && SameHeight(p, rows) && Orthonormal(p, n - 1)
    requires var v := Residual(p, p[n - 1], n - 1); root(Dot(v, v)) >= EPS
    ensures var v := Residual(p, p[n - 1], n - 1); Orthonormal(p[n - 1 := Divided(v, Norm(root, v))], n)
  {
    var v := Residual(p, p[n - 1], n - 1);
    var q := Divided(v, Norm(root, v));
    NormalisedLength(root, v);
    forall i | 0 <= i < n - 1 ensures Dot(p[i], q) == 0.0 && Dot(q, p[i]) == 0.0 {
      QuotientOrthogonal(root, p, rows, n - 1, i);
    }
    AppendOrthonormal(p, q, n);
  }

  lemma AppendOrthonormal(p: seq<seq<real>>, q: seq<real>, n: nat)
    requires 0 < n <= |p| && Orthonormal(p, n - 1) && Dot(q, q) == 1.0
    requires forall i :: 0 <= i < n - 1 ==> Dot(p[i], q) == 0.0 && Dot(q, p[i]) == 0.0
    ensures Orthonormal(p[n - 1 := q], n)
  {
  }

  /** Main theorem: the columns end up orthonormal exactly when no column's residual norm falls
      below eps. */
  lemma OrthonormalIffNoSmallNorm(root: real -> real, cols: seq<seq<real>>, rows: nat)
    requires IsRoot(root) && SameHeight(cols, rows)
    ensures Orthonormal(Orthogonalised(root, cols, |cols|), |cols|) <==> NoSmallNorm(root, cols, |cols|)
  {
    if NoSmallNorm(root, cols, |cols|) { OrthonormalSoFar(root, cols, rows, |cols|); }
    if Orthonormal(Orthogonalised(root, cols, |cols|), |cols|) {
      forall k | 0 <= k < |cols| ensures NormMet(root, cols, k) >= EPS {
        FinalLength(root, cols, k);
        assert Unit(k, k) == 1.0;
      }
    }
  }

  lemma FinalLength(root: real -> real, cols: seq<seq<real>>, k: nat)
    requires IsRoot(root) && k < |cols|
    ensures var q := Orthogonalised(root, cols, |cols|)[k]; Dot(q, q) == 1.0 <==> NormMet(root, cols, k) >= EPS
  {
    ColumnsStay(root, cols, k, |cols|);
    NewColumn(root, cols, k);
    var p := Orthogonalised(root, cols, k);
    NormalisedLength(root, Residual(p, p[k], k));
  }

  lemma NewColumn(root: real -> real, cols: seq<seq<real>>, k: nat)
    requires k < |cols|
    ensures var v := Residual(Orthogonalised(root, cols, k), cols[k], k);
            Orthogonalised(root, cols, k + 1)[k] == Divided(v, Norm(root, v))
  {
  }

  lemma QuotientTwice(s: real, n: real, y: real)
    requires n > 0.0 && y == s / n / n
    ensures y * (n * n) == s
  {
    var x := s / n;
    assert x * n == s && y * n == x;
    assert y * (n * n) == (y * n) * n;
  }

  /** A residual shorter than 1e-12 is divided by that instead. */
  lemma ShortLength(root: real -> real, v: seq<real>)
    requires IsRoot(root) && root(Dot(v, v)) < 0.000000000001
    ensures var q := Divided(v, Norm(root, v)); LengthRatio(Dot(q, q), root(Dot(v, v)))
  {
    NormSquare(v);
    var q, n := Divided(v, Norm(root, v)), root(Dot(v, v));
    DividedNorm(v, Norm(root, v));
    QuotientTwice(Dot(v, v), 0.000000000001, Dot(q, q));
    RatioHolds(Dot(v, v), n, Dot(q, q));
  }

  /** The squared length `y` is n / 1e-12, squared, and so below 1. */
  predicate LengthRatio(y: real, n: real) {
    y * (0.000000000001 * 0.000000000001) == n * n && 0.0 <= y < 1.0
  }

  lemma RatioHolds(s: real, n: real, y: real)
    requires 0.0 <= n < 0.000000000001 && s == n * n && y * (0.000000000001 * 0.000000000001) == s
    ensures LengthRatio(y, n)
  {
    SmallerSquare(n, 0.000000000001);
    SquareNotNegative(n);
  }

  /** Lengths at the end of a run, squared: 1 for a column whose residual norm reached 1e-12, and for a
      shorter residual its norm over 1e-12, squared. */
  lemma ColumnLengths(root: real -> real, cols: seq<seq<real>>, k: nat)
    requires IsRoot(root) && k < |cols|
    ensures var (q, n) := (Orthogonalised(root, cols, |cols|)[k], NormMet(root, cols, k));
            if n >= 0.000000000001 then Dot(q, q) == 1.0 else LengthRatio(Dot(q, q), n)
  {
    FinalLength(root, cols, k);
    ColumnsStay(root, cols, k, |cols|);
    NewColumn(root, cols, k);
    if NormMet(root, cols, k) < 0.000000000001 {
      ShortLength(root, Residual(Orthogonalised(root, cols, k), cols[k], k));
    }
  }

  // ---------------------------------------------------------------- nothing is lost

  /** The coefficient of column `l` in the original `v`. */
  function Coefficient(cols: seq<seq<real>>, v: seq<real>, l: int): real {
    if 0 <= l < |cols| then Dot(cols[l], Residual(cols, v, l)) else 0.0
  }

  lemma {:induction false} ResidualPlusParts(cols: seq<seq<real>>, v: seq<real>, j: nat, i: nat)
    requires j <= |cols| && i < |v|
    ensures v[i] == Residual(cols, v, j)[i] + Sum(j, Part(cols, v, i))
  {
    if j > 0 {
      ResidualPlusParts(cols, v, j - 1, i);
      var part := OnePart(cols, v, j, i);
    }
  }

  /** Entry `i` of the part of `v` along each column. */
  function Part(cols: seq<seq<real>>, v: seq<real>, i: int): int -> real {
    l => Coefficient(cols, v, l) * (if 0 <= l < |cols| then At(cols[l], i) else 0.0)
  }

  lemma OnePart(cols: seq<seq<real>>, v: seq<real>, j: nat, i: nat) returns (part: real)
    requires 0 < j <= |cols| && i < |v|
    ensures Residual(cols, v, j)[i] == Residual(cols, v, j - 1)[i] - part && Sum(j, Part(cols, v, i)) == Sum(j - 1, Part(cols, v, i)) + part
  {
    part := Part(cols, v, i)(j - 1);
    assert Residual(cols, v, j)[i] == At(Residual(cols, v, j - 1), i) - Coefficient(cols, v, j - 1) * At(cols[j - 1], i);
  }

  /** Every original column is recovered from the new ones: the triangular factor of the run. */
  lemma ColumnsRecombine(root: real -> real, cols: seq<seq<real>>, k: nat, i: nat)
    requires k < |cols| && i < |cols[k]|
    ensures var p := Orthogonalised(root, cols, k);
            var q := Orthogonalised(root, cols, k + 1)[k];
            |q| == |cols[k]| &&
            cols[k][i] == Rescaled(q, Norm(root, Residual(p, cols[k], k)), i) + Sum(k, Part(p, cols[k], i))
  {
    var p := Orthogonalised(root, cols, k);
    ResidualPlusParts(p, cols[k], k, i);
    var v := Residual(p, cols[k], k);
    var q := Orthogonalised(root, cols, k + 1)[k];
    assert q == Divided(v, Norm(root, v));
    Restored(v, Norm(root, v), i);
  }

  /** Entry `i` of a normalised column, times its norm. */
  function Rescaled(q: seq<real>, norm: real, i: int): real {
    At(q, i) * norm
  }

  lemma Restored(v: seq<real>, n: real, i: nat)
    requires n != 0.0 && i < |v|
    ensures Rescaled(Divided(v, n), n, i) == v[i]
  {
    Undivided(At(Divided(v, n), i), v[i], n);
  }

  lemma Undivided(z: real, x: real, n: real)
    requires n != 0.0 && z == x / n
    ensures z * n == x
  {
  }
}
