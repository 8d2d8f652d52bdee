/** Gauss-Jordan inversion with partial pivoting and ridge retries, in place on two flat buffers. */
module GaussJordan {
  import opened Sums
  import opened Grids
  import opened Tensors

  type Mat = seq<seq<real>>

  predicate Square(m: Mat, r: nat) {
    |m| == r && forall i :: 0 <= i < r ==> |m[i]| == r
  }

  function Entry(m: Mat, i: int, j: int): real {
    if 0 <= i < |m| then At(m[i], j) else 0.0
  }

  function Unit(i: int, j: int): real {
    if i == j then 1.0 else 0.0
  }

  function Identity(r: nat): (m: Mat)
    ensures Square(m, r)
  {
    seq(r, i => UnitRow(r, i))
  }

  function UnitRow(r: nat, i: int): (row: seq<real>)
    ensures |row| == r && forall j :: 0 <= j < r ==> row[j] == Unit(i, j)
  {
    seq(r, j => Unit(i, j))
  }

  function RidgeRow(row: seq<real>, i: int, shift: real): (z: seq<real>)
    ensures |z| == |row|
  {
    seq(|row|, j => At(row, j) + shift * Unit(i, j))
  }

  /** mat + shift I. */
  function Ridge(mat: Mat, shift: real): (m: Mat)
    ensures |m| == |mat| && forall i :: 0 <= i < |m| ==> |m[i]| == |mat[i]|
  {
    seq(|mat|, i requires 0 <= i < |mat| => RidgeRow(mat[i], i, shift))
  }

  // ---------------------------------------------------------------- the elimination, on values

  /** The two matrices, and whether every factor left uncleared so far was exactly zero. */
  datatype Work = Work(a: Mat, inv: Mat, exact: bool)

  predicate Fit(w: Work, r: nat) {
    Square(w.a, r) && Square(w.inv, r)
  }

  /** The pivot search: the first row of greatest magnitude among `best` and `row..`. */
  function PivotFrom(a: Mat, col: nat, row: nat, best: nat): (p: nat)
    requires best < |a|
    ensures p < |a|
    decreases |a| - row
  {
    if row >= |a| then best
    else PivotFrom(a, col, row + 1, if Abs(Entry(a, row, col)) > Abs(Entry(a, best, col)) then row else best)
  }

  function Swapped(m: Mat, i: nat, j: nat): Mat
    requires i < |m| && j < |m|
  {
    m[i := m[j]][j := m[i]]
  }

  function Minus(x: seq<real>, f: real, y: seq<real>): (z: seq<real>)
    ensures |z| == |x|
  {
    seq(|x|, j => At(x, j) - f * At(y, j))
  }

  function RowMinus(m: Mat, i: nat, f: real, c: nat): Mat
    requires i < |m| && c < |m|
  {
    m[i := Minus(m[i], f, m[c])]
  }

  function RowScaled(m: Mat, c: nat, s: real): Mat
    requires c < |m|
  {
    m[c := ScaleSeq(s, m[c])]
  }

  /** Clears row `i` of column `col`, unless the factor is negligible. */
  function ClearRow(w: Work, col: nat, i: nat): Work
    requires i < |w.a| == |w.inv| && col < |w.a|
  {
    var f := Entry(w.a, i, col);
    if i == col then w
    else if Abs(f) > 0.000000000001 then Work(RowMinus(w.a, i, f, col), RowMinus(w.inv, i, f, col), w.exact)
    else w.(exact := w.exact && f == 0.0)
  }

  function ClearRows(w: Work, col: nat, n: nat): (z: Work)
    requires n <= |w.a| == |w.inv| && col < |w.a|
    ensures |z.a| == |z.inv| == |w.a|
  {
    if n == 0 then w else ClearRow(ClearRows(w, col, n - 1), col, n - 1)
  }

  /** Brings the pivot row up and makes the pivot 1. */
  function Normalised(w: Work, col: nat): (z: Option<Work>)
    requires |w.a| == |w.inv| && col < |w.a|
    ensures z.Some? ==> |z.value.a| == |z.value.inv| == |w.a|
  {
    var p := PivotFrom(w.a, col, col + 1, col);
    if Abs(Entry(w.a, p, col)) < 0.0000001 then None
    else
      var a := Swapped(w.a, col, p);
      var s := 1.0 / Entry(a, col, col);
      Some(Work(RowScaled(a, col, s), RowScaled(Swapped(w.inv, col, p), col, s), w.exact))
  }

  function Columns(w: Work, n: nat): (z: Option<Work>)
    requires n <= |w.a| == |w.inv|
    ensures z.Some? ==> |z.value.a| == |z.value.inv| == |w.a|
  {
    if n == 0 then Some(w)
    else
      match Columns(w, n - 1)
      case None => None
      case Some(p) =>
        match Normalised(p, n - 1)
        case None => None
        case Some(q) => Some(ClearRows(q, n - 1, |w.a|))
  }

  function Eliminated(m: Mat): (z: Option<Work>)
    ensures z.Some? ==> |z.value.a| == |z.value.inv| == |m|
  {
    Columns(Work(m, Identity(|m|), true), |m|)
  }

  // ---------------------------------------------------------------- the pivot

  lemma {:induction false} PivotIsLargest(a: Mat, col: nat, row: nat, best: nat)
    requires best < row <= |a|
    ensures var p := PivotFrom(a, col, row, best);
            && p < |a| && (p == best || row <= p)
            && Abs(Entry(a, best, col)) <= Abs(Entry(a, p, col))
            && forall i :: row <= i < |a| ==> Abs(Entry(a, i, col)) <= Abs(Entry(a, p, col))
    decreases |a| - row
  {
    if row < |a| {
      var next := if Abs(Entry(a, row, col)) > Abs(Entry(a, best, col)) then row else best;
      PivotIsLargest(a, col, row + 1, next);
    }
  }

  // ---------------------------------------------------------------- conservation

  /** Row vector times matrix, entry j. */
  function RowTimes(v: seq<real>, m: Mat, j: int): real {
    Sum(|m|, l => At(v, l) * Entry(m, l, j))
  }

  /** inv * m == a. */
  ghost predicate Conserved(w: Work, m: Mat) {
    forall i, j :: 0 <= i < |w.inv| && 0 <= j < |m| ==> RowTimes(w.inv[i], m, j) == Entry(w.a, i, j)
  }

  lemma ScaledTerm(s: real, a: real, b: real, c: real, u: real, e: real)
    requires c == s * a && u == a * b && e == c * b
    ensures e == s * u
  {
    Assoc(s, a, b, c);
  }

  lemma RowTimesScaled(s: real, x: seq<real>, m: Mat, j: int)
    requires |x| == |m|
    ensures RowTimes(ScaleSeq(s, x), m, j) == s * RowTimes(x, m, j)
  {
    var z, n := ScaleSeq(s, x), |m|;
    var u, e := (l: int) => At(x, l) * Entry(m, l, j), (l: int) => At(z, l) * Entry(m, l, j);
    forall l | 0 <= l < n ensures e(l) == s * u(l) {
      ScaledTerm(s, At(x, l), Entry(m, l, j), At(z, l), u(l), e(l));
    }
    SumScale(n, s, u, e);
  }

  lemma TermAdd(x: real, y: real, e: real, z: real)
    requires z == x + y
    ensures z * e == x * e + y * e
  {
  }

  lemma RowTimesAdd(x: seq<real>, y: seq<real>, m: Mat, j: int)
    requires |x| == |y| == |m|
    ensures RowTimes(AddSeq(x, y), m, j) == RowTimes(x, m, j) + RowTimes(y, m, j)
  {
    var z, n := AddSeq(x, y), |m|;
    var u, v, e := (l: int) => At(x, l) * Entry(m, l, j), (l: int) => At(y, l) * Entry(m, l, j), (l: int) => At(z, l) * Entry(m, l, j);
    forall l | 0 <= l < n ensures e(l) == u(l) + v(l) {
      TermAdd(At(x, l), At(y, l), Entry(m, l, j), At(z, l));
    }
    SumAdd(n, u, v, e);
  }

  lemma NegatedFactor(x: real, f: real, y: real)
    ensures x - f * y == x + (0.0 - f) * y
  {
  }

  lemma MinusIsSum(x: seq<real>, f: real, y: seq<real>)
    requires |x| == |y|
    ensures Minus(x, f, y) == AddSeq(x, ScaleSeq(0.0 - f, y))
  {
    forall j | 0 <= j < |x| ensures Minus(x, f, y)[j] == AddSeq(x, ScaleSeq(0.0 - f, y))[j] {
      NegatedFactor(x[j], f, y[j]);
    }
  }

  lemma RowTimesMinus(x: seq<real>, f: real, y: seq<real>, m: Mat, j: int)
    requires |x| == |y| == |m|
    ensures RowTimes(Minus(x, f, y), m, j) == RowTimes(x, m, j) - f * RowTimes(y, m, j)
  {
    MinusIsSum(x, f, y);
    RowTimesAdd(x, ScaleSeq(0.0 - f, y), m, j);
    RowTimesScaled(0.0 - f, y, m, j);
    NegatedFactor(RowTimes(x, m, j), f, RowTimes(y, m, j));
  }

  /** The state of the two matrices: square, and related by the original one. */
  ghost predicate Linked(w: Work, m: Mat) {
    Square(m, |m|) && Fit(w, |m|) && Conserved(w, m)
  }

  lemma MinusLinked(w: Work, m: Mat, i: nat, f: real, c: nat)
    requires Linked(w, m) && i < |m| && c < |m|
    ensures Linked(Work(RowMinus(w.a, i, f, c), RowMinus(w.inv, i, f, c), w.exact), m)
  {
    forall j | 0 <= j < |m| ensures RowTimes(Minus(w.inv[i], f, w.inv[c]), m, j) == At(Minus(w.a[i], f, w.a[c]), j) {
      RowTimesMinus(w.inv[i], f, w.inv[c], m, j);
      assert RowTimes(w.inv[i], m, j) == Entry(w.a, i, j) && RowTimes(w.inv[c], m, j) == Entry(w.a, c, j);
    }
  }

  lemma ScaledLinked(w: Work, m: Mat, c: nat, s: real)
    requires Linked(w, m) && c < |m|
    ensures Linked(Work(RowScaled(w.a, c, s), RowScaled(w.inv, c, s), w.exact), m)
  {
    forall j | 0 <= j < |m| ensures RowTimes(ScaleSeq(s, w.inv[c]), m, j) == At(ScaleSeq(s, w.a[c]), j) {
      RowTimesScaled(s, w.inv[c], m, j);
      assert RowTimes(w.inv[c], m, j) == Entry(w.a, c, j);
    }
  }

  lemma SwappedLinked(w: Work, m: Mat, i: nat, j: nat)
    requires Linked(w, m) && i < |m| && j < |m|
    ensures Linked(Work(Swapped(w.a, i, j), Swapped(w.inv, i, j), w.exact), m)
  {
  }

  lemma IdentityTimes(m: Mat, i: nat, j: nat)
    requires i < |m| && j < |m|
    ensures RowTimes(Identity(|m|)[i], m, j) == Entry(m, i, j)
  {
    var e := Identity(|m|)[i];
    var f := (l: int) => At(e, l) * Entry(m, l, j);
    forall l | 0 <= l < |m| && l != i ensures f(l) == 0.0 {
      assert At(e, l) == 0.0;
    }
    SumSingle(|m|, f, i);
    assert At(e, i) == 1.0;
  }

  lemma {:induction false} ClearRowsLinked(w: Work, m: Mat, col: nat, n: nat)
    requires Linked(w, m) && n <= |m| && col < |m|
    ensures Linked(ClearRows(w, col, n), m)
  {
    if n > 0 {
      ClearRowsLinked(w, m, col, n - 1);
      var p := ClearRows(w, col, n - 1);
      MinusLinked(p, m, n - 1, Entry(p.a, n - 1, col), col);
    }
  }

  lemma NormalisedLinked(w: Work, m: Mat, col: nat)
    requires Linked(w, m) && col < |m| && Normalised(w, col).Some?
    ensures Linked(Normalised(w, col).value, m)
  {
    var p := PivotFrom(w.a, col, col + 1, col);
    SwappedLinked(w, m, col, p);
    var s := Work(Swapped(w.a, col, p), Swapped(w.inv, col, p), w.exact);
    ScaledLinked(s, m, col, 1.0 / Entry(s.a, col, col));
  }

  /** The last of `n` columns. */
  lemma LastColumn(w: Work, n: nat) returns (p: Work, q: Work)
    requires 0 < n <= |w.a| == |w.inv| && Columns(w, n).Some?
    ensures Columns(w, n - 1) == Some(p) && |p.a| == |p.inv| == |w.a| && Normalised(p, n - 1) == Some(q)
    ensures Columns(w, n) == Some(ClearRows(q, n - 1, |w.a|))
  {
    p := Columns(w, n - 1).value;
    q := Normalised(p, n - 1).value;
  }

  lemma {:induction false} ColumnsLinked(w: Work, m: Mat, n: nat)
    requires Linked(w, m) && n <= |m| && Columns(w, n).Some?
    ensures Linked(Columns(w, n).value, m)
  {
    if n > 0 {
      var p, q := LastColumn(w, n);
      ColumnsLinked(w, m, n - 1);
      NormalisedLinked(p, m, n - 1);
      ClearRowsLinked(q, m, n - 1, |m|);
    }
  }

  /** Through every swap, scaling and elimination, inverse times matrix is the reduced matrix. */
  lemma EliminationConserves(m: Mat, i: nat, j: nat)
    requires Square(m, |m|) && Eliminated(m).Some? && i < |m| && j < |m|
    ensures var w := Eliminated(m).value;
            Fit(w, |m|) && RowTimes(w.inv[i], m, j) == w.a[i][j]
  {
    var start := Work(m, Identity(|m|), true);
    forall i, j | 0 <= i < |m| && 0 <= j < |m| ensures RowTimes(start.inv[i], m, j) == Entry(start.a, i, j) {
      IdentityTimes(m, i, j);
    }
    ColumnsLinked(start, m, |m|);
    assert RowTimes(Eliminated(m).value.inv[i], m, j) == Entry(Eliminated(m).value.a, i, j);
  }

  // ---------------------------------------------------------------- cleared columns

  /** Column `j` of `a` is a unit column. */
  ghost predicate UnitColumn(a: Mat, j: int) {
    forall i :: 0 <= i < |a| ==> Entry(a, i, j) == Unit(i, j)
  }

  ghost predicate UnitColumns(a: Mat, n: nat) {
    forall j :: 0 <= j < n ==> UnitColumn(a, j)
  }

  /** Column `col` while it is being cleared: 1 on the diagonal, 0 in the other rows up to `n`. */
  ghost predicate PartlyCleared(a: Mat, col: nat, n: nat) {
    && UnitColumns(a, col) && Entry(a, col, col) == 1.0
    && forall i :: 0 <= i < n && i != col ==> Entry(a, i, col) == 0.0
  }

  lemma MinusZero(f: real, y: real)
    requires y == 0.0
    ensures f * y == 0.0
  {
  }

  lemma ClearRowUnit(w: Work, r: nat, col: nat, n: nat)
    requires Fit(w, r) && col < r && n < r && PartlyCleared(w.a, col, n)
    ensures var z := ClearRow(w, col, n); Fit(z, r) && (z.exact ==> w.exact && PartlyCleared(z.a, col, n + 1))
  {
    var f, z := Entry(w.a, n, col), ClearRow(w, col, n);
    if n != col && Abs(f) > 0.000000000001 {
      forall j | 0 <= j < col ensures UnitColumn(z.a, j) {
        assert UnitColumn(w.a, j);
        assert Entry(w.a, col, j) == 0.0;
        MinusZero(f, Entry(w.a, col, j));
      }
      ClearedEntry(w.a, r, n, col);
      assert z.a == RowMinus(w.a, n, f, col);
      forall i | 0 <= i < n + 1 && i != col ensures Entry(z.a, i, col) == 0.0 {
        if i < n { assert z.a[i] == w.a[i] && Entry(w.a, i, col) == 0.0; }
      }
    }
  }

  lemma ClearedEntry(a: Mat, r: nat, n: nat, col: nat)
    requires Square(a, r) && n < r && col < r && n != col && Entry(a, col, col) == 1.0
    ensures Entry(RowMinus(a, n, Entry(a, n, col), col), n, col) == 0.0
    ensures Entry(RowMinus(a, n, Entry(a, n, col), col), col, col) == 1.0
  {
    var f := Entry(a, n, col);
    MinusItself(f, At(a[col], col));
    assert Minus(a[n], f, a[col])[col] == At(a[n], col) - f * At(a[col], col);
  }

  lemma MinusItself(f: real, y: real)
    requires y == 1.0
    ensures f - f * y == 0.0
  {
  }

  lemma {:induction false} ClearRowsUnit(w: Work, r: nat, col: nat, n: nat)
    requires Fit(w, r) && col < r && n <= r && PartlyCleared(w.a, col, 0)
    ensures var z := ClearRows(w, col, n); Fit(z, r) && (z.exact ==> w.exact && PartlyCleared(z.a, col, n))
  {
    if n > 0 {
      ClearRowsUnit(w, r, col, n - 1);
      var p := ClearRows(w, col, n - 1);
      if p.exact {
        ClearRowUnit(p, r, col, n - 1);
      }
    }
  }

  lemma Reciprocal(x: real)
    requires x != 0.0
    ensures (1.0 / x) * x == 1.0
  {
  }

  lemma NormalisedUnit(w: Work, r: nat, col: nat)
    requires Fit(w, r) && col < r && UnitColumns(w.a, col) && Normalised(w, col).Some?
    ensures var z := Normalised(w, col).value; Fit(z, r) && z.exact == w.exact && PartlyCleared(z.a, col, 0)
  {
    var p := PivotFrom(w.a, col, col + 1, col);
    PivotIsLargest(w.a, col, col + 1, col);
    var a := Swapped(w.a, col, p);
    var x := Entry(a, col, col);
    var s := 1.0 / x;
    Reciprocal(x);
    ScaledPivot(a, r, col, s);
    forall j | 0 <= j < col ensures UnitColumn(a, j) {
      assert UnitColumn(w.a, j);
      assert Entry(w.a, col, j) == 0.0 && Entry(w.a, p, j) == 0.0;
    }
    ScaledUnit(a, r, col, s);
  }

  lemma ScaledPivot(a: Mat, r: nat, col: nat, s: real)
    requires Square(a, r) && col < r
    ensures Entry(RowScaled(a, col, s), col, col) == s * Entry(a, col, col)
  {
  }

  lemma ScaledUnit(a: Mat, r: nat, col: nat, s: real)
    requires Square(a, r) && col < r && UnitColumns(a, col)
    ensures UnitColumns(RowScaled(a, col, s), col)
  {
    forall j | 0 <= j < col ensures UnitColumn(RowScaled(a, col, s), j) {
      assert UnitColumn(a, j);
      assert Entry(a, col, j) == 0.0;
      MinusZero(s, Entry(a, col, j));
    }
  }

  lemma ClearedIsUnit(a: Mat, r: nat, col: nat)
    requires Square(a, r) && col < r && PartlyCleared(a, col, r)
    ensures UnitColumns(a, col + 1)
  {
    forall j | 0 <= j < col + 1 ensures UnitColumn(a, j) {
    }
  }

  lemma {:induction false} ColumnsUnit(w: Work, r: nat, n: nat)
    requires Fit(w, r) && n <= r && Columns(w, n).Some?
    ensures var z := Columns(w, n).value; Fit(z, r) && (z.exact ==> UnitColumns(z.a, n))
  {
    if n > 0 {
      ColumnsUnit(w, r, n - 1);
      OneColumnUnit(Columns(w, n - 1).value, r, n - 1);
    }
  }

  lemma OneColumnUnit(p: Work, r: nat, col: nat)
    requires Fit(p, r) && col < r && Normalised(p, col).Some? && (p.exact ==> UnitColumns(p.a, col))
    ensures var z := ClearRows(Normalised(p, col).value, col, r);
            Fit(z, r) && (z.exact ==> UnitColumns(z.a, col + 1))
  {
    FitKept(p, r, col);
    ExactKept(Normalised(p, col).value, col, r);
    if p.exact {
      NormalisedUnit(p, r, col);
      var q := Normalised(p, col).value;
      ClearRowsUnit(q, r, col, r);
      var z := ClearRows(q, col, r);
      if z.exact { ClearedIsUnit(z.a, r, col); }
    }
  }

  lemma {:induction false} ExactKept(w: Work, col: nat, n: nat)
    requires n <= |w.a| == |w.inv| && col < |w.a|
    ensures ClearRows(w, col, n).exact ==> w.exact
  {
    if n > 0 { ExactKept(w, col, n - 1); }
  }

  lemma {:induction false} FitRows(w: Work, r: nat, col: nat, n: nat)
    requires Fit(w, r) && col < r && n <= r
    ensures Fit(ClearRows(w, col, n), r)
  {
    if n > 0 { FitRows(w, r, col, n - 1); }
  }

  lemma FitKept(p: Work, r: nat, col: nat)
    requires Fit(p, r) && col < r && Normalised(p, col).Some?
    ensures Fit(Normalised(p, col).value, r) && Fit(ClearRows(Normalised(p, col).value, col, r), r)
  {
    FitRows(Normalised(p, col).value, r, col, r);
  }

  /** Left inverse: x * m == I. */
  ghost predicate LeftInverse(x: Mat, m: Mat) {
    Square(x, |m|) && forall i, j :: 0 <= i < |m| && 0 <= j < |m| ==> RowTimes(x[i], m, j) == Unit(i, j)
  }

  /** When every factor left alone was exactly zero, the result is a left inverse. */
  lemma ExactEliminationInverts(m: Mat)
    requires Square(m, |m|) && Eliminated(m).Some? && Eliminated(m).value.exact
    ensures LeftInverse(Eliminated(m).value.inv, m)
  {
    var w := Eliminated(m).value;
    ColumnsUnit(Work(m, Identity(|m|), true), |m|, |m|);
    forall i, j | 0 <= i < |m| && 0 <= j < |m| ensures RowTimes(w.inv[i], m, j) == Unit(i, j) {
      EliminationConserves(m, i, j);
      assert UnitColumn(w.a, j);
      assert Entry(w.a, i, j) == Unit(i, j);
    }
    if |m| == 0 { ColumnsUnit(Work(m, Identity(0), true), 0, 0); }
  }

  /** In general it is one exactly when the matrix was reduced all the way. */
  lemma InvertsExactlyWhenReduced(m: Mat)
    requires Square(m, |m|) && Eliminated(m).Some?
    ensures var w := Eliminated(m).value; LeftInverse(w.inv, m) <==> w.a == Identity(|m|)
  {
    var w := Eliminated(m).value;
    ColumnsUnit(Work(m, Identity(|m|), true), |m|, |m|);
    forall i, j | 0 <= i < |m| && 0 <= j < |m| ensures RowTimes(w.inv[i], m, j) == Entry(w.a, i, j) {
      EliminationConserves(m, i, j);
    }
    if LeftInverse(w.inv, m) {
      forall i | 0 <= i < |m| ensures w.a[i] == Identity(|m|)[i] {
        forall j | 0 <= j < |m| ensures w.a[i][j] == Identity(|m|)[i][j] {
          assert RowTimes(w.inv[i], m, j) == Unit(i, j);
        }
      }
    }
  }

  // ---------------------------------------------------------------- the inverse is two-sided

  /** b * x == I, with b given by its entries. */
  ghost predicate Undoes(b: (int, int) -> real, x: Mat, r: nat) {
    Square(x, r) && forall k, j :: 0 <= k < r && 0 <= j < r ==> Sum(r, l => b(k, l) * Entry(x, l, j)) == Unit(k, j)
  }

  /** The column operations that undo the row operations. */
  function ColumnPlus(b: (int, int) -> real, c: nat, f: real, i: nat): (int, int) -> real {
    (k, l) => if l == c then b(k, c) + f * b(k, i) else b(k, l)
  }

  function ColumnDivided(b: (int, int) -> real, c: nat, s: real): (int, int) -> real
    requires s != 0.0
  {
    (k, l) => if l == c then b(k, c) / s else b(k, l)
  }

  function ColumnsSwapped(b: (int, int) -> real, i: nat, j: nat): (int, int) -> real {
    (k, l) => b(k, if l == i then j else if l == j then i else l)
  }

  /** Two sums that differ at two places only, by amounts that cancel. */
  lemma SumTwoChanges(n: nat, f: int -> real, g: int -> real, p: nat, q: nat)
    requires p < n && q < n && p != q
    requires forall l :: 0 <= l < n && l != p && l != q ==> f(l) == g(l)
    requires g(p) + g(q) == f(p) + f(q)
    ensures Sum(n, g) == Sum(n, f)
  {
    var h := (l: int) => if l == p then g(p) else f(l);
    SumChange(n, f, h, p);
    SumChange(n, h, g, q);
  }

  lemma CancelPair(bc: real, bi: real, f: real, xi: real, xc: real, bc': real, xi': real)
    requires bc' == bc + f * bi && xi' == xi - f * xc
    ensures bc' * xc + bi * xi' == bc * xc + bi * xi
  {
    assert f * bi * xc == bi * (f * xc);
  }

  lemma MinusUndone(b: (int, int) -> real, x: Mat, r: nat, i: nat, f: real, c: nat)
    requires Undoes(b, x, r) && i < r && c < r && i != c
    ensures Undoes(ColumnPlus(b, c, f, i), RowMinus(x, i, f, c), r)
  {
    var b', x' := ColumnPlus(b, c, f, i), RowMinus(x, i, f, c);
    forall k, j | 0 <= k < r && 0 <= j < r ensures Sum(r, l => b'(k, l) * Entry(x', l, j)) == Unit(k, j) {
      var u, v := (l: int) => b(k, l) * Entry(x, l, j), (l: int) => b'(k, l) * Entry(x', l, j);
      forall l | 0 <= l < r && l != i && l != c ensures u(l) == v(l) {
        SameProduct(b(k, l), Entry(x, l, j), b'(k, l), Entry(x', l, j));
      }
      SameProduct(b(k, i), Entry(x', i, j), b'(k, i), Entry(x', i, j));
      SameProduct(b'(k, c), Entry(x, c, j), b'(k, c), Entry(x', c, j));
      CancelPair(b(k, c), b(k, i), f, Entry(x, i, j), Entry(x, c, j), b'(k, c), Entry(x', i, j));
      SumTwoChanges(r, u, v, c, i);
      assert Sum(r, u) == Unit(k, j);
    }
  }

  lemma DivideMultiply(b: real, s: real, x: real, b': real, x': real)
    requires s != 0.0 && b' == b / s && x' == s * x
    ensures b' * x' == b * x
  {
    assert b' * s == b;
  }

  lemma ScaledUndone(b: (int, int) -> real, x: Mat, r: nat, c: nat, s: real)
    requires Undoes(b, x, r) && c < r && s != 0.0
    ensures Undoes(ColumnDivided(b, c, s), RowScaled(x, c, s), r)
  {
    var b', x' := ColumnDivided(b, c, s), RowScaled(x, c, s);
    forall k, j | 0 <= k < r && 0 <= j < r ensures Sum(r, l => b'(k, l) * Entry(x', l, j)) == Unit(k, j) {
      var u, v := (l: int) => b(k, l) * Entry(x, l, j), (l: int) => b'(k, l) * Entry(x', l, j);
      DivideMultiply(b(k, c), s, Entry(x, c, j), b'(k, c), Entry(x', c, j));
      forall l | 0 <= l < r ensures v(l) == u(l) {
        if l != c { SameProduct(b(k, l), Entry(x, l, j), b'(k, l), Entry(x', l, j)); }
      }
      SumExt(r, v, u);
      assert Sum(r, u) == Unit(k, j);
    }
  }

  lemma SwappedUndone(b: (int, int) -> real, x: Mat, r: nat, p: nat, q: nat)
    requires Undoes(b, x, r) && p < r && q < r
    ensures Undoes(ColumnsSwapped(b, p, q), Swapped(x, p, q), r)
  {
    var b', x' := ColumnsSwapped(b, p, q), Swapped(x, p, q);
    forall k, j | 0 <= k < r && 0 <= j < r ensures Sum(r, l => b'(k, l) * Entry(x', l, j)) == Unit(k, j) {
      var u, v := (l: int) => b(k, l) * Entry(x, l, j), (l: int) => b'(k, l) * Entry(x', l, j);
      forall l | 0 <= l < r ensures v(l) == u(if l == p then q else if l == q then p else l) {
        var o := if l == p then q else if l == q then p else l;
        SameProduct(b(k, o), Entry(x, o, j), b'(k, l), Entry(x', l, j));
      }
      if p == q { SumExt(r, v, u); } else { SumTwoChanges(r, u, v, p, q); }
      assert Sum(r, u) == Unit(k, j);
    }
  }

  lemma {:induction false} ClearRowsUndone(b: (int, int) -> real, w: Work, r: nat, col: nat, n: nat) returns (b': (int, int) -> real)
    requires Fit(w, r) && Undoes(b, w.inv, r) && col < r && n <= r
    ensures Undoes(b', ClearRows(w, col, n).inv, r)
  {
    b' := b;
    if n > 0 {
      b' := ClearRowsUndone(b, w, r, col, n - 1);
      var p := ClearRows(w, col, n - 1);
      FitRows(w, r, col, n - 1);
      var f := Entry(p.a, n - 1, col);
      if n - 1 != col && Abs(f) > 0.000000000001 {
        MinusUndone(b', p.inv, r, n - 1, f, col);
        b' := ColumnPlus(b', col, f, n - 1);
      }
    }
  }

  lemma ReciprocalNotZero(x: real)
    requires x != 0.0
    ensures 1.0 / x != 0.0
  {
    Reciprocal(x);
  }

  lemma NormalisedUndone(b: (int, int) -> real, w: Work, r: nat, col: nat) returns (b': (int, int) -> real)
    requires Fit(w, r) && Undoes(b, w.inv, r) && col < r && Normalised(w, col).Some?
    ensures Undoes(b', Normalised(w, col).value.inv, r)
  {
    var p := PivotFrom(w.a, col, col + 1, col);
    var a := Swapped(w.a, col, p);
    var s := 1.0 / Entry(a, col, col);
    ReciprocalNotZero(Entry(a, col, col));
    SwappedUndone(b, w.inv, r, col, p);
    b' := ColumnsSwapped(b, col, p);
    ScaledUndone(b', Swapped(w.inv, col, p), r, col, s);
    b' := ColumnDivided(b', col, s);
  }

  lemma {:induction false} ColumnsUndone(b: (int, int) -> real, w: Work, r: nat, n: nat) returns (b': (int, int) -> real)
    requires Fit(w, r) && Undoes(b, w.inv, r) && n <= r && Columns(w, n).Some?
    ensures Undoes(b', Columns(w, n).value.inv, r)
  {
    b' := b;
    if n > 0 {
      var p, q := LastColumn(w, n);
      b' := ColumnsUndone(b, w, r, n - 1);
      ColumnsUnit(w, r, n - 1);
      b' := NormalisedUndone(b', p, r, n - 1);
      FitKept(p, r, n - 1);
      b' := ClearRowsUndone(b', q, r, n - 1, r);
    }
  }

  lemma IdentityUndone(r: nat) returns (b: (int, int) -> real)
    ensures Undoes(b, Identity(r), r)
  {
    b := (k, l) => Unit(k, l);
    forall k, j | 0 <= k < r && 0 <= j < r ensures Sum(r, l => b(k, l) * Entry(Identity(r), l, j)) == Unit(k, j) {
      IdentityTimes(Identity(r), k, j);
      SumExt(r, l => At(Identity(r)[k], l) * Entry(Identity(r), l, j), l => b(k, l) * Entry(Identity(r), l, j));
    }
  }

  lemma UnitSums(r: nat, f: int -> real, u: int -> real, k: nat)
    requires k < r && forall l :: 0 <= l < r ==> u(l) == if l == k then f(l) else 0.0
    ensures Sum(r, u) == f(k)
  {
    SumSingle(r, u, k);
  }

  /** b x == I and x m == I make b equal to m. */
  /** Row `k` of `b` times the inverse times column `j` of the matrix, bracketed to the right. */
  lemma RightBracket(b: (int, int) -> real, x: Mat, m: Mat, k: nat, j: nat, l: nat, X: (int, int) -> real, Y: (int, int) -> real)
    requires LeftInverse(x, m) && l < |m| == |x| && j < |m|
    requires X == ((i: int, p: int) => Entry(m, p, j)) && Y == ((p: int, l: int) => Entry(x, l, p))
    ensures b(k, l) * Product(|m|, X, Y, 0, l) == if l == j then b(k, l) else 0.0
  {
    SumExt(|m|, p => X(0, p) * Y(p, l), p => At(x[l], p) * Entry(m, p, j));
    assert RowTimes(x[l], m, j) == Unit(l, j);
    SameProduct(b(k, l), Product(|m|, X, Y, 0, l), b(k, l), Unit(l, j));
  }

  lemma UndoneIsOriginal(b: (int, int) -> real, x: Mat, m: Mat, k: nat, j: nat)
    requires Square(m, |m|) && Undoes(b, x, |m|) && LeftInverse(x, m) && k < |m| && j < |m|
    ensures b(k, j) == Entry(m, k, j)
  {
    var r := |m|;
    var X, Y, G := (i: int, p: int) => Entry(m, p, j), (p: int, l: int) => Entry(x, l, p), (i: int, l: int) => b(k, l);
    RowAdjoint(r, r, X, Y, G, 0);
    var u, v := Times(G, ProductOf(r, X, Y)), Times(ProductOf(r, G, Flip(Y)), X);
    forall l | 0 <= l < r ensures u(0, l) == if l == j then b(k, l) else 0.0 {
      RightBracket(b, x, m, k, j, l, X, Y);
    }
    forall p | 0 <= p < r ensures v(0, p) == if p == k then Entry(m, p, j) else 0.0 {
      SumExt(r, l => G(0, l) * Flip(Y)(l, p), l => b(k, l) * Entry(x, l, p));
      SameProduct(Product(r, G, Flip(Y), 0, p), Entry(m, p, j), Unit(k, p), Entry(m, p, j));
    }
    UnitSums(r, l => b(k, l), l => u(0, l), j);
    UnitSums(r, p => Entry(m, p, j), p => v(0, p), k);
  }

  /** Main result: an exact elimination yields a two-sided inverse. */
  lemma ExactInverseIsTwoSided(m: Mat)
    requires Square(m, |m|) && Eliminated(m).Some? && Eliminated(m).value.exact
    ensures LeftInverse(Eliminated(m).value.inv, m) && LeftInverse(m, Eliminated(m).value.inv)
  {
    var x, r := Eliminated(m).value.inv, |m|;
    ExactEliminationInverts(m);
    var b := IdentityUndone(r);
    b := ColumnsUndone(b, Work(m, Identity(r), true), r, r);
    forall k, j | 0 <= k < r && 0 <= j < r ensures RowTimes(m[k], x, j) == Unit(k, j) {
      forall l | 0 <= l < r ensures b(k, l) == At(m[k], l) {
        UndoneIsOriginal(b, x, m, k, l);
      }
      SumExt(r, l => b(k, l) * Entry(x, l, j), l => At(m[k], l) * Entry(x, l, j));
    }
  }

  // ---------------------------------------------------------------- the ridge ladder

  const RIDGES: seq<real> := [0.0, 0.00001, 0.0001, 0.001, 0.01]

  function Damped(d: real): (x: real)
    ensures 0.0 < x <= 10000.0
  {
    1.0 / (if d > 0.0001 then d else 0.0001)
  }

  function DampedRow(m: Mat, i: int): (row: seq<real>)
    ensures |row| == |m|
  {
    seq(|m|, j => if i == j then Damped(Entry(m, i, i)) else 0.0)
  }

  /** The damped diagonal used when every attempt fails. */
  function Fallback(m: Mat): (x: Mat)
    ensures Square(x, |m|)
  {
    seq(|m|, i => DampedRow(m, i))
  }

  function InverseFrom(m: Mat, k: nat): Mat
    requires k <= |RIDGES|
    decreases |RIDGES| - k
  {
    if k == |RIDGES| then Fallback(m)
    else
      match Eliminated(Ridge(m, RIDGES[k]))
      case Some(w) => w.inv
      case None => InverseFrom(m, k + 1)
  }

  /** Ridge `k` is the first that does not break down, `k == |RIDGES|` if all do. */
  ghost predicate FirstRidge(m: Mat, k: nat) {
    && k <= |RIDGES|
    && (forall j {:trigger RIDGES[j]} :: 0 <= j < k ==> Eliminated(Ridge(m, RIDGES[j])).None?)
    && (k < |RIDGES| ==> Eliminated(Ridge(m, RIDGES[k])).Some?)
  }

  lemma {:induction false} LadderStops(m: Mat, s: nat, k: nat)
    requires FirstRidge(m, k) && s <= k
    ensures InverseFrom(m, s) == if k < |RIDGES| then Eliminated(Ridge(m, RIDGES[k])).value.inv else Fallback(m)
    decreases k - s
  {
    if s < k {
      assert Eliminated(Ridge(m, RIDGES[s])).None?;
      LadderStops(m, s + 1, k);
    }
  }

  lemma RidgeSquare(m: Mat, shift: real)
    requires Square(m, |m|)
    ensures Square(Ridge(m, shift), |m|)
  {
  }

  /** Main theorem. The result comes from the first ridge that does not break down; times the
      ridged matrix it is the reduced matrix, and it is a two-sided inverse of the ridged matrix
      whenever every factor left alone was exactly zero. */
  lemma InverseOfFirstRidge(m: Mat, k: nat)
    requires Square(m, |m|) && FirstRidge(m, k)
    ensures k == |RIDGES| ==> InverseFrom(m, 0) == Fallback(m)
    ensures k < |RIDGES| ==>
              var (ridged, w) := (Ridge(m, RIDGES[k]), Eliminated(Ridge(m, RIDGES[k])).value);
              && InverseFrom(m, 0) == w.inv && Fit(w, |m|)
              && (forall i, j :: 0 <= i < |m| && 0 <= j < |m| ==> RowTimes(w.inv[i], ridged, j) == w.a[i][j])
              && (w.exact ==> LeftInverse(w.inv, ridged) && LeftInverse(ridged, w.inv))
  {
    LadderStops(m, 0, k);
    if k < |RIDGES| {
      var ridged := Ridge(m, RIDGES[k]);
      RidgeSquare(m, RIDGES[k]);
      var w := Eliminated(ridged).value;
      ColumnsUnit(Work(ridged, Identity(|m|), true), |m|, |m|);
      forall i, j | 0 <= i < |m| && 0 <= j < |m| ensures RowTimes(w.inv[i], ridged, j) == w.a[i][j] {
        EliminationConserves(ridged, i, j);
      }
      if w.exact { ExactInverseIsTwoSided(ridged); }
    }
  }
}
