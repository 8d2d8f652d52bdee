/** The inversion routine by its numbers: the pivot and its threshold, what one column's elimination
    leaves in every cell, the five ridges in the order they are tried, and the damped diagonal. */
module InverseValues {
  import opened Sums
  import opened Grids
  import opened Tensors
  import opened GaussJordan

  // ---------------------------------------------------------------- one column

  /** The earliest of the rows `best` and `row..` that no other of them exceeds. */
  lemma {:induction false} PivotIsFirst(a: Mat, col: nat, row: nat, best: nat)
    requires best < row <= |a|
    ensures var p := PivotFrom(a, col, row, best);
            && (p != best ==> Abs(Entry(a, best, col)) < Abs(Entry(a, p, col)))
            && forall i :: row <= i < p ==> Abs(Entry(a, i, col)) < Abs(Entry(a, p, col))
    decreases |a| - row
  {
    if row < |a| {
      var next := if Abs(Entry(a, row, col)) > Abs(Entry(a, best, col)) then row else best;
      PivotIsFirst(a, col, row + 1, next);
      PivotIsLargest(a, col, row + 1, next);
    }
  }

  /** A column breaks down exactly when everything from its diagonal down is below 1e-7. */
  lemma BreaksDownIff(w: Work, r: nat, col: nat)
    requires Fit(w, r) && col < r
    ensures Normalised(w, col).None? <==> forall i :: col <= i < r ==> Abs(Entry(w.a, i, col)) < 0.0000001
  {
    PivotIsLargest(w.a, col, col + 1, col);
  }

  /** Row `i` before the column: the swap exchanges the pivot row with the diagonal one. */
  function Source(i: nat, col: nat, p: nat): nat {
    if i == col then p else if i == p then col else i
  }

  /** What row `i` loses: its own entry in the column, unless that is at most 1e-12. */
  function Factor(a: Mat, i: nat, col: nat): real {
    if Abs(Entry(a, i, col)) > 0.000000000001 then Entry(a, i, col) else 0.0
  }

  /** `z` is `x` less `f` times `y`. */
  predicate Subtracted(z: real, x: real, f: real, y: real) {
    z == x - f * y
  }

  /** `z` is `x` divided by `d`. */
  predicate Divided(z: real, d: real, x: real) {
    z * d == x
  }

  lemma NothingSubtracted(x: real, y: real)
    ensures Subtracted(x, x, 0.0, y)
  {
  }

  lemma RowMinusCell(m: Mat, r: nat, n: nat, f: real, c: nat, i: nat, j: nat)
    requires Square(m, r) && n < r && c < r && i < r && j < r
    ensures if i == n then Subtracted(Entry(RowMinus(m, n, f, c), i, j), Entry(m, i, j), f, Entry(m, c, j))
            else Entry(RowMinus(m, n, f, c), i, j) == Entry(m, i, j)
  {
    if i == n { assert RowMinus(m, n, f, c)[i][j] == At(m[n], j) - f * At(m[c], j); }
  }

  /** A cell after the rows before `n` were cleared: those have lost their factor times the pivot row. */
  ghost predicate CellCleared(x: Mat, z: Mat, a: Mat, col: nat, n: nat, i: nat, j: nat) {
    if i < n && i != col then Subtracted(Entry(z, i, j), Entry(x, i, j), Factor(a, i, col), Entry(x, col, j))
    else Entry(z, i, j) == Entry(x, i, j)
  }

  lemma RowCleared(w: Work, r: nat, col: nat, i: nat, j: nat)
    requires Fit(w, r) && col < r && i < r && i != col && j < r
    ensures var z := ClearRow(w, col, i); var f := Factor(w.a, i, col);
            && Subtracted(Entry(z.a, i, j), Entry(w.a, i, j), f, Entry(w.a, col, j))
            && Subtracted(Entry(z.inv, i, j), Entry(w.inv, i, j), f, Entry(w.inv, col, j))
  {
    var f := Entry(w.a, i, col);
    RowMinusCell(w.a, r, i, f, col, i, j);
    RowMinusCell(w.inv, r, i, f, col, i, j);
    NothingSubtracted(Entry(w.a, i, j), Entry(w.a, col, j));
    NothingSubtracted(Entry(w.inv, i, j), Entry(w.inv, col, j));
  }

  lemma OtherRowKept(w: Work, r: nat, col: nat, n: nat, i: nat)
    requires Fit(w, r) && col < r && n < r && i < r && (i != n || i == col)
    ensures ClearRow(w, col, n).a[i] == w.a[i] && ClearRow(w, col, n).inv[i] == w.inv[i]
  {
  }

  ghost predicate BothCleared(w: Work, z: Work, col: nat, n: nat, i: nat, j: nat) {
    CellCleared(w.a, z.a, w.a, col, n, i, j) && CellCleared(w.inv, z.inv, w.a, col, n, i, j)
  }

  lemma OneMoreCleared(w: Work, p: Work, r: nat, col: nat, n: nat, i: nat, j: nat)
    requires Fit(w, r) && Fit(p, r) && col < r && n < r && i < r && j < r && BothCleared(w, p, col, n, i, j)
    requires i == n && i != col ==> BothCleared(w, p, col, n, col, j) && CellCleared(w.a, p.a, w.a, col, n, i, col)
    ensures BothCleared(w, ClearRow(p, col, n), col, n + 1, i, j)
  {
    if i == n && i != col { RowCleared(p, r, col, i, j); } else { OtherRowKept(p, r, col, n, i); }
  }

  lemma {:induction false} RowsCleared(w: Work, r: nat, col: nat, n: nat, i: nat, j: nat)
    requires Fit(w, r) && col < r && n <= r && i < r && j < r
    ensures Fit(ClearRows(w, col, n), r) && BothCleared(w, ClearRows(w, col, n), col, n, i, j)
  {
    FitRows(w, r, col, n);
    if n > 0 {
      RowsCleared(w, r, col, n - 1, i, j);
      RowsCleared(w, r, col, n - 1, col, j);
      RowsCleared(w, r, col, n - 1, i, col);
      OneMoreCleared(w, ClearRows(w, col, n - 1), r, col, n - 1, i, j);
    }
  }

  lemma Quotient(a: real, s: real, x: real)
    requires a != 0.0 && s == 1.0 / a
    ensures Divided(s * x, a, x)
  {
    assert s * a == 1.0;
    assert s * x * a == (s * a) * x;
  }

  /** A cell after the swap and the division of the pivot row. */
  lemma SwappedCell(x: Mat, r: nat, col: nat, p: nat, d: real, s: real, i: nat, j: nat)
    requires Square(x, r) && col <= p < r && i < r && j < r && d != 0.0 && s == 1.0 / d
    ensures var z := RowScaled(Swapped(x, col, p), col, s);
            if i == col then Divided(Entry(z, i, j), d, Entry(x, p, j)) else Entry(z, i, j) == Entry(x, Source(i, col, p), j)
  {
    if i == col {
      ScaledCell(x[p], s, j);
      Quotient(d, s, x[p][j]);
    }
  }

  lemma ScaledCell(row: seq<real>, s: real, j: nat)
    requires j < |row|
    ensures At(ScaleSeq(s, row), j) == s * row[j]
  {
  }

  /** The pivot row, brought to the diagonal and divided by the pivot; the other rows only moved. */
  ghost predicate CellMoved(x: Mat, z: Mat, a: Mat, col: nat, p: nat, i: nat, j: nat) {
    if i == col then Divided(Entry(z, i, j), Entry(a, p, col), Entry(x, p, j)) else Entry(z, i, j) == Entry(x, Source(i, col, p), j)
  }

  lemma RowsNormalised(w: Work, r: nat, col: nat, i: nat, j: nat)
    requires Fit(w, r) && col < r && i < r && j < r && Normalised(w, col).Some?
    ensures var q := Normalised(w, col).value; var p := PivotFrom(w.a, col, col + 1, col);
            Fit(q, r) && col <= p < r && CellMoved(w.a, q.a, w.a, col, p, i, j) && CellMoved(w.inv, q.inv, w.a, col, p, i, j)
  {
    var p := PivotFrom(w.a, col, col + 1, col);
    PivotIsLargest(w.a, col, col + 1, col);
    var d := Entry(Swapped(w.a, col, p), col, col);
    assert d == Entry(w.a, p, col);
    SwappedCell(w.a, r, col, p, d, 1.0 / d, i, j);
    SwappedCell(w.inv, r, col, p, d, 1.0 / d, i, j);
    FitKept(w, r, col);
  }

  /** Cell (i, j) of one matrix after the column: the pivot row is divided by the pivot; any other row,
      from where the swap took it, loses its factor times the new pivot row. */
  ghost predicate CellReduced(x: Mat, z: Mat, a: Mat, col: nat, p: nat, i: nat, j: nat) {
    if i == col then Divided(Entry(z, i, j), Entry(a, p, col), Entry(x, p, j))
    else Subtracted(Entry(z, i, j), Entry(x, Source(i, col, p), j), Factor(a, Source(i, col, p), col), Entry(z, col, j))
  }

  lemma CellSteps(x: Mat, y: Mat, z: Mat, a: Mat, b: Mat, r: nat, col: nat, p: nat, i: nat, j: nat)
    requires col < r && i < r && CellMoved(x, y, a, col, p, i, j) && (i != col ==> CellMoved(a, b, a, col, p, i, col))
    requires CellCleared(y, z, b, col, r, i, j) && CellCleared(y, z, b, col, r, col, j)
    ensures CellReduced(x, z, a, col, p, i, j)
  {
  }

  ghost predicate BothReduced(w: Work, z: Work, col: nat, p: nat, i: nat, j: nat) {
    CellReduced(w.a, z.a, w.a, col, p, i, j) && CellReduced(w.inv, z.inv, w.a, col, p, i, j)
  }

  lemma ColumnCell(w: Work, r: nat, col: nat, i: nat, j: nat)
    requires Fit(w, r) && col < r && i < r && j < r && Normalised(w, col).Some?
    ensures BothReduced(w, ClearRows(Normalised(w, col).value, col, r), col, PivotFrom(w.a, col, col + 1, col), i, j)
  {
    var p, q, z := PivotFrom(w.a, col, col + 1, col), Normalised(w, col).value, ClearRows(Normalised(w, col).value, col, r);
    RowsNormalised(w, r, col, i, j);
    RowsNormalised(w, r, col, i, col);
    RowsCleared(q, r, col, r, i, j);
    RowsCleared(q, r, col, r, col, j);
    CellSteps(w.a, q.a, z.a, w.a, q.a, r, col, p, i, j);
    CellSteps(w.inv, q.inv, z.inv, w.a, q.a, r, col, p, i, j);
  }

  /** `p` is the first row of greatest magnitude from the diagonal down, at least 1e-7. */
  ghost predicate IsPivot(a: Mat, r: nat, col: nat, p: nat) {
    && col <= p < r && Abs(Entry(a, p, col)) >= 0.0000001
    && (forall i :: col <= i < r ==> Abs(Entry(a, i, col)) <= Abs(Entry(a, p, col)))
    && (forall i :: col <= i < p ==> Abs(Entry(a, i, col)) < Abs(Entry(a, p, col)))
  }

  lemma PivotIs(w: Work, r: nat, col: nat)
    requires Fit(w, r) && col < r && Normalised(w, col).Some?
    ensures IsPivot(w.a, r, col, PivotFrom(w.a, col, col + 1, col))
  {
    PivotIsLargest(w.a, col, col + 1, col);
    PivotIsFirst(w.a, col, col + 1, col);
  }

  /** One column, cell by cell. */
  lemma ColumnReduced(w: Work, r: nat, col: nat) returns (p: nat)
    requires Fit(w, r) && col < r && Normalised(w, col).Some?
    ensures IsPivot(w.a, r, col, p)
    ensures forall i: nat, j: nat :: i < r && j < r ==> BothReduced(w, ClearRows(Normalised(w, col).value, col, r), col, p, i, j)
  {
    p := PivotFrom(w.a, col, col + 1, col);
    PivotIs(w, r, col);
    forall i: nat, j: nat | i < r && j < r ensures BothReduced(w, ClearRows(Normalised(w, col).value, col, r), col, p, i, j) {
      ColumnCell(w, r, col, i, j);
    }
  }

  /** After `n` columns the elimination stands at `w`, and everything left of the next one is negligible. */
  ghost predicate Stuck(m: Mat, n: nat) {
    n < |m| && var w := Columns(Work(m, Identity(|m|), true), n);
    w.Some? && forall i :: n <= i < |m| ==> Abs(Entry(w.value.a, i, n)) < 0.0000001
  }

  lemma StuckHere(m: Mat, n: nat)
    requires Square(m, |m|) && n < |m| && Columns(Work(m, Identity(|m|), true), n).Some?
    ensures Normalised(Columns(Work(m, Identity(|m|), true), n).value, n).None? <==> Stuck(m, n)
  {
    ColumnsUnit(Work(m, Identity(|m|), true), |m|, n);
    BreaksDownIff(Columns(Work(m, Identity(|m|), true), n).value, |m|, n);
  }

  ghost predicate StuckBefore(m: Mat, n: nat) {
    exists k: nat :: k < n && Stuck(m, k)
  }

  lemma StuckOneMore(m: Mat, n: nat)
    ensures StuckBefore(m, n + 1) <==> StuckBefore(m, n) || Stuck(m, n)
  {
  }

  lemma ColumnsOneMore(w: Work, n: nat)
    requires n < |w.a| == |w.inv|
    ensures Columns(w, n + 1).None? <==> Columns(w, n).None? || Normalised(Columns(w, n).value, n).None?
  {
  }

  /** The elimination fails exactly when some column finds nothing but negligible entries. */
  lemma {:induction false} StuckIff(m: Mat, n: nat)
    requires Square(m, |m|) && n <= |m|
    ensures Columns(Work(m, Identity(|m|), true), n).None? <==> StuckBefore(m, n)
  {
    if n > 0 {
      StuckIff(m, n - 1);
      StuckOneMore(m, n - 1);
      ColumnsOneMore(Work(m, Identity(|m|), true), n - 1);
      if Columns(Work(m, Identity(|m|), true), n - 1).Some? { StuckHere(m, n - 1); }
      StuckStands(m, n - 1);
    }
  }

  lemma StuckStands(m: Mat, n: nat)
    ensures Stuck(m, n) ==> Columns(Work(m, Identity(|m|), true), n).Some?
  {
  }

  // ---------------------------------------------------------------- the ladder

  /** `x` is `m` with `shift` added along the diagonal. */
  ghost predicate Shifted(m: Mat, shift: real, x: Mat) {
    && Square(x, |m|)
    && forall i, j :: 0 <= i < |m| && 0 <= j < |m| ==> Entry(x, i, j) == Entry(m, i, j) + (if i == j then shift else 0.0)
  }

  lemma RidgeShifts(m: Mat, shift: real)
    requires Square(m, |m|)
    ensures Shifted(m, shift, Ridge(m, shift))
  {
    var x := Ridge(m, shift);
    forall i, j | 0 <= i < |m| && 0 <= j < |m| ensures Entry(x, i, j) == Entry(m, i, j) + (if i == j then shift else 0.0) {
      assert x[i] == RidgeRow(m[i], i, shift);
    }
  }

  /** `x` is diagonal, each entry the reciprocal of the matrix's own but of at least 1e-4. */
  ghost predicate DampedDiagonal(m: Mat, x: Mat) {
    && Square(x, |m|)
    && (forall i, j :: 0 <= i < |m| && 0 <= j < |m| && i != j ==> Entry(x, i, j) == 0.0)
    && forall i :: 0 <= i < |m| ==>
         Entry(x, i, i) * (if Entry(m, i, i) > 0.0001 then Entry(m, i, i) else 0.0001) == 1.0
  }

  lemma FallbackDamped(m: Mat)
    ensures DampedDiagonal(m, Fallback(m))
  {
    var x := Fallback(m);
    forall i | 0 <= i < |m|
      ensures Entry(x, i, i) * (if Entry(m, i, i) > 0.0001 then Entry(m, i, i) else 0.0001) == 1.0
    {
      assert x[i] == DampedRow(m, i);
      Reciprocal(if Entry(m, i, i) > 0.0001 then Entry(m, i, i) else 0.0001);
    }
    forall i, j | 0 <= i < |m| && 0 <= j < |m| && i != j ensures Entry(x, i, j) == 0.0 {
      assert x[i] == DampedRow(m, i);
    }
  }

  /** The matrix itself is tried first, then with 1e-5, 1e-4, 1e-3 and 1e-2 on the diagonal: the result
      is the first elimination that goes through, and the damped diagonal when none does. */
  lemma LadderIs(m: Mat) returns (m1: Mat, m2: Mat, m3: Mat, m4: Mat, x: Mat)
    requires Square(m, |m|)
    ensures Shifted(m, 0.00001, m1) && Shifted(m, 0.0001, m2) && Shifted(m, 0.001, m3) && Shifted(m, 0.01, m4) && DampedDiagonal(m, x)
    ensures InverseFrom(m, 0) ==
            if Eliminated(m).Some? then Eliminated(m).value.inv
            else if Eliminated(m1).Some? then Eliminated(m1).value.inv
            else if Eliminated(m2).Some? then Eliminated(m2).value.inv
            else if Eliminated(m3).Some? then Eliminated(m3).value.inv
            else if Eliminated(m4).Some? then Eliminated(m4).value.inv
            else x
  {
    m1, m2, m3, m4, x := Ridge(m, 0.00001), Ridge(m, 0.0001), Ridge(m, 0.001), Ridge(m, 0.01), Fallback(m);
    RidgeShifts(m, 0.0);
    RidgeShifts(m, 0.00001);
    RidgeShifts(m, 0.0001);
    RidgeShifts(m, 0.001);
    RidgeShifts(m, 0.01);
    FallbackDamped(m);
    UnshiftedIs(m, Ridge(m, 0.0));
    LadderFrom(m, 4);
    LadderFrom(m, 3);
    LadderFrom(m, 2);
    LadderFrom(m, 1);
    LadderFrom(m, 0);
  }

  lemma UnshiftedIs(m: Mat, x: Mat)
    requires Square(m, |m|) && Shifted(m, 0.0, x)
    ensures x == m
  {
    forall i | 0 <= i < |m| ensures x[i] == m[i] {
      forall j | 0 <= j < |m| ensures x[i][j] == m[i][j] {
        assert Entry(x, i, j) == Entry(m, i, j) + (if i == j then 0.0 else 0.0);
      }
    }
  }

  lemma LadderFrom(m: Mat, k: nat)
    requires k < 5
    ensures var shift := if k == 0 then 0.0 else if k == 1 then 0.00001 else if k == 2 then 0.0001 else if k == 3 then 0.001 else 0.01;
            InverseFrom(m, k) == if Eliminated(Ridge(m, shift)).Some? then Eliminated(Ridge(m, shift)).value.inv
                                 else if k == 4 then Fallback(m) else InverseFrom(m, k + 1)
  {
  }
}
