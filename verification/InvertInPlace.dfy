/** `invert_r_by_r` as the loops it is: two flat row-major buffers, reduced row by row in place. */
module InvertInPlace {
  import opened Sums
  import opened Grids
  import opened Places
  import opened Tensors
  import opened GaussJordan

  function RowsOf(s: seq<real>, r: nat): (m: Mat)
    ensures Square(m, r)
  {
    seq(r, i => RowFrom(s, r, i * r))
  }

  lemma RowBounds(r: nat, i: nat)
    requires i < r
    ensures 0 <= i * r <= i * r + r <= r * r
  {
    MulMonotone(i + 1, r, r);
  }

  lemma RowReplaced(s: seq<real>, t: seq<real>, r: nat, i: nat, row: seq<real>)
    requires |s| == r * r && i < r && |row| == r && Replaces(s, t, i * r, row)
    ensures RowsOf(t, r) == RowsOf(s, r)[i := row]
  {
    forall k | 0 <= k < r ensures RowFrom(t, r, k * r) == if k == i then row else RowFrom(s, r, k * r) {
      RowBounds(r, k);
      if k == i {
        ReplacedRow(s, t, r, k * r, row);
      } else {
        RowsDisjoint(r, i, k);
        KeptRow(s, t, r, k * r, i * r, row);
      }
    }
  }

  lemma CellOf(s: seq<real>, r: nat, i: nat, j: nat)
    requires |s| == r * r && i < r && j < r
    ensures 0 <= i * r + j < |s| && Entry(RowsOf(s, r), i, j) == s[i * r + j]
  {
    RowBounds(r, i);
  }

  // ---------------------------------------------------------------- row operations

  /** m[dst][j] -= f * m[src][j]. */
  method SubtractRow(m: array<real>, r: nat, dst: nat, f: real, src: nat)
    requires m.Length == r * r && dst < r && src < r && dst != src
    modifies m
    ensures RowsOf(m[..], r) == RowMinus(RowsOf(old(m[..]), r), dst, f, src)
  {
    var d, s := dst * r, src * r;
    RowBounds(r, dst);
    RowBounds(r, src);
    RowsDisjoint(r, dst, src);
    ghost var was := m[..];
    ghost var row := Minus(RowFrom(was, r, d), f, RowFrom(was, r, s));
    SubtractLoop(m, r, d, f, s, row);
    RowReplaced(was, m[..], r, dst, row);
  }

  method SubtractLoop(m: array<real>, r: nat, d: nat, f: real, s: nat, ghost row: seq<real>)
    requires d + r <= m.Length && s + r <= m.Length && (d + r <= s || s + r <= d)
    requires row == Minus(RowFrom(m[..], r, d), f, RowFrom(m[..], r, s))
    modifies m
    ensures Replaces(old(m[..]), m[..], d, row)
  {
    ghost var was := m[..];
    for j := 0 to r
      invariant forall p :: 0 <= p < m.Length && !(d <= p < d + j) ==> m[p] == was[p]
      invariant forall p :: d <= p < d + j ==> m[p] == row[p - d]
    {
      assert row[j] == was[d + j] - f * was[s + j];
      var y := m[s + j];
      assert y == was[s + j];
      m[d + j] := m[d + j] - f * y;
    }
  }

  /** m[c][j] *= s. */
  method ScaleRow(m: array<real>, r: nat, c: nat, s: real)
    requires m.Length == r * r && c < r
    modifies m
    ensures RowsOf(m[..], r) == RowScaled(RowsOf(old(m[..]), r), c, s)
  {
    var d := c * r;
    RowBounds(r, c);
    ghost var was := m[..];
    ghost var row := ScaleSeq(s, RowFrom(was, r, d));
    ScaleLoop(m, r, d, s, row);
    RowReplaced(was, m[..], r, c, row);
  }

  method ScaleLoop(m: array<real>, r: nat, d: nat, s: real, ghost row: seq<real>)
    requires d + r <= m.Length && row == ScaleSeq(s, RowFrom(m[..], r, d))
    modifies m
    ensures Replaces(old(m[..]), m[..], d, row)
  {
    ghost var was := m[..];
    for j := 0 to r
      invariant forall p :: 0 <= p < m.Length && !(d <= p < d + j) ==> m[p] == was[p]
      invariant forall p :: d <= p < d + j ==> m[p] == row[p - d]
    {
      assert row[j] == s * was[d + j];
      m[d + j] := m[d + j] * s;
    }
  }

  method SwapRows(m: array<real>, r: nat, i: nat, j: nat)
    requires m.Length == r * r && i < r && j < r && i != j
    modifies m
    ensures RowsOf(m[..], r) == Swapped(RowsOf(old(m[..]), r), i, j)
  {
    var x, y := i * r, j * r;
    RowBounds(r, i);
    RowBounds(r, j);
    RowsDisjoint(r, i, j);
    ghost var was := m[..];
    ghost var rowI, rowJ := RowFrom(was, r, x), RowFrom(was, r, y);
    SwapLoop(m, r, x, y, rowI, rowJ);
    ghost var mid := SwapSplits(was, m[..], r, x, y, rowI, rowJ);
    RowReplaced(was, mid, r, i, rowJ);
    RowReplaced(mid, m[..], r, j, rowI);
  }

  ghost predicate Exchanged(was: seq<real>, now: seq<real>, x: nat, y: nat, rowI: seq<real>, rowJ: seq<real>, n: nat)
    requires n <= |rowI| && n <= |rowJ|
  {
    && |was| == |now|
    && (forall p :: 0 <= p < |was| && !(x <= p < x + n) && !(y <= p < y + n) ==> now[p] == was[p])
    && (forall p :: x <= p < x + n && p < |was| ==> now[p] == rowJ[p - x])
    && (forall p :: y <= p < y + n && p < |was| ==> now[p] == rowI[p - y])
  }

  lemma SwapSplits(was: seq<real>, now: seq<real>, r: nat, x: nat, y: nat, rowI: seq<real>, rowJ: seq<real>) returns (mid: seq<real>)
    requires |rowI| == |rowJ| == r && x + r <= |was| && y + r <= |was| && (x + r <= y || y + r <= x)
    requires Exchanged(was, now, x, y, rowI, rowJ, r)
    ensures Replaces(was, mid, x, rowJ) && Replaces(mid, now, y, rowI)
  {
    mid := seq(|was|, p requires 0 <= p < |was| => if x <= p < x + r then rowJ[p - x] else was[p]);
  }

  method SwapLoop(m: array<real>, r: nat, x: nat, y: nat, ghost rowI: seq<real>, ghost rowJ: seq<real>)
    requires x + r <= m.Length && y + r <= m.Length && (x + r <= y || y + r <= x)
    requires rowI == RowFrom(m[..], r, x) && rowJ == RowFrom(m[..], r, y)
    modifies m
    ensures Exchanged(old(m[..]), m[..], x, y, rowI, rowJ, r)
  {
    ghost var was := m[..];
    for c := 0 to r
      invariant Exchanged(was, m[..], x, y, rowI, rowJ, c)
    {
      m[x + c], m[y + c] := m[y + c], m[x + c];
    }
  }

  // ---------------------------------------------------------------- one column

  method FindPivot(m: array<real>, r: nat, col: nat) returns (pivot: nat, maxVal: real)
    requires m.Length == r * r && col < r
    ensures pivot == PivotFrom(RowsOf(m[..], r), col, col + 1, col) && pivot < r
    ensures maxVal == Abs(Entry(RowsOf(m[..], r), pivot, col))
  {
    ghost var a := RowsOf(m[..], r);
    CellOf(m[..], r, col, col);
    pivot, maxVal := col, Abs(m[col * r + col]);
    for row := col + 1 to r
      invariant pivot < r && maxVal == Abs(Entry(a, pivot, col))
      invariant PivotFrom(a, col, row, pivot) == PivotFrom(a, col, col + 1, col)
    {
      CellOf(m[..], r, row, col);
      if Abs(m[row * r + col]) > maxVal {
        maxVal := Abs(m[row * r + col]);
        pivot := row;
      }
    }
  }

  method SwapBoth(a: array<real>, inv: array<real>, r: nat, col: nat, pivot: nat)
    requires a != inv && a.Length == inv.Length == r * r && col < r && pivot < r
    modifies a, inv
    ensures RowsOf(a[..], r) == Swapped(RowsOf(old(a[..]), r), col, pivot) && RowsOf(inv[..], r) == Swapped(RowsOf(old(inv[..]), r), col, pivot)
  {
    if pivot != col {
      SwapRows(a, r, col, pivot);
      SwapRows(inv, r, col, pivot);
    }
  }

  /** Clears the other rows of a normalised column. */
  method ClearColumn(a: array<real>, inv: array<real>, r: nat, col: nat, ghost w: Work)
    requires a != inv && a.Length == inv.Length == r * r && col < r
    requires RowsOf(a[..], r) == w.a && RowsOf(inv[..], r) == w.inv
    modifies a, inv
    ensures RowsOf(a[..], r) == ClearRows(w, col, r).a && RowsOf(inv[..], r) == ClearRows(w, col, r).inv
  {
    for row := 0 to r
      invariant RowsOf(a[..], r) == ClearRows(w, col, row).a && RowsOf(inv[..], r) == ClearRows(w, col, row).inv
    {
      if row != col {
        CellOf(a[..], r, row, col);
        var factor := a[row * r + col];
        if Abs(factor) > 0.000000000001 {
          SubtractRow(a, r, row, factor, col);
          SubtractRow(inv, r, row, factor, col);
        }
      }
    }
  }

  method EliminateColumn(a: array<real>, inv: array<real>, r: nat, col: nat, ghost w: Work) returns (ok: bool)
    requires a != inv && a.Length == inv.Length == r * r && col < r
    requires RowsOf(a[..], r) == w.a && RowsOf(inv[..], r) == w.inv
    modifies a, inv
    ensures ok == Normalised(w, col).Some?
    ensures ok ==> var z := ClearRows(Normalised(w, col).value, col, r);
                   RowsOf(a[..], r) == z.a && RowsOf(inv[..], r) == z.inv
  {
    var pivot, maxVal := FindPivot(a, r, col);
    if maxVal < 0.0000001 { return false; }
    SwapBoth(a, inv, r, col, pivot);
    CellOf(a[..], r, col, col);
    var invPivot := 1.0 / a[col * r + col];
    ScaleRow(a, r, col, invPivot);
    ScaleRow(inv, r, col, invPivot);
    ClearColumn(a, inv, r, col, Normalised(w, col).value);
    ok := true;
  }

  // ---------------------------------------------------------------- one ridge, all ridges

  /** Adds shift to the diagonal. */
  method AddRidge(a: array<real>, r: nat, shift: real)
    requires a.Length == r * r
    modifies a
    ensures RowsOf(a[..], r) == Ridge(RowsOf(old(a[..]), r), shift)
  {
    ghost var was := RowsOf(a[..], r);
    for i := 0 to r
      invariant RowsOf(a[..], r) == RidgeUpTo(was, shift, i)
    {
      ghost var before := a[..];
      CellOf(a[..], r, i, i);
      a[i * r + i] := a[i * r + i] + shift;
      RowBounds(r, i);
      ghost var row := RowFrom(a[..], r, i * r);
      RowReplaced(before, a[..], r, i, row);
      RidgedRow(was[i], row, shift, i);
    }
  }

  ghost function RidgeUpTo(m: Mat, shift: real, n: nat): Mat {
    seq(|m|, i requires 0 <= i < |m| => if i < n then RidgeRow(m[i], i, shift) else m[i])
  }

  lemma RidgedRow(was: seq<real>, row: seq<real>, shift: real, i: nat)
    requires i < |was| == |row| && row[i] == was[i] + shift
    requires forall j :: 0 <= j < |row| && j != i ==> row[j] == was[j]
    ensures row == seq(|was|, j => At(was, j) + shift * Unit(i, j))
  {
  }

  ghost function ZeroRow(r: nat): (row: seq<real>)
    ensures |row| == r && forall j :: 0 <= j < r ==> row[j] == 0.0
  {
    seq(r, j => 0.0)
  }

  ghost function ZeroMat(r: nat): (m: Mat)
    ensures Square(m, r)
  {
    seq(r, i => ZeroRow(r))
  }

  lemma IdentityIsRidgedZero(r: nat)
    ensures RidgeUpTo(ZeroMat(r), 1.0, r) == Identity(r)
  {
    forall i | 0 <= i < r ensures RidgeUpTo(ZeroMat(r), 1.0, r)[i] == Identity(r)[i] {
    }
  }

  lemma ZeroBuffer(s: seq<real>, r: nat)
    requires |s| == r * r && forall p :: 0 <= p < |s| ==> s[p] == 0.0
    ensures RowsOf(s, r) == RidgeUpTo(ZeroMat(r), 1.0, 0)
  {
    forall i | 0 <= i < r ensures RowsOf(s, r)[i] == ZeroMat(r)[i] {
      RowBounds(r, i);
    }
  }

  method IdentityBuffer(r: nat) returns (inv: array<real>)
    ensures fresh(inv) && inv.Length == r * r && RowsOf(inv[..], r) == Identity(r)
  {
    inv := new real[r * r](_ => 0.0);
    ZeroBuffer(inv[..], r);
    ghost var was := ZeroMat(r);
    for i := 0 to r
      invariant RowsOf(inv[..], r) == RidgeUpTo(was, 1.0, i)
    {
      ghost var before := inv[..];
      CellOf(before, r, i, i);
      inv[i * r + i] := 1.0;
      RowBounds(r, i);
      ghost var row := RowFrom(inv[..], r, i * r);
      RowReplaced(before, inv[..], r, i, row);
      RidgedRow(was[i], row, 1.0, i);
    }
    IdentityIsRidgedZero(r);
  }

  /** All columns. */
  method Reduce(a: array<real>, inv: array<real>, r: nat, ghost start: Work) returns (ok: bool)
    requires a != inv && a.Length == inv.Length == r * r
    requires RowsOf(a[..], r) == start.a && RowsOf(inv[..], r) == start.inv
    modifies a, inv
    ensures ok == Columns(start, r).Some?
    ensures ok ==> RowsOf(inv[..], r) == Columns(start, r).value.inv
  {
    ghost var w := start;
    for col := 0 to r
      invariant Columns(start, col) == Some(w) && |w.a| == |w.inv| == r
      invariant RowsOf(a[..], r) == w.a && RowsOf(inv[..], r) == w.inv
    {
      ok, w := StepColumn(a, inv, r, col, start, w);
      if !ok { return; }
    }
    ok := true;
  }

  /** One column, as a step of the whole elimination. */
  method StepColumn(a: array<real>, inv: array<real>, r: nat, col: nat, ghost start: Work, ghost w: Work) returns (ok: bool, ghost next: Work)
    requires a != inv && a.Length == inv.Length == r * r && col < r
    requires |start.a| == |start.inv| == r && Columns(start, col) == Some(w)
    requires RowsOf(a[..], r) == w.a && RowsOf(inv[..], r) == w.inv
    modifies a, inv
    ensures if ok then Columns(start, col + 1) == Some(next) && |next.a| == |next.inv| == r else Columns(start, r) == None
    ensures ok ==> RowsOf(a[..], r) == next.a && RowsOf(inv[..], r) == next.inv
  {
    ok := EliminateColumn(a, inv, r, col, w);
    NextColumn(start, w, col);
    next := if ok then ClearRows(Normalised(w, col).value, col, r) else w;
    if !ok { BreakdownStays(start, col + 1, r); }
  }

  lemma NextColumn(start: Work, w: Work, col: nat)
    requires col < |start.a| == |start.inv| && Columns(start, col) == Some(w)
    ensures |w.a| == |w.inv| == |start.a|
    ensures Columns(start, col + 1) ==
            if Normalised(w, col).None? then None else Some(ClearRows(Normalised(w, col).value, col, |start.a|))
  {
  }

  lemma NoRidge(m: Mat)
    ensures Ridge(m, 0.0) == m
  {
    forall i | 0 <= i < |m| ensures Ridge(m, 0.0)[i] == m[i] {
    }
  }

  /** One attempt with one ridge. */
  method Attempt(mat: seq<real>, r: nat, shift: real) returns (ok: bool, inv: array<real>)
    requires |mat| == r * r && shift >= 0.0
    ensures ok == Eliminated(Ridge(RowsOf(mat, r), shift)).Some?
    ensures ok ==> inv.Length == r * r
    ensures ok ==> RowsOf(inv[..], r) == Eliminated(Ridge(RowsOf(mat, r), shift)).value.inv
  {
    var a := new real[|mat|](p requires 0 <= p < |mat| => mat[p]);
    assert a[..] == mat;
    if shift > 0.0 { AddRidge(a, r, shift); } else { NoRidge(RowsOf(mat, r)); }
    inv := IdentityBuffer(r);
    ok := Reduce(a, inv, r, Work(Ridge(RowsOf(mat, r), shift), Identity(r), true));
  }

  /** The damped diagonal. */
  method FallbackBuffer(mat: seq<real>, r: nat) returns (x: array<real>)
    requires |mat| == r * r
    ensures x.Length == r * r && RowsOf(x[..], r) == Fallback(RowsOf(mat, r))
  {
    x := new real[r * r](_ => 0.0);
    ghost var want := Fallback(RowsOf(mat, r));
    for i := 0 to r
      invariant forall k {:trigger want[k]} :: 0 <= k < i ==> RowFrom(x[..], r, k * r) == want[k]
      invariant forall p :: i * r <= p < r * r ==> x[p] == 0.0
    {
      ghost var before := x[..];
      CellOf(mat, r, i, i);
      RowBounds(r, i);
      assert (i + 1) * r == i * r + r;
      var d := mat[i * r + i];
      x[i * r + i] := Damped(d);
      ghost var row := want[i];
      assert Replaces(before, x[..], i * r, row);
      RowReplaced(before, x[..], r, i, row);
      forall k | 0 <= k < i + 1 ensures RowFrom(x[..], r, k * r) == want[k] {
        assert RowsOf(x[..], r)[k] == RowsOf(before, r)[i := row][k];
      }
    }
  }

  /** `invert_r_by_r`. */
  method Invert(mat: seq<real>, r: nat) returns (x: array<real>)
    requires |mat| == r * r
    ensures x.Length == r * r && RowsOf(x[..], r) == InverseFrom(RowsOf(mat, r), 0)
  {
    ghost var m := RowsOf(mat, r);
    for k := 0 to |RIDGES|
      invariant InverseFrom(m, k) == InverseFrom(m, 0)
    {
      var ok, inv := Attempt(mat, r, RIDGES[k]);
      if ok { return inv; }
    }
    x := FallbackBuffer(mat, r);
  }

  lemma {:induction false} BreakdownStays(w: Work, n: nat, m: nat)
    requires n <= m <= |w.a| == |w.inv| && Columns(w, n).None?
    ensures Columns(w, m).None?
  {
    if n < m { BreakdownStays(w, n, m - 1); }
  }
}
