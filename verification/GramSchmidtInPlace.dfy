/** `orthogonalize_columns` as loops over a flat row-major buffer. */
module GramSchmidtInPlace {
  import opened Sums
  import opened Places
  import opened GaussJordan
  import opened GramSchmidt

  function ColumnAt(s: seq<real>, rows: nat, rank: nat, k: nat): (c: seq<real>)
    ensures |c| == rows && forall i :: 0 <= i < rows ==> c[i] == At(s, PlaceOf(i, rank, k))
  {
    seq(rows, i requires 0 <= i => At(s, PlaceOf(i, rank, k)))
  }

  function ColumnsOf(s: seq<real>, rows: nat, rank: nat): (cols: seq<seq<real>>)
    ensures |cols| == rank && SameHeight(cols, rows)
  {
    seq(rank, k requires 0 <= k => ColumnAt(s, rows, rank, k))
  }

  /** `t` is `s` with the first `n` cells of column `k` replaced. */
  ghost predicate ReplacesColumn(s: seq<real>, t: seq<real>, rank: nat, k: nat, col: seq<real>, n: nat)
    requires n <= |col|
  {
    && |s| == |t|
    && forall i: nat, j: nat {:trigger PlaceOf(i, rank, j)} :: j < rank ==>
         At(t, PlaceOf(i, rank, j)) == if j == k && i < n then col[i] else At(s, PlaceOf(i, rank, j))
  }

  lemma ColumnReplaced(s: seq<real>, t: seq<real>, rows: nat, rank: nat, k: nat, col: seq<real>)
    requires k < rank && |col| == rows && ReplacesColumn(s, t, rank, k, col, rows)
    ensures ColumnsOf(t, rows, rank) == ColumnsOf(s, rows, rank)[k := col]
  {
    forall j | 0 <= j < rank ensures ColumnAt(t, rows, rank, j) == if j == k then col else ColumnAt(s, rows, rank, j) {
    }
  }

  /** Writing one cell of a column. */
  lemma CellReplaced(s: seq<real>, t: seq<real>, u: seq<real>, rank: nat, k: nat, col: seq<real>, n: nat)
    requires k < rank && n < |col| && ReplacesColumn(s, t, rank, k, col, n)
    requires PlaceOf(n, rank, k) < |t| && u == t[PlaceOf(n, rank, k) := col[n]]
    ensures ReplacesColumn(s, u, rank, k, col, n + 1)
  {
    forall i: nat, j: nat | j < rank
      ensures At(u, PlaceOf(i, rank, j)) == if j == k && i < n + 1 then col[i] else At(s, PlaceOf(i, rank, j))
    {
      if i != n || j != k { PlacesApart(rank, i, j, n, k); }
    }
  }

  function Partial(a: seq<real>, b: seq<real>, n: nat): real {
    Sum(n, i => At(a, i) * At(b, i))
  }

  lemma PartialGrows(a: seq<real>, b: seq<real>, i: nat, x: real, y: real)
    requires At(a, i) == x && At(b, i) == y
    ensures Partial(a, b, i + 1) == Partial(a, b, i) + x * y
  {
  }

  lemma PartialIsDot(a: seq<real>, b: seq<real>)
    ensures Partial(a, b, |a|) == Dot(a, b)
  {
    SumExt(|a|, i => At(a, i) * At(b, i), i => At(a, i) * At(b, i));
  }

  /** Where a cell of a column lies. */
  lemma CellIs(s: seq<real>, rows: nat, rank: nat, i: nat, k: nat, col: seq<real>)
    requires |s| == rows * rank && i < rows && k < rank && col == ColumnAt(s, rows, rank, k)
    ensures i * rank + k == PlaceOf(i, rank, k) < |s| && s[i * rank + k] == At(col, i) == At(s, PlaceOf(i, rank, k))
  {
    PlaceRange(rows, rank, i, k);
  }

  method ColumnDot(m: array<real>, rows: nat, rank: nat, j: nat, k: nat) returns (dot: real)
    requires m.Length == rows * rank && j < rank && k < rank
    ensures dot == Dot(ColumnAt(m[..], rows, rank, j), ColumnAt(m[..], rows, rank, k))
  {
    ghost var a, b := ColumnAt(m[..], rows, rank, j), ColumnAt(m[..], rows, rank, k);
    dot := 0.0;
    for i := 0 to rows
      invariant dot == Partial(a, b, i)
    {
      CellIs(m[..], rows, rank, i, j, a);
      CellIs(m[..], rows, rank, i, k, b);
      var x, y := m[i * rank + j], m[i * rank + k];
      PartialGrows(a, b, i, x, y);
      dot := dot + x * y;
    }
    PartialIsDot(a, b);
  }

  lemma MinusAt(v: seq<real>, f: real, w: seq<real>, i: nat, x: real, y: real)
    requires i < |v| && At(v, i) == x && At(w, i) == y
    ensures Minus(v, f, w)[i] == x - f * y
  {
  }

  /** m[i][k] -= dot * m[i][j]. */
  method SubtractColumn(m: array<real>, rows: nat, rank: nat, j: nat, k: nat, dot: real)
    requires m.Length == rows * rank && j < rank && k < rank && j != k
    modifies m
    ensures ColumnsOf(m[..], rows, rank) == var cols := ColumnsOf(old(m[..]), rows, rank); cols[k := Minus(cols[k], dot, cols[j])]
  {
    ghost var was := m[..];
    ghost var a, b := ColumnAt(was, rows, rank, j), ColumnAt(was, rows, rank, k);
    ghost var col := Minus(b, dot, a);
    SubtractColumnLoop(m, rows, rank, j, k, dot, a, b, col);
    ColumnReplaced(was, m[..], rows, rank, k, col);
  }

  /** Row `n` has not been written yet. */
  lemma StillThere(s: seq<real>, t: seq<real>, rank: nat, k: nat, col: seq<real>, n: nat, j: nat)
    requires n < |col| && j < rank && ReplacesColumn(s, t, rank, k, col, n)
    ensures |s| == |t| && At(t, PlaceOf(n, rank, j)) == At(s, PlaceOf(n, rank, j))
  {
  }

  lemma UnchangedCell(s: seq<real>, t: seq<real>, rows: nat, rank: nat, n: nat, j: nat, a: seq<real>)
    requires |s| == |t| == rows * rank && n < rows && j < rank && a == ColumnAt(s, rows, rank, j)
    requires At(t, PlaceOf(n, rank, j)) == At(s, PlaceOf(n, rank, j))
    ensures n * rank + j == PlaceOf(n, rank, j) < |t| && t[n * rank + j] == At(a, n)
  {
    PlaceRange(rows, rank, n, j);
    SameCell(t, s, n * rank + j, PlaceOf(n, rank, j), rows, rank, n, j, a);
  }

  lemma SameCell(t: seq<real>, s: seq<real>, p: nat, q: nat, rows: nat, rank: nat, n: nat, j: nat, a: seq<real>)
    requires p == q == PlaceOf(n, rank, j) < |t| == |s| && At(t, q) == At(s, q) && n < rows && a == ColumnAt(s, rows, rank, j)
    ensures t[p] == At(a, n)
  {
  }

  /** One row of the loop. */
  method SubtractCell(m: array<real>, rows: nat, rank: nat, j: nat, k: nat, i: nat, dot: real, ghost was: seq<real>, ghost a: seq<real>, ghost b: seq<real>, ghost col: seq<real>)
    requires m.Length == rows * rank && j < rank && k < rank && j != k && i < rows && |was| == rows * rank
    requires a == ColumnAt(was, rows, rank, j) && b == ColumnAt(was, rows, rank, k) && col == Minus(b, dot, a)
    requires ReplacesColumn(was, m[..], rank, k, col, i)
    modifies m
    ensures ReplacesColumn(was, m[..], rank, k, col, i + 1)
  {
    StillThere(was, m[..], rank, k, col, i, j);
    StillThere(was, m[..], rank, k, col, i, k);
    UnchangedCell(was, m[..], rows, rank, i, j, a);
    UnchangedCell(was, m[..], rows, rank, i, k, b);
    var x, y := m[i * rank + k], m[i * rank + j];
    MinusAt(b, dot, a, i, x, y);
    ghost var before := m[..];
    m[i * rank + k] := x - dot * y;
    CellReplaced(was, before, m[..], rank, k, col, i);
  }

  method SubtractColumnLoop(m: array<real>, rows: nat, rank: nat, j: nat, k: nat, dot: real, ghost a: seq<real>, ghost b: seq<real>, ghost col: seq<real>)
    requires m.Length == rows * rank && j < rank && k < rank && j != k
    requires a == ColumnAt(m[..], rows, rank, j) && b == ColumnAt(m[..], rows, rank, k) && col == Minus(b, dot, a)
    modifies m
    ensures ReplacesColumn(old(m[..]), m[..], rank, k, col, rows)
  {
    ghost var was := m[..];
    for i := 0 to rows
      invariant ReplacesColumn(was, m[..], rank, k, col, i)
    {
      SubtractCell(m, rows, rank, j, k, i, dot, was, a, b, col);
    }
  }

  /** m[i][k] /= norm. */
  method DivideColumn(m: array<real>, rows: nat, rank: nat, k: nat, norm: real)
    requires m.Length == rows * rank && k < rank && norm != 0.0
    modifies m
    ensures ColumnsOf(m[..], rows, rank) == var cols := ColumnsOf(old(m[..]), rows, rank); cols[k := Divided(cols[k], norm)]
  {
    ghost var was := m[..];
    ghost var cols := ColumnsOf(was, rows, rank);
    ghost var col := Divided(cols[k], norm);
    for i := 0 to rows
      invariant ReplacesColumn(was, m[..], rank, k, col, i)
    {
      PlaceRange(rows, rank, i, k);
      assert At(m[..], PlaceOf(i, rank, k)) == At(was, PlaceOf(i, rank, k));
      assert col[i] == m[i * rank + k] / norm;
      ghost var before := m[..];
      m[i * rank + k] := m[i * rank + k] / norm;
      CellReplaced(was, before, m[..], rank, k, col, i);
    }
    ColumnReplaced(was, m[..], rows, rank, k, col);
  }

  /** One column: orthogonalise against the previous ones, then normalise. */
  /** The inner loop: subtract the projections on the earlier columns. */
  method ReduceColumn(m: array<real>, rows: nat, rank: nat, k: nat, ghost cols: seq<seq<real>>)
    requires m.Length == rows * rank && k < rank && cols == ColumnsOf(m[..], rows, rank)
    modifies m
    ensures ColumnsOf(m[..], rows, rank) == cols[k := Residual(cols, cols[k], k)]
  {
    for j := 0 to k
      invariant ColumnsOf(m[..], rows, rank) == cols[k := Residual(cols, cols[k], j)]
    {
      SubtractProjection(m, rows, rank, k, j, cols, Residual(cols, cols[k], j));
    }
  }

  method SubtractProjection(m: array<real>, rows: nat, rank: nat, k: nat, j: nat, ghost cols: seq<seq<real>>, ghost v: seq<real>)
    requires m.Length == rows * rank && j < k < rank && |cols| == rank && |v| == |cols[j]| && ColumnsOf(m[..], rows, rank) == cols[k := v]
    modifies m
    ensures ColumnsOf(m[..], rows, rank) == cols[k := Minus(v, Dot(cols[j], v), cols[j])]
  {
    ghost var now := ColumnsOf(m[..], rows, rank);
    assert now[j] == cols[j] && now[k] == v;
    var dot := ColumnDot(m, rows, rank, j, k);
    SubtractColumn(m, rows, rank, j, k, dot);
  }

  method ProcessColumn(m: array<real>, rows: nat, rank: nat, k: nat, root: real -> real)
    requires m.Length == rows * rank && k < rank
    modifies m
    ensures ColumnsOf(m[..], rows, rank) ==
            var cols := ColumnsOf(old(m[..]), rows, rank);
            var v := Residual(cols, cols[k], k);
            cols[k := Divided(v, Norm(root, v))]
  {
    ghost var cols := ColumnsOf(m[..], rows, rank);
    ReduceColumn(m, rows, rank, k, cols);
    assert ColumnsOf(m[..], rows, rank)[k] == ColumnAt(m[..], rows, rank, k);
    var normSq := ColumnDot(m, rows, rank, k, k);
    var norm := if root(normSq) > EPS then root(normSq) else EPS;
    DivideColumn(m, rows, rank, k, norm);
  }

  /** `orthogonalize_columns`. */
  method OrthogonalizeColumns(m: array<real>, rows: nat, rank: nat, root: real -> real)
    requires m.Length == rows * rank
    modifies m
    ensures ColumnsOf(m[..], rows, rank) == Orthogonalised(root, ColumnsOf(old(m[..]), rows, rank), rank)
  {
    ghost var cols := ColumnsOf(m[..], rows, rank);
    for k := 0 to rank
      invariant ColumnsOf(m[..], rows, rank) == Orthogonalised(root, cols, k)
    {
      ProcessColumn(m, rows, rank, k, root);
    }
  }
}
