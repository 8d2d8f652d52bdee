/** Rows of equal width in one flat buffer: where a row starts, and what replacing one row keeps. */
module Places {
  import opened Sums
  import opened Grids

  /** Column `c` of row `row`, by counting rows. */
  function PlaceOf(row: nat, stride: nat, c: nat): nat {
    if row == 0 then c else stride + PlaceOf(row - 1, stride, c)
  }

  lemma {:induction false} PlaceIs(row: nat, stride: nat, c: nat)
    ensures PlaceOf(row, stride, c) == row * stride + c
  {
    if row > 0 {
      PlaceIs(row - 1, stride, c);
      assert row * stride == (row - 1) * stride + stride;
    }
  }

  lemma PlaceRange(rows: nat, stride: nat, row: nat, c: nat)
    requires row < rows && c < stride
    ensures PlaceOf(row, stride, c) == row * stride + c < rows * stride
  {
    PlaceIs(row, stride, c);
    FlatIndex(rows, stride, row, c);
  }

  lemma {:induction false} PlacesApart(stride: nat, row: nat, c: nat, row': nat, c': nat)
    requires c < stride && c' < stride && (row != row' || c != c')
    ensures PlaceOf(row, stride, c) != PlaceOf(row', stride, c')
  {
    if row > 0 && row' > 0 { PlacesApart(stride, row - 1, c, row' - 1, c'); }
  }

  function RowFrom(s: seq<real>, r: nat, off: int): (row: seq<real>)
    ensures |row| == r && forall j :: 0 <= j < r ==> row[j] == At(s, off + j)
  {
    seq(r, j => At(s, off + j))
  }

  lemma RowsDisjoint(r: nat, i: nat, k: nat)
    requires i != k
    ensures i * r + r <= k * r || k * r + r <= i * r
  {
    if i < k { MulMonotone(i + 1, k, r); } else { MulMonotone(k + 1, i, r); }
  }

  /** `t` is `s` with the cells off..off+r replaced by `row`. */
  ghost predicate Replaces(s: seq<real>, t: seq<real>, off: nat, row: seq<real>) {
    && |s| == |t| && off + |row| <= |s|
    && (forall p :: off <= p < off + |row| ==> t[p] == row[p - off])
    && (forall p :: 0 <= p < |s| && !(off <= p < off + |row|) ==> t[p] == s[p])
  }

  lemma ReplacedRow(s: seq<real>, t: seq<real>, r: nat, off: nat, row: seq<real>)
    requires |row| == r && Replaces(s, t, off, row)
    ensures RowFrom(t, r, off) == row
  {
    var x := RowFrom(t, r, off);
    forall j | 0 <= j < r ensures x[j] == row[j] {
      assert t[off + j] == row[j];
    }
  }

  lemma KeptRow(s: seq<real>, t: seq<real>, r: nat, kept: nat, off: nat, row: seq<real>)
    requires |row| == r && Replaces(s, t, off, row) && kept + r <= |s| && (off + r <= kept || kept + r <= off)
    ensures RowFrom(t, r, kept) == RowFrom(s, r, kept)
  {
    var x, y := RowFrom(t, r, kept), RowFrom(s, r, kept);
    forall j | 0 <= j < r ensures x[j] == y[j] {
      assert t[kept + j] == s[kept + j];
    }
  }
}
