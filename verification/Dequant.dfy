/** Row dequantisation: packed codes at 256-byte-aligned row strides, row scales, backup layers and
    outliers; and the row packer that inverts it up to rounding. */
module Dequant {
  import opened Grids
  import opened Places
  import opened Tensors
  import opened Bytes
  import opened BitPacking

  // ---------------------------------------------------------------- specification of a row

  /** Everything from `start` to the end of the buffer. */
  function Window(packed: seq<Byte>, start: nat): seq<Byte> {
    if start < |packed| then packed[start..] else []
  }

  /** The value of a code: -1 for 0, 1 for the greatest code. */
  function LevelOf(code: Byte, bpw: nat): real
    requires bpw >= 1
  {
    NumberOf(code) as real / (Levels(bpw) - 1) as real * 2.0 - 1.0
  }

  function RowBytes(stride: nat, bpw: nat): nat {
    AlignUp(BytesFor(stride * bpw))
  }

  /** Where row `row` starts in a buffer of rows at the aligned stride. */
  function RowStart(row: nat, stride: nat, bpw: nat): nat {
    PlaceOf(row, RowBytes(stride, bpw), 0)
  }

  function UnitScale(b: Byte): real {
    NumberOf(b) as real / 255.0
  }

  /** The value of code `i` of a window. */
  function LevelAt(rowData: seq<Byte>, bpw: nat, i: nat): real
    requires 1 <= bpw <= 8
  {
    LevelOf(ReadAt(rowData, bpw, i * bpw), bpw)
  }

  function LayerAt(packed: seq<Byte>, start: nat, bpw: nat, i: nat): real
    requires 1 <= bpw <= 8
  {
    LevelAt(Window(packed, start), bpw, i)
  }

  function ScaleFor(scales: seq<Byte>, row: nat): real {
    if row < |scales| then UnitScale(scales[row]) else 1.0
  }

  datatype Backup = Backup(bpw: nat, codesOffset: nat, scaleOffset: nat)

  datatype Ext = Ext(defaultBpw: nat, backup1: Option<Backup>, backup2: Option<Backup>, gptqOrdered: nat)

  predicate WidthOk(bpw: nat) {
    1 <= bpw <= 8
  }

  predicate ExtOk(ext: Option<Ext>) {
    ext.Some? ==>
      && WidthOk(ext.value.defaultBpw)
      && (ext.value.backup1.Some? ==> WidthOk(ext.value.backup1.value.bpw))
      && (ext.value.backup2.Some? ==> WidthOk(ext.value.backup2.value.bpw))
  }

  /** The first backup is used only for ordered quantisation. */
  function FirstBackup(ext: Option<Ext>): Option<Backup> {
    if ext.Some? && ext.value.gptqOrdered > 0 then ext.value.backup1 else None
  }

  function SecondBackup(ext: Option<Ext>): Option<Backup> {
    if ext.Some? then ext.value.backup2 else None
  }

  function Width(defaultBpw: nat, ext: Option<Ext>): nat {
    if ext.Some? then ext.value.defaultBpw else defaultBpw
  }

  /** A decoded layer: one value per column. */
  function LayerRow(packed: seq<Byte>, start: nat, bpw: nat): int -> real
    requires WidthOk(bpw)
  {
    i => if i >= 0 then LayerAt(packed, start, bpw, i) else 0.0
  }

  /** What a backup adds: its layer, scaled by its own scale byte; without one, nothing. */
  function BackupRow(packed: seq<Byte>, row: nat, stride: nat, b: Option<Backup>): int -> real
    requires b.Some? ==> WidthOk(b.value.bpw)
  {
    if b.None? then i => 0.0
    else Times(LayerRow(packed, b.value.codesOffset + RowStart(row, stride, b.value.bpw), b.value.bpw), ScaleFor(packed, b.value.scaleOffset + row))
  }

  function Times(f: int -> real, s: real): int -> real {
    i => f(i) * s
  }

  function Plus(f: int -> real, g: int -> real): int -> real {
    i => f(i) + g(i)
  }

  /** A row without its outliers. */
  function RowOf(packed: seq<Byte>, scales: seq<Byte>, row: nat, stride: nat, bpw: nat, ext: Option<Ext>): int -> real
    requires WidthOk(bpw) && ExtOk(ext)
  {
    Plus(Plus(Times(LayerRow(packed, RowStart(row, stride, bpw), bpw), ScaleFor(scales, row)),
              BackupRow(packed, row, stride, FirstBackup(ext))),
         BackupRow(packed, row, stride, SecondBackup(ext)))
  }

  /** The last of the first `n` outliers placed at `place`, if any, replaces the value. */
  function Overwritten(value: real, outliers: seq<(nat, real)>, n: nat, place: nat): real
    requires n <= |outliers|
  {
    if n == 0 then value
    else if outliers[n - 1].0 == place then outliers[n - 1].1
    else Overwritten(value, outliers, n - 1, place)
  }

  // ---------------------------------------------------------------- the loops

  /** Column `i` of the row `f` is decoded from the window. */
  ghost predicate Decodes(f: int -> real, rowData: seq<Byte>, bpw: nat, i: nat)
    requires WidthOk(bpw)
  {
    f(i) == LevelAt(rowData, bpw, i)
  }

  ghost predicate DecodesAll(f: int -> real, rowData: seq<Byte>, bpw: nat)
    requires WidthOk(bpw)
  {
    forall i: nat {:trigger Decodes(f, rowData, bpw, i)} :: Decodes(f, rowData, bpw, i)
  }

  lemma LayerRowDecodes(packed: seq<Byte>, start: nat, bpw: nat)
    requires WidthOk(bpw)
    ensures DecodesAll(LayerRow(packed, start, bpw), Window(packed, start), bpw)
  {
  }

  method ToLevel(code: Byte, bpw: nat) returns (x: real)
    requires bpw >= 1
    ensures x == LevelOf(code, bpw)
  {
    var normalized := NumberOf(code) as real / (Levels(bpw) - 1) as real;
    x := normalized * 2.0 - 1.0;
  }

  method ReadLevel(rowData: seq<Byte>, bpw: nat, i: nat) returns (x: real)
    requires WidthOk(bpw)
    ensures x == LevelAt(rowData, bpw, i)
  {
    var code := ReadAt(rowData, bpw, i * bpw);
    x := ToLevel(code, bpw);
  }

  method DecodeOne(rowData: seq<Byte>, bpw: nat, i: nat, ghost f: int -> real) returns (x: real)
    requires WidthOk(bpw) && DecodesAll(f, rowData, bpw)
    ensures x == f(i)
  {
    OneDecoded(f, rowData, bpw, i);
    x := ReadLevel(rowData, bpw, i);
  }

  lemma OneDecoded(f: int -> real, rowData: seq<Byte>, bpw: nat, i: nat)
    requires WidthOk(bpw) && DecodesAll(f, rowData, bpw)
    ensures f(i) == LevelAt(rowData, bpw, i)
  {
    assert Decodes(f, rowData, bpw, i);
  }

  /** The array holds the row `f`. */
  ghost predicate Holds(out: seq<real>, f: int -> real) {
    forall i :: 0 <= i < |out| ==> out[i] == f(i)
  }

  method DecodeRow(rowData: seq<Byte>, bpw: nat, n: nat, ghost f: int -> real) returns (out: array<real>)
    requires WidthOk(bpw) && DecodesAll(f, rowData, bpw)
    ensures fresh(out) && out.Length == n && Holds(out[..], f)
  {
    out := new real[n](_ => 0.0);
    for i := 0 to n
      invariant forall k :: 0 <= k < i ==> out[k] == f(k)
    {
      var x := DecodeOne(rowData, bpw, i, f);
      out[i] := x;
    }
  }

  method ScaleAll(out: array<real>, s: real, ghost f: int -> real)
    requires Holds(out[..], f)
    modifies out
    ensures Holds(out[..], Times(f, s))
  {
    for i := 0 to out.Length
      invariant forall k :: 0 <= k < out.Length ==> out[k] == if k < i then Times(f, s)(k) else f(k)
    {
      out[i] := out[i] * s;
    }
  }

  method AddScaled(out: array<real>, layer: array<real>, s: real, ghost f: int -> real, ghost g: int -> real)
    requires layer != out && layer.Length == out.Length && Holds(out[..], f) && Holds(layer[..], g)
    modifies out
    ensures Holds(out[..], Plus(f, Times(g, s)))
  {
    ghost var h := Times(g, s);
    for i := 0 to out.Length
      invariant forall k :: 0 <= k < out.Length ==> out[k] == if k < i then Plus(f, h)(k) else f(k)
    {
      out[i] := out[i] + layer[i] * s;
    }
  }

  /** The additive merge of a backup layer. */
  method AddBackup(out: array<real>, packed: seq<Byte>, row: nat, stride: nat, b: Option<Backup>, ghost f: int -> real)
    requires (b.Some? ==> WidthOk(b.value.bpw)) && Holds(out[..], f)
    modifies out
    ensures Holds(out[..], Plus(f, BackupRow(packed, row, stride, b)))
  {
    if b.None? {
      NothingAdded(out[..], f, BackupRow(packed, row, stride, b));
    } else {
      PlaceIs(row, RowBytes(stride, b.value.bpw), 0);
      var start, bpw, s := b.value.codesOffset + row * RowBytes(stride, b.value.bpw), b.value.bpw, ScaleFor(packed, b.value.scaleOffset + row);
      AddLayer(out, packed, start, bpw, s, f);
    }
  }

  method AddLayer(out: array<real>, packed: seq<Byte>, start: nat, bpw: nat, s: real, ghost f: int -> real)
    requires WidthOk(bpw) && Holds(out[..], f)
    modifies out
    ensures Holds(out[..], Plus(f, Times(LayerRow(packed, start, bpw), s)))
  {
    LayerRowDecodes(packed, start, bpw);
    var layer := DecodeRow(Window(packed, start), bpw, out.Length, LayerRow(packed, start, bpw));
    AddScaled(out, layer, s, f, LayerRow(packed, start, bpw));
  }

  lemma NothingAdded(out: seq<real>, f: int -> real, g: int -> real)
    requires Holds(out, f) && forall i :: g(i) == 0.0
    ensures Holds(out, Plus(f, g))
  {
  }

  lemma OutlierPlace(idx: nat, row: nat, stride: nat, c: nat)
    requires stride > 0 && c < stride
    ensures idx == PlaceOf(row, stride, c) <==> idx / stride == row && idx % stride == c
  {
    PlaceIs(row, stride, c);
    if idx == row * stride + c { DivModUnique(row, c, stride); }
  }

  method ApplyOutliers(out: array<real>, outliers: seq<(nat, real)>, row: nat)
    requires outliers != [] ==> out.Length > 0
    modifies out
    ensures forall c :: 0 <= c < out.Length ==> out[c] == Overwritten(old(out[c]), outliers, |outliers|, PlaceOf(row, out.Length, c))
  {
    ghost var was := out[..];
    for n := 0 to |outliers|
      invariant forall c :: 0 <= c < out.Length ==> out[c] == Overwritten(was[c], outliers, n, PlaceOf(row, out.Length, c))
    {
      ApplyOne(out, outliers, n, row, was);
    }
  }

  method ApplyOne(out: array<real>, outliers: seq<(nat, real)>, n: nat, row: nat, ghost was: seq<real>)
    requires n < |outliers| && |was| == out.Length > 0
    requires forall c :: 0 <= c < out.Length ==> out[c] == Overwritten(was[c], outliers, n, PlaceOf(row, out.Length, c))
    modifies out
    ensures forall c :: 0 <= c < out.Length ==> out[c] == Overwritten(was[c], outliers, n + 1, PlaceOf(row, out.Length, c))
  {
    var (idx, val) := outliers[n];
    var r, c := idx / out.Length, idx % out.Length;
    forall k | 0 <= k < out.Length ensures idx == PlaceOf(row, out.Length, k) <==> r == row && c == k {
      OutlierPlace(idx, row, out.Length, k);
    }
    if r == row { out[c] := val; }
  }

  /** The row before outliers: decode, scale, add both backups. */
  method MergedRow(row: nat, stride: nat, packed: seq<Byte>, scales: seq<Byte>, bpw: nat, ext: Option<Ext>) returns (out: array<real>)
    requires ExtOk(ext) && WidthOk(bpw)
    ensures fresh(out) && out.Length == stride && Holds(out[..], RowOf(packed, scales, row, stride, bpw, ext))
  {
    PlaceIs(row, RowBytes(stride, bpw), 0);
    var start, s := row * RowBytes(stride, bpw), ScaleFor(scales, row);
    ghost var f := LayerRow(packed, start, bpw);
    LayerRowDecodes(packed, start, bpw);
    out := DecodeRow(Window(packed, start), bpw, stride, f);
    ScaleAll(out, s, f);
    AddBackup(out, packed, row, stride, FirstBackup(ext), Times(f, s));
    AddBackup(out, packed, row, stride, SecondBackup(ext), Plus(Times(f, s), BackupRow(packed, row, stride, FirstBackup(ext))));
  }

  /** `dequant_row`. Outlier indices divide by the stride, so a stride of 0 admits none. */
  method DequantRow(row: nat, stride: nat, packed: seq<Byte>, scales: seq<Byte>, defaultBpw: nat, ext: Option<Ext>, outliers: seq<(nat, real)>)
    returns (out: array<real>)
    requires ExtOk(ext) && WidthOk(Width(defaultBpw, ext)) && (outliers != [] ==> stride > 0)
    ensures out.Length == stride
    ensures forall c :: 0 <= c < stride ==>
              out[c] == Overwritten(RowOf(packed, scales, row, stride, Width(defaultBpw, ext), ext)(c), outliers, |outliers|, PlaceOf(row, stride, c))
  {
    out := MergedRow(row, stride, packed, scales, Width(defaultBpw, ext), ext);
    ghost var f := RowOf(packed, scales, row, stride, Width(defaultBpw, ext), ext);
    ghost var was := out[..];
    ApplyOutliers(out, outliers, row);
    assert forall c :: 0 <= c < stride ==> was[c] == f(c);
  }

  /** Outliers win, the last one last; a column without an outlier keeps its value. */
  lemma {:induction false} OutlierWins(value: real, outliers: seq<(nat, real)>, n: nat, k: nat, place: nat)
    requires k <= n <= |outliers| && forall l :: k <= l < n ==> outliers[l].0 != place
    ensures k > 0 && outliers[k - 1].0 == place ==> Overwritten(value, outliers, n, place) == outliers[k - 1].1
    ensures k == 0 ==> Overwritten(value, outliers, n, place) == value
  {
    if n > k { OutlierWins(value, outliers, n - 1, k, place); }
  }
}
