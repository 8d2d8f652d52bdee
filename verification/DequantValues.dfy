/** What a dequantised row holds, from the bits of the buffer: codes most significant bit first, levels
    from -1 to 1, scales in 255ths, the two backups and their gates. */
module DequantValues {
  import opened Grids
  import opened Places
  import opened Sums
  import opened Tensors
  import opened Bytes
  import opened BitPacking
  import opened Dequant

  /** The number in the `n` bits from bit `p` on, most significant first; bits past the end are 0. */
  function BitsAt(w: seq<Byte>, p: nat, n: nat): nat {
    if n == 0 then 0 else 2 * BitsAt(w, p, n - 1) + (if StreamBit(w, p + (n - 1)) then 1 else 0)
  }

  /** Bit `k` of the list `r` is bit `p + (k - z)` of the buffer, the first `z` are 0. */
  ghost predicate BitIs(w: seq<Byte>, p: nat, z: nat, r: seq<bool>, k: nat) {
    k < |r| && r[k] == (k >= z && StreamBit(w, p + (k - z)))
  }

  ghost predicate BitsFrom(w: seq<Byte>, p: nat, z: nat, r: seq<bool>, n: nat) {
    n <= |r| && forall k: nat {:trigger BitIs(w, p, z, r, k)} :: k < n ==> BitIs(w, p, z, r, k)
  }

  lemma {:induction false} NumberIsBits(w: seq<Byte>, p: nat, z: nat, r: seq<bool>, n: nat)
    requires BitsFrom(w, p, z, r, n)
    ensures NumberOf(r[..n]) == if n <= z then 0 else BitsAt(w, p, n - z)
  {
    if n > 0 {
      NumberIsBits(w, p, z, r, n - 1);
      assert BitIs(w, p, z, r, n - 1);
      assert r[..n][..n - 1] == r[..n - 1];
    }
  }

  lemma ReadsBits(w: seq<Byte>, bpw: nat, off: nat)
    requires 1 <= bpw <= 8
    ensures BitsFrom(w, off, 8 - bpw, ReadAt(w, bpw, off), 8)
  {
    var (r, z) := (ReadAt(w, bpw, off), 8 - bpw);
    forall k: nat | k < 8 ensures BitIs(w, off, z, r, k) {
      ReadBits(w, bpw, off, k);
      assert off + (k + bpw - 8) == off + (k - (8 - bpw));
    }
  }

  lemma NumberOfCode(w: seq<Byte>, bpw: nat, off: nat, r: Byte)
    requires 1 <= bpw <= 8 && BitsFrom(w, off, 8 - bpw, r, 8)
    ensures NumberOf(r) == BitsAt(w, off, bpw)
  {
    NumberIsBits(w, off, 8 - bpw, r, 8);
    assert r[..8] == r;
  }

  /** The reader's code is the number in its bits. */
  lemma CodeIsBits(w: seq<Byte>, bpw: nat, off: nat)
    requires 1 <= bpw <= 8
    ensures NumberOf(ReadAt(w, bpw, off)) == BitsAt(w, off, bpw)
  {
    ReadsBits(w, bpw, off);
    NumberOfCode(w, bpw, off, ReadAt(w, bpw, off));
  }

  lemma WindowBit(packed: seq<Byte>, start: nat, q: nat)
    ensures StreamBit(Window(packed, start), q) == StreamBit(packed, 8 * start + q)
  {
    DivModUnique(start + q / 8, q % 8, 8);
    assert (start + q / 8) * 8 + q % 8 == 8 * start + q;
  }

  /** `v` is `w` read from bit `p` on. */
  ghost predicate Shifts(w: seq<Byte>, v: seq<Byte>, p: nat) {
    forall q: nat {:trigger StreamBit(v, q)} :: StreamBit(v, q) == StreamBit(w, p + q)
  }

  lemma WindowShifts(packed: seq<Byte>, start: nat)
    ensures Shifts(packed, Window(packed, start), 8 * start)
  {
    forall q: nat ensures StreamBit(Window(packed, start), q) == StreamBit(packed, 8 * start + q) {
      WindowBit(packed, start, q);
    }
  }

  lemma {:induction false} ShiftedBits(w: seq<Byte>, v: seq<Byte>, at: nat, p: nat, n: nat)
    requires Shifts(w, v, at)
    ensures BitsAt(v, p, n) == BitsAt(w, at + p, n)
  {
    if n > 0 {
      ShiftedBits(w, v, at, p, n - 1);
      assert StreamBit(v, p + (n - 1)) == StreamBit(w, at + (p + (n - 1)));
      assert at + (p + (n - 1)) == at + p + (n - 1);
    }
  }

  /** The greatest number of `n` bits. */
  function AllOnes(n: nat): (k: nat)
    ensures n > 0 ==> k > 0
  {
    if n == 0 then 0 else 2 * AllOnes(n - 1) + 1
  }

  lemma {:induction false} AllOnesIs(n: nat)
    ensures AllOnes(n) == Levels(n) - 1
  {
    if n > 0 { AllOnesIs(n - 1); }
  }

  /** `level` is the value of `code` on the even scale from -1 (all bits 0) to 1 (all bits 1). */
  predicate IsLevel(level: real, code: nat, bpw: nat) {
    bpw > 0 && level == 2.0 * (code as real / AllOnes(bpw) as real) - 1.0
  }

  lemma LevelFits(code: Byte, bpw: nat)
    requires 1 <= bpw
    ensures IsLevel(LevelOf(code, bpw), NumberOf(code), bpw)
  {
    AllOnesIs(bpw);
  }

  lemma ReadLevelFits(w: seq<Byte>, bpw: nat, off: nat)
    requires 1 <= bpw <= 8
    ensures IsLevel(LevelOf(ReadAt(w, bpw, off), bpw), BitsAt(w, off, bpw), bpw)
  {
    LevelFits(ReadAt(w, bpw, off), bpw);
    CodeIsBits(w, bpw, off);
  }

  /** `s` is byte `at` of the buffer in 255ths, or 1 past its end. */
  predicate IsScale(s: real, bytes: seq<Byte>, at: nat) {
    if at < |bytes| then s * 255.0 == NumberOf(bytes[at]) as real else s == 1.0
  }

  lemma ScaleFits(bytes: seq<Byte>, at: nat)
    ensures IsScale(ScaleFor(bytes, at), bytes, at)
  {
  }

  /** A row of `stride` codes takes the least multiple of 256 bytes that holds its bits. */
  lemma RowBytesLeast(stride: nat, bpw: nat, k: nat)
    ensures RowBytes(stride, bpw) % 256 == 0 && stride * bpw <= 8 * RowBytes(stride, bpw)
    ensures stride * bpw <= 8 * (256 * k) ==> RowBytes(stride, bpw) <= 256 * k
  {
    var bits := stride * bpw;
    LeastMultiple(bits, k);
  }

  lemma LeastMultiple(bits: nat, k: nat)
    ensures AlignUp(BytesFor(bits)) % 256 == 0 && bits <= 8 * AlignUp(BytesFor(bits))
    ensures bits <= 8 * (256 * k) ==> AlignUp(BytesFor(bits)) <= 256 * k
  {
  }

  /** `level` is the level of column `c` in row `row` of rows of `width` bytes that start at byte `start`. */
  predicate RowLevel(level: real, packed: seq<Byte>, start: nat, row: nat, width: nat, bpw: nat, c: nat) {
    IsLevel(level, BitsAt(packed, 8 * (start + row * width) + c * bpw, bpw), bpw)
  }

  lemma MoveLevel(level: real, packed: seq<Byte>, pos: nat, start: nat, row: nat, width: nat, bpw: nat, c: nat)
    requires pos == 8 * (start + row * width) + c * bpw && IsLevel(level, BitsAt(packed, pos, bpw), bpw)
    ensures RowLevel(level, packed, start, row, width, bpw, c)
  {
  }

  /** Every column of the row `f` is a level. */
  ghost predicate RowLevels(f: int -> real, packed: seq<Byte>, start: nat, row: nat, width: nat, bpw: nat) {
    forall c: nat {:trigger RowLevel(f(c), packed, start, row, width, bpw, c)} :: RowLevel(f(c), packed, start, row, width, bpw, c)
  }

  lemma DecodedLevel(f: int -> real, v: seq<Byte>, bpw: nat, c: nat, off: nat)
    requires WidthOk(bpw) && DecodesAll(f, v, bpw) && off == c * bpw
    ensures IsLevel(f(c), BitsAt(v, off, bpw), bpw)
  {
    OneDecoded(f, v, bpw, c);
    LevelAtFits(v, bpw, c, off);
    SameLevel(f(c), LevelAt(v, bpw, c), BitsAt(v, off, bpw), bpw);
  }

  lemma LevelAtFits(v: seq<Byte>, bpw: nat, c: nat, off: nat)
    requires WidthOk(bpw) && off == c * bpw
    ensures IsLevel(LevelAt(v, bpw, c), BitsAt(v, off, bpw), bpw)
  {
    ReadLevelFits(v, bpw, off);
  }

  lemma SameLevel(x: real, y: real, code: nat, bpw: nat)
    requires x == y && IsLevel(y, code, bpw)
    ensures IsLevel(x, code, bpw)
  {
  }

  lemma ShiftedLevel(level: real, w: seq<Byte>, v: seq<Byte>, at: nat, p: nat, bpw: nat)
    requires Shifts(w, v, at) && IsLevel(level, BitsAt(v, p, bpw), bpw)
    ensures IsLevel(level, BitsAt(w, at + p, bpw), bpw)
  {
    ShiftedBits(w, v, at, p, bpw);
  }

  lemma DecodedAt(f: int -> real, packed: seq<Byte>, v: seq<Byte>, at: nat, bpw: nat, c: nat, off: nat)
    requires WidthOk(bpw) && DecodesAll(f, v, bpw) && Shifts(packed, v, at) && off == c * bpw
    ensures IsLevel(f(c), BitsAt(packed, at + off, bpw), bpw)
  {
    DecodedLevel(f, v, bpw, c, off);
    ShiftedLevel(f(c), packed, v, at, off, bpw);
  }

  lemma DecodedRow(f: int -> real, packed: seq<Byte>, v: seq<Byte>, start: nat, row: nat, width: nat, bpw: nat, at: nat)
    requires WidthOk(bpw) && DecodesAll(f, v, bpw) && Shifts(packed, v, at) && at == 8 * (start + row * width)
    ensures RowLevels(f, packed, start, row, width, bpw)
  {
    forall c: nat {:trigger f(c)} ensures RowLevel(f(c), packed, start, row, width, bpw, c) {
      DecodedAt(f, packed, v, at, bpw, c, c * bpw);
      MoveLevel(f(c), packed, at + c * bpw, start, row, width, bpw, c);
    }
  }

  lemma LayerRowLevels(packed: seq<Byte>, start: nat, row: nat, width: nat, bpw: nat)
    requires 1 <= bpw <= 8
    ensures RowLevels(LayerRow(packed, start + PlaceOf(row, width, 0), bpw), packed, start, row, width, bpw)
  {
    PlaceIs(row, width, 0);
    var at := start + PlaceOf(row, width, 0);
    LayerRowDecodes(packed, at, bpw);
    WindowShifts(packed, at);
    DecodedRow(LayerRow(packed, at, bpw), packed, Window(packed, at), start, row, width, bpw, 8 * at);
  }

  /** `layer` holds the levels of backup `b` for row `row`, and `s` the row's scale byte of that backup. */
  ghost predicate BackupLayer(packed: seq<Byte>, row: nat, width: nat, b: Backup, layer: int -> real, s: real) {
    RowLevels(layer, packed, b.codesOffset, row, width, b.bpw) && IsScale(s, packed, b.scaleOffset + row)
  }

  /** What a backup adds to a row: its layer times its scale byte, or nothing. */
  ghost predicate BackupAdds(packed: seq<Byte>, row: nat, stride: nat, b: Option<Backup>, layer: int -> real, s: real, add: int -> real) {
    if b.Some? then BackupLayer(packed, row, RowBytes(stride, b.value.bpw), b.value, layer, s) && add == Dequant.Times(layer, s)
    else Nothing(add)
  }

  ghost predicate Nothing(add: int -> real) {
    forall c :: add(c) == 0.0
  }

  lemma LayerOfBackup(packed: seq<Byte>, row: nat, width: nat, b: Backup, at: nat, s: real)
    requires WidthOk(b.bpw) && at == PlaceOf(row, width, 0) && s == ScaleFor(packed, b.scaleOffset + row)
    ensures BackupLayer(packed, row, width, b, LayerRow(packed, b.codesOffset + at, b.bpw), s)
  {
    LayerRowLevels(packed, b.codesOffset, row, width, b.bpw);
    ScaleFits(packed, b.scaleOffset + row);
  }

  lemma BackupSome(packed: seq<Byte>, row: nat, stride: nat, b: Backup) returns (at: nat, s: real)
    requires WidthOk(b.bpw)
    ensures at == PlaceOf(row, RowBytes(stride, b.bpw), 0) && s == ScaleFor(packed, b.scaleOffset + row)
    ensures BackupRow(packed, row, stride, Some(b)) == Dequant.Times(LayerRow(packed, b.codesOffset + at, b.bpw), s)
  {
    at, s := RowStart(row, stride, b.bpw), ScaleFor(packed, b.scaleOffset + row);
  }

  lemma PresentBackupIs(packed: seq<Byte>, row: nat, stride: nat, b: Backup) returns (layer: int -> real, s: real)
    requires WidthOk(b.bpw)
    ensures BackupLayer(packed, row, RowBytes(stride, b.bpw), b, layer, s)
    ensures BackupRow(packed, row, stride, Some(b)) == Dequant.Times(layer, s)
  {
    var at;
    at, s := BackupSome(packed, row, stride, b);
    LayerOfBackup(packed, row, RowBytes(stride, b.bpw), b, at, s);
    layer := LayerRow(packed, b.codesOffset + at, b.bpw);
  }

  lemma BackupIs(packed: seq<Byte>, row: nat, stride: nat, b: Option<Backup>) returns (layer: int -> real, s: real)
    requires b.Some? ==> WidthOk(b.value.bpw)
    ensures BackupAdds(packed, row, stride, b, layer, s, BackupRow(packed, row, stride, b))
  {
    if b.Some? {
      layer, s := PresentBackupIs(packed, row, stride, b.value);
    } else {
      layer, s := x => 0.0, 0.0;
      NothingThere(packed, row, stride);
    }
  }

  lemma NothingThere(packed: seq<Byte>, row: nat, stride: nat)
    ensures Nothing(BackupRow(packed, row, stride, None))
  {
  }

  /** The parts of a row, as whole rows. */
  lemma RowParts(row: nat, stride: nat, packed: seq<Byte>, scales: seq<Byte>, bpw: nat, ext: Option<Ext>)
      returns (base: int -> real, s: real, add1: int -> real, add2: int -> real, layer1: int -> real, s1: real, layer2: int -> real, s2: real)
    requires ExtOk(ext) && WidthOk(bpw)
    ensures RowLevels(base, packed, 0, row, RowBytes(stride, bpw), bpw) && IsScale(s, scales, row)
    ensures BackupAdds(packed, row, stride, FirstBackup(ext), layer1, s1, add1)
    ensures BackupAdds(packed, row, stride, SecondBackup(ext), layer2, s2, add2)
    ensures RowOf(packed, scales, row, stride, bpw, ext) == Plus(Plus(Dequant.Times(base, s), add1), add2)
  {
    base, s := BaseIs(packed, scales, row, stride, bpw);
    add1, add2 := BackupRow(packed, row, stride, FirstBackup(ext)), BackupRow(packed, row, stride, SecondBackup(ext));
    layer1, s1 := BackupIs(packed, row, stride, FirstBackup(ext));
    layer2, s2 := BackupIs(packed, row, stride, SecondBackup(ext));
  }

  lemma BaseIs(packed: seq<Byte>, scales: seq<Byte>, row: nat, stride: nat, bpw: nat) returns (base: int -> real, s: real)
    requires WidthOk(bpw)
    ensures RowLevels(base, packed, 0, row, RowBytes(stride, bpw), bpw) && IsScale(s, scales, row)
    ensures base == LayerRow(packed, RowStart(row, stride, bpw), bpw) && s == ScaleFor(scales, row)
  {
    base, s := LayerRow(packed, RowStart(row, stride, bpw), bpw), ScaleFor(scales, row);
    LayerRowLevels(packed, 0, row, RowBytes(stride, bpw), bpw);
    ScaleFits(scales, row);
  }

  lemma PartsAdd(base: int -> real, s: real, add1: int -> real, add2: int -> real, c: nat)
    ensures Plus(Plus(Dequant.Times(base, s), add1), add2)(c) == base(c) * s + add1(c) + add2(c)
  {
  }

  lemma AddedAt(packed: seq<Byte>, row: nat, stride: nat, b: Option<Backup>, layer: int -> real, s: real, add: int -> real, c: nat)
    requires BackupAdds(packed, row, stride, b, layer, s, add)
    ensures add(c) == if b.Some? then layer(c) * s else 0.0
  {
    if b.Some? { TimesAt(layer, s, add, c); }
  }

  lemma TimesAt(f: int -> real, s: real, g: int -> real, c: nat)
    requires g == Dequant.Times(f, s)
    ensures g(c) == f(c) * s
  {
  }

  /** Column `c` before outliers: the base level times the row's scale, plus what each backup adds. The
      extension's width replaces the default one; the first backup needs ordered quantisation, the second
      only its presence. */
  lemma RowIs(row: nat, stride: nat, packed: seq<Byte>, scales: seq<Byte>, defaultBpw: nat, ext: Option<Ext>, c: nat)
      returns (base: int -> real, s: real, layer1: int -> real, s1: real, layer2: int -> real, s2: real)
    requires ExtOk(ext) && WidthOk(Width(defaultBpw, ext))
    ensures var bpw := if ext.Some? then ext.value.defaultBpw else defaultBpw;
            RowLevels(base, packed, 0, row, RowBytes(stride, bpw), bpw) && IsScale(s, scales, row)
    ensures ext.Some? && ext.value.backup1.Some? && ext.value.gptqOrdered > 0 ==>
              var b := ext.value.backup1.value; BackupLayer(packed, row, RowBytes(stride, b.bpw), b, layer1, s1)
    ensures ext.Some? && ext.value.backup2.Some? ==>
              var b := ext.value.backup2.value; BackupLayer(packed, row, RowBytes(stride, b.bpw), b, layer2, s2)
    ensures RowOf(packed, scales, row, stride, Width(defaultBpw, ext), ext)(c) ==
            base(c) * s + (if ext.Some? && ext.value.backup1.Some? && ext.value.gptqOrdered > 0 then layer1(c) * s1 else 0.0)
                        + (if ext.Some? && ext.value.backup2.Some? then layer2(c) * s2 else 0.0)
  {
    var add1, add2;
    base, s, add1, add2, layer1, s1, layer2, s2 := RowParts(row, stride, packed, scales, Width(defaultBpw, ext), ext);
    PartsAdd(base, s, add1, add2, c);
    AddedAt(packed, row, stride, FirstBackup(ext), layer1, s1, add1, c);
    AddedAt(packed, row, stride, SecondBackup(ext), layer2, s2, add2, c);
  }
}
