/** The round trip: rows packed at the aligned stride decode to their codes, whatever surrounds
    them, and a quantised weight comes back within one step of its clamped value. */
module PackedRows {
  import opened Sums
  import opened Grids
  import opened Places
  import opened Bytes
  import opened BitPacking
  import opened Dequant
  import opened Tensors

  // ---------------------------------------------------------------- locality

  /** Two streams agree on the bits off, ..., off + bpw - 1. */
  ghost predicate SameBitsAt(v: seq<Byte>, w: seq<Byte>, off: nat, bpw: nat) {
    forall p: nat {:trigger StreamBit(v, p)} {:trigger StreamBit(w, p)} :: off <= p < off + bpw ==> StreamBit(v, p) == StreamBit(w, p)
  }

  lemma ReadLocal(v: seq<Byte>, w: seq<Byte>, off: nat, bpw: nat)
    requires 1 <= bpw <= 8 && SameBitsAt(v, w, off, bpw)
    ensures ReadAt(v, bpw, off) == ReadAt(w, bpw, off)
  {
    var a, b := ReadAt(v, bpw, off), ReadAt(w, bpw, off);
    forall k | 0 <= k < 8 ensures a[k] == b[k] {
      ReadBits(v, bpw, off, k);
      ReadBits(w, bpw, off, k);
    }
  }

  /** The first `n` bytes of the two buffers agree. */
  predicate SamePrefix(v: seq<Byte>, w: seq<Byte>, n: nat) {
    n <= |v| && n <= |w| && v[..n] == w[..n]
  }

  /** Decoding column `i` of a row of `stride` codes reads only the row's own bytes. */
  lemma RowReadLocal(v: seq<Byte>, w: seq<Byte>, bpw: nat, stride: nat, i: nat)
    requires 1 <= bpw <= 8 && i < stride && SamePrefix(v, w, BytesFor(stride * bpw))
    ensures ReadAt(v, bpw, i * bpw) == ReadAt(w, bpw, i * bpw)
  {
    var n := BytesFor(stride * bpw);
    MulMonotone(i + 1, stride, bpw);
    assert (i + 1) * bpw == i * bpw + bpw;
    forall p: nat | i * bpw <= p < i * bpw + bpw ensures StreamBit(v, p) == StreamBit(w, p) {
      PrefixBit(v, w, n, p);
    }
    ReadLocal(v, w, i * bpw, bpw);
  }

  lemma PrefixBit(v: seq<Byte>, w: seq<Byte>, n: nat, p: nat)
    requires SamePrefix(v, w, n) && p < 8 * n
    ensures StreamBit(v, p) == StreamBit(w, p)
  {
    assert v[p / 8] == v[..n][p / 8] && w[p / 8] == w[..n][p / 8];
  }

  // ---------------------------------------------------------------- packed matrices

  lemma Aligned(n: nat)
    ensures n <= AlignUp(n) && AlignUp(n) % 256 == 0
  {
  }

  function Padded(w: seq<Byte>, n: nat): (r: seq<Byte>)
    ensures |w| <= n ==> |r| == n && r[..|w|] == w
  {
    w + seq(if |w| < n then n - |w| else 0, _ => Zero())
  }

  /** The row packer: pack, then pad to the aligned length. */
  method PackRow(codes: seq<Byte>, bpw: nat) returns (out: seq<Byte>)
    requires 1 <= bpw <= 8 && AllCodes(codes, bpw)
    ensures |out| == RowBytes(|codes|, bpw) && HoldsCodes(out, codes, bpw)
  {
    var packed := PackCodes(codes, bpw);
    var n := BytesFor(|codes| * bpw);
    Aligned(n);
    out := Padded(packed[..], AlignUp(n));
    forall i | 0 <= i < |codes| ensures ReadAt(out, bpw, i * bpw) == codes[i] {
      StoredIsRead(packed[..], bpw, i * bpw, codes[i]);
      assert out[..n] == packed[..][..n];
      RowReadLocal(out, packed[..], bpw, |codes|, i);
    }
  }

  /** Reading the bytes back, code by code, gives the codes. */
  ghost predicate HoldsCodes(w: seq<Byte>, codes: seq<Byte>, bpw: nat)
    requires 1 <= bpw <= 8
  {
    forall i {:trigger codes[i]} :: 0 <= i < |codes| ==> ReadAt(w, bpw, i * bpw) == codes[i]
  }

  function Concat(rows: seq<seq<Byte>>): seq<Byte> {
    if rows == [] then [] else Concat(rows[..|rows| - 1]) + rows[|rows| - 1]
  }

  ghost predicate AllOfLength(rows: seq<seq<Byte>>, n: nat) {
    forall r :: 0 <= r < |rows| ==> |rows[r]| == n
  }

  /** Row `r` starts after `r` rows of `n` bytes. */
  lemma {:induction false} ConcatRow(rows: seq<seq<Byte>>, n: nat, r: nat)
    requires AllOfLength(rows, n) && r < |rows|
    ensures |Concat(rows)| == PlaceOf(|rows|, n, 0)
    ensures PlaceOf(r, n, 0) + n <= |Concat(rows)| && Concat(rows)[PlaceOf(r, n, 0)..PlaceOf(r, n, 0) + n] == rows[r]
  {
    var k := |rows| - 1;
    if k == 0 {
      assert Concat(rows[..k]) == [];
    } else {
      ConcatRow(rows[..k], n, if r < k then r else 0);
      assert rows[..k][if r < k then r else 0] == rows[if r < k then r else 0];
      AppendedRow(Concat(rows[..k]), rows[k], PlaceOf(r, n, 0), n, r < k, rows[r]);
    }
  }

  /** A row inside the front stays where it was; the appended row starts where the front ends. */
  lemma AppendedRow(front: seq<Byte>, last: seq<Byte>, at: nat, n: nat, inside: bool, row: seq<Byte>)
    requires |last| == n && if inside then at + n <= |front| && front[at..at + n] == row else at == |front| && row == last
    ensures at + n <= |front + last| && (front + last)[at..at + n] == row
  {
  }

  lemma WindowPrefix(packed: seq<Byte>, start: nat, n: nat, row: seq<Byte>, m: nat)
    requires start + n <= |packed| && packed[start..start + n] == row && m <= n
    ensures SamePrefix(Window(packed, start), row, m)
  {
    var w := Window(packed, start);
    if start < |packed| {
      assert w[..m] == packed[start..start + n][..m];
    }
  }

  lemma RowWindow(rows: seq<seq<Byte>>, n: nat, r: nat, m: nat)
    requires r < |rows| && AllOfLength(rows, n) && m <= n
    ensures SamePrefix(Window(Concat(rows), PlaceOf(r, n, 0)), rows[r], m)
  {
    ConcatRow(rows, n, r);
    WindowPrefix(Concat(rows), PlaceOf(r, n, 0), n, rows[r], m);
  }

  lemma SameReads(w: seq<Byte>, row: seq<Byte>, codes: seq<Byte>, bpw: nat, i: nat)
    requires 1 <= bpw <= 8 && SamePrefix(w, row, BytesFor(|codes| * bpw)) && HoldsCodes(row, codes, bpw) && i < |codes|
    ensures ReadAt(w, bpw, i * bpw) == codes[i]
  {
    RowReadLocal(w, row, bpw, |codes|, i);
  }

  /** Any row length that holds the codes will do. */
  lemma RowsRoundTripAt(rows: seq<seq<Byte>>, codes: seq<Byte>, bpw: nat, r: nat, i: nat, n: nat)
    requires 1 <= bpw <= 8 && r < |rows| && AllOfLength(rows, n) && BytesFor(|codes| * bpw) <= n && HoldsCodes(rows[r], codes, bpw) && i < |codes|
    ensures ReadAt(Window(Concat(rows), PlaceOf(r, n, 0)), bpw, i * bpw) == codes[i]
  {
    RowWindow(rows, n, r, BytesFor(|codes| * bpw));
    SameReads(Window(Concat(rows), PlaceOf(r, n, 0)), rows[r], codes, bpw, i);
  }

  lemma AlignedRow(stride: nat, bpw: nat, r: nat, n: nat, start: nat)
    requires n == RowBytes(stride, bpw) && start == r * n
    ensures BytesFor(stride * bpw) <= n && start == PlaceOf(r, n, 0)
  {
    Aligned(BytesFor(stride * bpw));
    PlaceIs(r, n, 0);
  }

  lemma OneRow(rows: seq<seq<Byte>>, codes: seq<Byte>, bpw: nat, r: nat, i: nat, n: nat)
    requires 1 <= bpw <= 8 && r < |rows| && AllOfLength(rows, n) && n == RowBytes(|codes|, bpw) && HoldsCodes(rows[r], codes, bpw) && i < |codes|
    ensures ReadAt(Window(Concat(rows), PlaceOf(r, n, 0)), bpw, i * bpw) == codes[i]
  {
    AlignedRow(|codes|, bpw, r, n, r * n);
    RowsRoundTripAt(rows, codes, bpw, r, i, n);
  }

  /** Main theorem: in a buffer of rows packed at the aligned stride `n`, every code of every row
      decodes to itself, whatever the other rows hold. */
  lemma RowsRoundTrip(rows: seq<seq<Byte>>, codes: seq<Byte>, bpw: nat, r: nat, i: nat, n: nat, start: nat)
    requires 1 <= bpw <= 8 && r < |rows| && AllOfLength(rows, n) && HoldsCodes(rows[r], codes, bpw) && i < |codes|
    requires n == RowBytes(|codes|, bpw) && start == r * n
    ensures ReadAt(Window(Concat(rows), start), bpw, i * bpw) == codes[i]
  {
    AlignedRow(|codes|, bpw, r, n, start);
    RowsRoundTripAt(rows, codes, bpw, r, i, n);
  }

  // ---------------------------------------------------------------- quantisation

  function ClampWeight(v: real): (c: real)
    ensures -1.0 <= c <= 1.0
  {
    if v < -1.0 then -1.0 else if v > 1.0 then 1.0 else v
  }

  /** Where the clamped weight falls between the least and the greatest code. */
  function Position(v: real, bpw: nat): (x: real)
    requires 1 <= bpw <= 8
    ensures 0.0 <= x <= (Levels(bpw) - 1) as real
  {
    Scaled((ClampWeight(v) + 1.0) * 0.5, (Levels(bpw) - 1) as real);
    (ClampWeight(v) + 1.0) * 0.5 * (Levels(bpw) - 1) as real
  }

  function CodeFor(v: real, bpw: nat): (n: nat)
    requires 1 <= bpw <= 8
    ensures n < Levels(bpw)
  {
    Round(Position(v, bpw))
  }

  lemma Scaled(u: real, top: real)
    requires 0.0 <= u <= 1.0 && top >= 0.0
    ensures 0.0 <= u * top <= top
  {
  }

  lemma LevelsAtMost256(bpw: nat)
    requires bpw <= 8
    ensures Levels(bpw) <= 256
  {
    assert Levels(4) == 16 && Levels(8) == 2 * (2 * (2 * (2 * Levels(4))));
    if bpw == 5 { assert Levels(5) == 2 * Levels(4); } else if bpw == 6 { assert Levels(6) == 2 * (2 * Levels(4)); }
    else if bpw == 7 { assert Levels(7) == 2 * (2 * (2 * Levels(4))); }
  }

  lemma CodeIsCode(v: real, bpw: nat)
    requires 1 <= bpw <= 8
    ensures IsCode(ByteOf(CodeFor(v, bpw)), bpw) && NumberOf(ByteOf(CodeFor(v, bpw))) == CodeFor(v, bpw)
  {
    var n := CodeFor(v, bpw);
    LevelsAtMost256(bpw);
    NumberOfByteOf(n);
    forall k | 0 <= k < 8 && k + bpw < 8 ensures !ByteOf(n)[k] {
      LeadingBitsClear(n, 8, bpw, k);
    }
  }

  lemma RoundError(u: real, top: real, n: real, c: real)
    requires top > 0.0 && u * top - 0.5 <= n <= u * top + 0.5 && c == u * 2.0 - 1.0
    ensures -1.0 / top <= (n / top * 2.0 - 1.0) - c <= 1.0 / top
  {
    var q := n / top;
    assert q * top == n;
    var d := q - u;
    assert d * top == n - u * top;
    HalfStep(d, top);
  }

  lemma HalfStep(d: real, top: real)
    requires top > 0.0 && -0.5 <= d * top <= 0.5
    ensures -1.0 / top <= d * 2.0 <= 1.0 / top
  {
    var inv := 1.0 / top;
    assert inv * top == 1.0;
    if d * 2.0 > inv { ProductPositive(d * 2.0 - inv, top); }
    if d * 2.0 < -inv { ProductPositive(-inv - d * 2.0, top); }
  }

  lemma LevelIs(n: nat, bpw: nat, top: real)
    requires 1 <= bpw <= 8 && n < Levels(bpw) && top == (Levels(bpw) - 1) as real
    ensures LevelOf(ByteOf(n), bpw) == n as real / top * 2.0 - 1.0
  {
    LevelsAtMost256(bpw);
    NumberOfByteOf(n);
  }

  lemma LevelNear(n: nat, bpw: nat, top: real, u: real, c: real)
    requires 1 <= bpw <= 8 && n < Levels(bpw) && top == (Levels(bpw) - 1) as real
    requires u * top - 0.5 <= n as real <= u * top + 0.5 && c == u * 2.0 - 1.0
    ensures -1.0 / top <= LevelOf(ByteOf(n), bpw) - c <= 1.0 / top
  {
    LevelIs(n, bpw, top);
    RoundError(u, top, n as real, c);
  }

  lemma PositionIs(v: real, bpw: nat, top: real, u: real)
    requires 1 <= bpw <= 8 && top == (Levels(bpw) - 1) as real && u == (ClampWeight(v) + 1.0) * 0.5
    ensures Position(v, bpw) == u * top
  {
    SameProduct((ClampWeight(v) + 1.0) * 0.5, (Levels(bpw) - 1) as real, u, top);
  }

  lemma PositionNear(v: real, bpw: nat, top: real, u: real, n: nat, c: real)
    requires 1 <= bpw <= 8 && top == (Levels(bpw) - 1) as real && n == CodeFor(v, bpw) && c == ClampWeight(v) && u == (c + 1.0) * 0.5
    ensures u * top - 0.5 <= n as real <= u * top + 0.5
  {
    var x := Position(v, bpw);
    PositionIs(v, bpw, top, u);
    Nearest(x, n);
  }

  lemma Nearest(x: real, n: int)
    requires n == Round(x)
    ensures x - 0.5 <= n as real <= x + 0.5
  {
  }

  lemma CodeNear(v: real, bpw: nat, top: real, u: real, n: nat, c: real)
    requires 1 <= bpw <= 8 && top == (Levels(bpw) - 1) as real && n == CodeFor(v, bpw) && c == ClampWeight(v) && u == (c + 1.0) * 0.5
    ensures -1.0 / top <= LevelOf(ByteOf(n), bpw) - c <= 1.0 / top
  {
    PositionNear(v, bpw, top, u, n, c);
    LevelNear(n, bpw, top, u, c);
  }

  /** Main theorem: the decoded value is within 1 / (2^bpw - 1) of the clamped weight. */
  lemma QuantisationError(v: real, bpw: nat, top: real)
    requires 1 <= bpw <= 8 && top == (Levels(bpw) - 1) as real
    ensures -1.0 / top <= LevelOf(ByteOf(CodeFor(v, bpw)), bpw) - ClampWeight(v) <= 1.0 / top
  {
    var u := (ClampWeight(v) + 1.0) * 0.5;
    CodeNear(v, bpw, top, u, CodeFor(v, bpw), ClampWeight(v));
  }

  // ---------------------------------------------------------------- end to end

  function CodesOf(weights: seq<real>, bpw: nat): (codes: seq<Byte>)
    requires 1 <= bpw <= 8
    ensures |codes| == |weights| && forall i :: 0 <= i < |codes| ==> codes[i] == ByteOf(CodeFor(weights[i], bpw))
  {
    seq(|weights|, i requires 0 <= i < |weights| => ByteOf(CodeFor(weights[i], bpw)))
  }

  /** Quantise and pack one row of weights. */
  method PackWeights(weights: seq<real>, bpw: nat) returns (out: seq<Byte>)
    requires 1 <= bpw <= 8
    ensures |out| == RowBytes(|weights|, bpw) && HoldsCodes(out, CodesOf(weights, bpw), bpw)
  {
    var codes := CodesOf(weights, bpw);
    forall i | 0 <= i < |codes| ensures IsCode(codes[i], bpw) { CodeIsCode(weights[i], bpw); }
    out := PackRow(codes, bpw);
  }

  /** The rows hold the quantised weights, each in the aligned number of bytes. */
  ghost predicate HoldWeights(rows: seq<seq<Byte>>, ws: seq<seq<real>>, stride: nat, bpw: nat)
    requires 1 <= bpw <= 8
  {
    |rows| == |ws| && forall r {:trigger rows[r]} {:trigger ws[r]} :: 0 <= r < |ws| ==>
      |ws[r]| == stride && |rows[r]| == RowBytes(stride, bpw) && HoldsCodes(rows[r], CodesOf(ws[r], bpw), bpw)
  }

  /** `x` is within `s` times one step of `s` times the clamped weight. */
  predicate Returns(x: real, w: real, s: real, bpw: nat)
    requires 1 <= bpw <= 8
  {
    var step := 1.0 / (Levels(bpw) - 1) as real;
    -(s * step) <= x - s * ClampWeight(w) <= s * step
  }

  lemma ScaledError(level: real, c: real, step: real, s: real)
    requires -step <= level - c <= step && s >= 0.0
    ensures -(s * step) <= level * s - s * c <= s * step
  {
    var d := level - c;
    assert level * s - s * c == s * d;
    ProductNotNegative(s, step - d);
    ProductNotNegative(s, d + step);
  }

  /** Without backups a value is its level times the row's scale. */
  lemma PlainRow(packed: seq<Byte>, scales: seq<Byte>, r: nat, stride: nat, bpw: nat, c: nat, start: nat, s: real, level: real)
    requires 1 <= bpw <= 8 && start == RowStart(r, stride, bpw) && s == ScaleFor(scales, r) && level == LayerAt(packed, start, bpw, c)
    ensures RowOf(packed, scales, r, stride, bpw, None)(c) == level * s && s >= 0.0
  {
    var none := BackupRow(packed, r, stride, None);
    NothingBesides(LayerRow(packed, start, bpw), none, s, c, level);
    assert FirstBackup(None) == None && SecondBackup(None) == None;
  }

  lemma NothingBesides(layer: int -> real, none: int -> real, s: real, c: int, level: real)
    requires layer(c) == level && none(c) == 0.0
    ensures Plus(Plus(Dequant.Times(layer, s), none), none)(c) == level * s
  {
  }

  lemma ScaledLevel(level: real, w: real, s: real, bpw: nat)
    requires 1 <= bpw <= 8 && level == LevelOf(ByteOf(CodeFor(w, bpw)), bpw) && s >= 0.0
    ensures Returns(level * s, w, s, bpw)
  {
    var top := (Levels(bpw) - 1) as real;
    var c, step := ClampWeight(w), 1.0 / top;
    QuantisationError(w, bpw, top);
    Negative(step, -1.0 / top, top);
    ScaledError(level, c, step, s);
  }

  lemma Negative(step: real, low: real, top: real)
    requires top > 0.0 && step == 1.0 / top && low == -1.0 / top
    ensures low == -step
  {
  }

  lemma LevelReturns(rows: seq<seq<Byte>>, ws: seq<seq<real>>, stride: nat, bpw: nat, r: nat, c: nat, start: nat) returns (level: real)
    requires 1 <= bpw <= 8 && HoldWeights(rows, ws, stride, bpw) && r < |ws| && c < stride && start == RowStart(r, stride, bpw)
    ensures |ws[r]| == stride && level == LayerAt(Concat(rows), start, bpw, c) == LevelOf(ByteOf(CodeFor(ws[r][c], bpw)), bpw)
  {
    var codes := CodesOf(ws[r], bpw);
    assert |ws[r]| == stride && HoldsCodes(rows[r], codes, bpw);
    OneRow(rows, codes, bpw, r, c, RowBytes(stride, bpw));
    level := LayerAt(Concat(rows), start, bpw, c);
  }

  lemma WeightReturns(rows: seq<seq<Byte>>, ws: seq<seq<real>>, scales: seq<Byte>, stride: nat, bpw: nat, r: nat, c: nat,
                      value: real, s: real)
    requires 1 <= bpw <= 8 && HoldWeights(rows, ws, stride, bpw) && r < |ws| && c < stride
    requires s == ScaleFor(scales, r) && value == RowOf(Concat(rows), scales, r, stride, bpw, None)(c)
    ensures |ws[r]| == stride && Returns(value, ws[r][c], s, bpw)
  {
    var start := RowStart(r, stride, bpw);
    var level := LevelReturns(rows, ws, stride, bpw, r, c, start);
    PlainRow(Concat(rows), scales, r, stride, bpw, c, start, s, level);
    ScaledLevel(level, ws[r][c], s, bpw);
  }

  /** Main theorem, end to end: rows of weights quantised, packed and concatenated decode, without
      backups, to within one step of the clamped weights times the row's scale, except where an
      outlier replaces the value. */
  lemma PackedWeightsReturn(rows: seq<seq<Byte>>, ws: seq<seq<real>>, scales: seq<Byte>, stride: nat, bpw: nat,
                            outliers: seq<(nat, real)>, r: nat, c: nat)
    requires 1 <= bpw <= 8 && HoldWeights(rows, ws, stride, bpw) && r < |ws| && c < stride
    requires forall l :: 0 <= l < |outliers| ==> outliers[l].0 != PlaceOf(r, stride, c)
    ensures |ws[r]| == stride
    ensures Returns(Overwritten(RowOf(Concat(rows), scales, r, stride, bpw, None)(c), outliers, |outliers|, PlaceOf(r, stride, c)),
                    ws[r][c], ScaleFor(scales, r), bpw)
  {
    var value := RowOf(Concat(rows), scales, r, stride, bpw, None)(c);
    WeightReturns(rows, ws, scales, stride, bpw, r, c, value, ScaleFor(scales, r));
    Untouched(value, outliers, PlaceOf(r, stride, c), ws[r][c], ScaleFor(scales, r), bpw);
  }

  lemma Untouched(value: real, outliers: seq<(nat, real)>, place: nat, w: real, s: real, bpw: nat)
    requires 1 <= bpw <= 8 && Returns(value, w, s, bpw) && forall l :: 0 <= l < |outliers| ==> outliers[l].0 != place
    ensures Returns(Overwritten(value, outliers, |outliers|, place), w, s, bpw)
  {
    OutlierWins(value, outliers, |outliers|, 0, place);
  }

  lemma AllReturn(rows: seq<seq<Byte>>, ws: seq<seq<real>>, stride: nat, bpw: nat, row: nat, out: seq<real>)
    requires 1 <= bpw <= 8 && HoldWeights(rows, ws, stride, bpw) && row < |ws| && |out| == stride
    requires forall c :: 0 <= c < stride ==>
               out[c] == Overwritten(RowOf(Concat(rows), [], row, stride, bpw, None)(c), [], 0, PlaceOf(row, stride, c))
    ensures |ws[row]| == stride && forall c :: 0 <= c < stride ==> Returns(out[c], ws[row][c], 1.0, bpw)
  {
    forall c | 0 <= c < stride ensures Returns(out[c], ws[row][c], 1.0, bpw) {
      PackedWeightsReturn(rows, ws, [], stride, bpw, [], row, c);
    }
  }

  lemma OneMoreRow(rows: seq<seq<Byte>>, ws: seq<seq<real>>, stride: nat, bpw: nat, packed: seq<Byte>, weights: seq<real>)
    requires 1 <= bpw <= 8 && HoldWeights(rows, ws, stride, bpw)
    requires |weights| == stride && |packed| == RowBytes(stride, bpw) && HoldsCodes(packed, CodesOf(weights, bpw), bpw)
    ensures HoldWeights(rows + [packed], ws + [weights], stride, bpw)
  {
  }

  method PackRows(ws: seq<seq<real>>, stride: nat, bpw: nat) returns (rows: seq<seq<Byte>>)
    requires 1 <= bpw <= 8 && forall r :: 0 <= r < |ws| ==> |ws[r]| == stride
    ensures HoldWeights(rows, ws, stride, bpw)
  {
    rows := [];
    for r := 0 to |ws|
      invariant HoldWeights(rows, ws[..r], stride, bpw)
    {
      var packed := PackWeights(ws[r], bpw);
      OneMoreRow(rows, ws[..r], stride, bpw, packed, ws[r]);
      assert ws[..r + 1] == ws[..r] + [ws[r]];
      rows := rows + [packed];
    }
    assert ws[..|ws|] == ws;
  }

  /** Packing a matrix and decoding one of its rows with unit scale, no backup and no outlier. */
  method StoreAndLoad(ws: seq<seq<real>>, stride: nat, bpw: nat, row: nat) returns (out: array<real>)
    requires 1 <= bpw <= 8 && row < |ws| && forall r :: 0 <= r < |ws| ==> |ws[r]| == stride
    ensures out.Length == stride && forall c :: 0 <= c < stride ==> Returns(out[c], ws[row][c], 1.0, bpw)
  {
    var rows := PackRows(ws, stride, bpw);
    out := DequantRow(row, stride, Concat(rows), [], bpw, None, []);
    AllReturn(rows, ws, stride, bpw, row, out[..]);
  }
}
