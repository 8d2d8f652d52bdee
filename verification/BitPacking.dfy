/** Variable-bitwidth codes in a byte stream, most significant bit first: the packer ORs each code
    into one or two bytes, the reader shifts and masks it out again. */
module BitPacking {
  import opened Grids
  import opened Bytes

  // ---------------------------------------------------------------- reading

  /** Bit `p` of the stream; false past its end. */
  predicate StreamBit(w: seq<Byte>, p: nat) {
    p / 8 < |w| && w[p / 8][p % 8]
  }

  /** The code at bit offset `off`, byte arithmetic as in the reader. */
  function ReadAt(w: seq<Byte>, bpw: nat, off: nat): Byte
    requires 1 <= bpw <= 8
  {
    var byte, left := off / 8, 8 - off % 8;
    if byte >= |w| then Zero()
    else if left >= bpw then And(ShiftRight(w[byte], left - bpw), Ones(bpw))
    else
      var low := bpw - left;
      var lowPart := if byte + 1 < |w| then And(ShiftRight(w[byte + 1], 8 - low), Ones(low)) else Zero();
      Or(ShiftLeft(And(w[byte], Ones(left)), low), lowPart)
  }

  /** Where bit off + t of the stream lies. */
  lemma StreamIndex(off: nat, t: nat)
    requires t < 8
    ensures off % 8 + t < 8 ==> (off + t) / 8 == off / 8 && (off + t) % 8 == off % 8 + t
    ensures off % 8 + t >= 8 ==> (off + t) / 8 == off / 8 + 1 && (off + t) % 8 == off % 8 + t - 8
  {
  }

  /** What the reader's byte arithmetic returns: the next `bpw` bits of the stream. */
  lemma ReadBits(w: seq<Byte>, bpw: nat, off: nat, k: nat)
    requires 1 <= bpw <= 8 && k < 8
    ensures ReadAt(w, bpw, off)[k] == (k + bpw >= 8 && StreamBit(w, off + (k + bpw - 8)))
  {
    if 8 - off % 8 >= bpw { ReadWithin(w, bpw, off, k); } else { ReadAcross(w, bpw, off, k); }
  }

  lemma ReadWithin(w: seq<Byte>, bpw: nat, off: nat, k: nat)
    requires 1 <= bpw <= 8 && k < 8 && 8 - off % 8 >= bpw
    ensures ReadAt(w, bpw, off)[k] == (k + bpw >= 8 && StreamBit(w, off + (k + bpw - 8)))
  {
    if k + bpw >= 8 { StreamIndex(off, k + bpw - 8); }
  }

  lemma ReadAcross(w: seq<Byte>, bpw: nat, off: nat, k: nat)
    requires 1 <= bpw <= 8 && k < 8 && 8 - off % 8 < bpw
    ensures ReadAt(w, bpw, off)[k] == (k + bpw >= 8 && StreamBit(w, off + (k + bpw - 8)))
  {
    var bit := ReadTwoBytes(w, bpw, off, off / 8, 8 - off % 8, k);
    if k + bpw >= 8 { SameStreamBit(w, off, k + bpw - 8, off / 8, 8 - off % 8, bit); }
  }

  lemma SameStreamBit(w: seq<Byte>, off: nat, t: nat, byte: nat, left: nat, bit: bool)
    requires t < 8 && byte == off / 8 && left == 8 - off % 8
    requires bit == var at := 8 - left + t; if at >= 8 then byte + 1 < |w| && w[byte + 1][at - 8] else byte < |w| && w[byte][at]
    ensures bit == StreamBit(w, off + t)
  {
    StreamIndex(off, t);
  }

  /** A bit of a code read across two bytes, by byte and position. */
  lemma ReadTwoBytes(w: seq<Byte>, bpw: nat, off: nat, byte: nat, left: nat, k: nat) returns (bit: bool)
    requires 1 <= bpw <= 8 && k < 8 && byte == off / 8 && left == 8 - off % 8 < bpw
    ensures bit == ReadAt(w, bpw, off)[k]
    ensures var t := k + bpw - left;
            bit ==
            if t >= 8 then byte + 1 < |w| && w[byte + 1][t - 8] else k + bpw >= 8 && byte < |w| && w[byte][t]
  {
    bit := ReadAt(w, bpw, off)[k];
    if byte < |w| {
      var second := if byte + 1 < |w| then w[byte + 1] else Zero();
      JoinedBits(w[byte], second, left, bpw - left, k);
      NoBitsOfZero(8 - (bpw - left), bpw - left, k);
    }
  }

  /** The bits of a code read across two bytes. */
  lemma JoinedBits(a: Byte, b: Byte, left: nat, low: nat, k: nat)
    requires 0 < left && left + low <= 8 && k < 8
    ensures Or(ShiftLeft(And(a, Ones(left)), low), And(ShiftRight(b, 8 - low), Ones(low)))[k] ==
            if k + low >= 8 then b[k + low - 8] else k + low + left >= 8 && a[k + low]
  {
  }

  lemma NoBitsOfZero(s: nat, low: nat, k: nat)
    requires k < 8
    ensures !And(ShiftRight(Zero(), s), Ones(low))[k] && !Zero()[k]
  {
  }

  /** A code of `bpw` bits: its other bits are clear. */
  predicate IsCode(c: Byte, bpw: nat) {
    forall k :: 0 <= k < 8 && k + bpw < 8 ==> !c[k]
  }

  /** The bits of `c` are in the stream at `off`. */
  predicate Stored(w: seq<Byte>, bpw: nat, off: nat, c: Byte)
    requires bpw <= 8
  {
    forall k {:trigger c[k]} :: 8 - bpw <= k < 8 ==> StreamBit(w, off + (k + bpw - 8)) == c[k]
  }

  lemma StoredIsRead(w: seq<Byte>, bpw: nat, off: nat, c: Byte)
    requires 1 <= bpw <= 8 && IsCode(c, bpw) && Stored(w, bpw, off, c)
    ensures ReadAt(w, bpw, off) == c
  {
    var r := ReadAt(w, bpw, off);
    forall k | 0 <= k < 8 ensures r[k] == c[k] {
      ReadBits(w, bpw, off, k);
    }
  }

  // ---------------------------------------------------------------- writing

  /** ORs a code into the stream, byte arithmetic as in the packer. */
  function WriteAt(w: seq<Byte>, bpw: nat, off: nat, c: Byte): (r: seq<Byte>)
    requires 1 <= bpw <= 8 && off / 8 < |w|
    ensures |r| == |w|
  {
    var byte, left := off / 8, 8 - off % 8;
    if left >= bpw then w[byte := Or(w[byte], ShiftLeft(c, left - bpw))]
    else
      var low := bpw - left;
      var v := w[byte := Or(w[byte], ShiftRight(c, low))];
      if byte + 1 < |w| then v[byte + 1 := Or(v[byte + 1], ShiftLeft(c, 8 - low))] else v
  }

  /** Writing sets exactly the bits of the code, at its place. */
  lemma WriteBits(w: seq<Byte>, bpw: nat, off: nat, c: Byte, p: nat)
    requires 1 <= bpw <= 8 && off + bpw <= 8 * |w| && IsCode(c, bpw)
    ensures off / 8 < |w|
    ensures StreamBit(WriteAt(w, bpw, off, c), p) ==
            (StreamBit(w, p) || (off <= p < off + bpw && c[8 - bpw + (p - off)]))
  {
    if off <= p < off + bpw { StreamIndex(off, p - off); }
  }

  // ---------------------------------------------------------------- a row of codes

  predicate AllCodes(codes: seq<Byte>, bpw: nat) {
    forall i :: 0 <= i < |codes| ==> IsCode(codes[i], bpw)
  }

  /** The first `n` codes are stored one after another, and nothing follows them. */
  ghost predicate RowStored(w: seq<Byte>, codes: seq<Byte>, bpw: nat, n: nat)
    requires 1 <= bpw <= 8 && n <= |codes|
  {
    && (forall i {:trigger codes[i]} :: 0 <= i < n ==> Stored(w, bpw, i * bpw, codes[i]))
    && (forall p: nat {:trigger StreamBit(w, p)} :: p >= n * bpw ==> !StreamBit(w, p))
  }

  lemma OneMoreStored(w: seq<Byte>, codes: seq<Byte>, bpw: nat, n: nat)
    requires 1 <= bpw <= 8 && n < |codes| && AllCodes(codes, bpw) && RowStored(w, codes, bpw, n)
    requires (n + 1) * bpw <= 8 * |w|
    ensures n * bpw / 8 < |w| && RowStored(WriteAt(w, bpw, n * bpw, codes[n]), codes, bpw, n + 1)
  {
    var off, c := n * bpw, codes[n];
    assert (n + 1) * bpw == off + bpw;
    WriteBits(w, bpw, off, c, 0);
    var v := WriteAt(w, bpw, off, c);
    forall i | 0 <= i < n + 1 ensures Stored(v, bpw, i * bpw, codes[i]) {
      CodeStays(w, v, codes, bpw, n, off, i);
    }
    NothingFollows(w, v, bpw, off, c);
  }

  lemma CodeStays(w: seq<Byte>, v: seq<Byte>, codes: seq<Byte>, bpw: nat, n: nat, off: nat, i: nat)
    requires 1 <= bpw <= 8 && i <= n < |codes| && AllCodes(codes, bpw) && RowStored(w, codes, bpw, n)
    requires off == n * bpw && off + bpw <= 8 * |w| && off / 8 < |w| && v == WriteAt(w, bpw, off, codes[n])
    ensures Stored(v, bpw, i * bpw, codes[i])
  {
    var at := i * bpw;
    CodeBefore(bpw, n, off, i, at);
    StillStored(w, v, bpw, off, codes[n], at, codes[i]);
  }

  lemma CodeBefore(bpw: nat, n: nat, off: nat, i: nat, at: nat)
    requires 1 <= bpw && i <= n && off == n * bpw && at == i * bpw
    ensures if i == n then at == off else at + bpw <= off
  {
    if i < n {
      MulMonotone(i + 1, n, bpw);
      assert (i + 1) * bpw == at + bpw;
    }
  }

  lemma NothingFollows(w: seq<Byte>, v: seq<Byte>, bpw: nat, off: nat, c: Byte)
    requires 1 <= bpw <= 8 && off + bpw <= 8 * |w| && IsCode(c, bpw) && off / 8 < |w| && v == WriteAt(w, bpw, off, c)
    requires forall p: nat {:trigger StreamBit(w, p)} :: p >= off ==> !StreamBit(w, p)
    ensures forall p: nat {:trigger StreamBit(v, p)} :: p >= off + bpw ==> !StreamBit(v, p)
  {
    forall p: nat | p >= off + bpw ensures !StreamBit(v, p) {
      WriteBits(w, bpw, off, c, p);
    }
  }

  /** A write keeps the codes before it and stores its own. */
  lemma StillStored(w: seq<Byte>, v: seq<Byte>, bpw: nat, off: nat, c: Byte, at: nat, d: Byte)
    requires 1 <= bpw <= 8 && off + bpw <= 8 * |w| && IsCode(c, bpw) && off / 8 < |w| && v == WriteAt(w, bpw, off, c)
    requires if at == off then d == c && (forall p: nat {:trigger StreamBit(w, p)} :: p >= off ==> !StreamBit(w, p))
             else at + bpw <= off && Stored(w, bpw, at, d)
    ensures Stored(v, bpw, at, d)
  {
    forall k | 8 - bpw <= k < 8 ensures StreamBit(v, at + (k + bpw - 8)) == d[k] {
      WriteBits(w, bpw, off, c, at + (k + bpw - 8));
    }
  }

  /** Bytes for `bits` bits. */
  function BytesFor(bits: nat): nat {
    (bits + 7) / 8
  }

  /** The next multiple of 256. */
  function AlignUp(n: nat): nat {
    (n + 255) / 256 * 256
  }

  /** One code written into the buffer. */
  method WriteCode(out: array<Byte>, bpw: nat, off: nat, code: Byte)
    requires 1 <= bpw <= 8 && off / 8 < out.Length
    modifies out
    ensures out[..] == WriteAt(old(out[..]), bpw, off, code)
  {
    var byte, left := off / 8, 8 - off % 8;
    if left >= bpw {
      out[byte] := Or(out[byte], ShiftLeft(code, left - bpw));
    } else {
      var low := bpw - left;
      out[byte] := Or(out[byte], ShiftRight(code, low));
      if byte + 1 < out.Length { out[byte + 1] := Or(out[byte + 1], ShiftLeft(code, 8 - low)); }
    }
  }

  lemma RoomForCode(i: nat, n: nat, bpw: nat)
    requires i < n
    ensures (i + 1) * bpw <= 8 * BytesFor(n * bpw)
  {
    MulMonotone(i + 1, n, bpw);
  }

  /** The packer: OR every code into a zeroed buffer. */
  method PackCodes(codes: seq<Byte>, bpw: nat) returns (out: array<Byte>)
    requires 1 <= bpw <= 8 && AllCodes(codes, bpw)
    ensures out.Length == BytesFor(|codes| * bpw) && RowStored(out[..], codes, bpw, |codes|)
  {
    out := new Byte[BytesFor(|codes| * bpw)](_ => Zero());
    for i := 0 to |codes|
      invariant RowStored(out[..], codes, bpw, i)
    {
      RoomForCode(i, |codes|, bpw);
      OneMoreStored(out[..], codes, bpw, i);
      WriteCode(out, bpw, i * bpw, codes[i]);
    }
  }
}
