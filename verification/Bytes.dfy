/** A byte as its eight bits, most significant first, and the machine operations on it. The bit
    lists are what the packing proofs work on; the last lemma ties them to 8-bit words. */
module Bytes {

  type Byte = b: seq<bool> | |b| == 8 witness [false, false, false, false, false, false, false, false]

  function Or(a: Byte, b: Byte): (r: Byte)
    ensures forall k {:trigger r[k]} :: 0 <= k < 8 ==> r[k] == (a[k] || b[k])
  {
    seq(8, k requires 0 <= k < 8 => a[k] || b[k])
  }

  function And(a: Byte, b: Byte): (r: Byte)
    ensures forall k {:trigger r[k]} :: 0 <= k < 8 ==> r[k] == (a[k] && b[k])
  {
    seq(8, k requires 0 <= k < 8 => a[k] && b[k])
  }

  /** a << s, dropping what leaves the byte. */
  function ShiftLeft(a: Byte, s: nat): (r: Byte)
    ensures forall k {:trigger r[k]} :: 0 <= k < 8 ==> r[k] == (k + s < 8 && a[k + s])
  {
    seq(8, k requires 0 <= k < 8 => k + s < 8 && a[k + s])
  }

  /** a >> s. */
  function ShiftRight(a: Byte, s: nat): (r: Byte)
    ensures forall k {:trigger r[k]} :: 0 <= k < 8 ==> r[k] == (s <= k && a[k - s])
  {
    seq(8, k requires 0 <= k < 8 => s <= k && a[k - s])
  }

  /** (1 << n) - 1. */
  function Ones(n: nat): (r: Byte)
    ensures forall k {:trigger r[k]} :: 0 <= k < 8 ==> r[k] == (k + n >= 8)
  {
    seq(8, k requires 0 <= k < 8 => k + n >= 8)
  }

  function Zero(): (r: Byte)
    ensures forall k {:trigger r[k]} :: 0 <= k < 8 ==> !r[k]
  {
    seq(8, k => false)
  }

  // ---------------------------------------------------------------- numbers

  /** 2^bits. */
  function Levels(bits: nat): (l: nat)
    ensures l >= 1 && (bits > 0 ==> l >= 2)
  {
    if bits == 0 then 1 else 2 * Levels(bits - 1)
  }

  /** The number a bit list stands for. */
  function NumberOf(b: seq<bool>): nat {
    if b == [] then 0 else 2 * NumberOf(b[..|b| - 1]) + (if b[|b| - 1] then 1 else 0)
  }

  /** The last `k` binary digits of a number. */
  function Binary(n: nat, k: nat): (b: seq<bool>)
    ensures |b| == k
  {
    if k == 0 then [] else Binary(n / 2, k - 1) + [n % 2 == 1]
  }

  function ByteOf(n: nat): Byte {
    Binary(n, 8)
  }

  lemma {:induction false} NumberOfBinary(n: nat, k: nat)
    requires n < Levels(k)
    ensures NumberOf(Binary(n, k)) == n
  {
    if k > 0 {
      NumberOfBinary(n / 2, k - 1);
      assert Binary(n, k)[..k - 1] == Binary(n / 2, k - 1);
    }
  }

  /** Bytes represent the numbers below 256. */
  lemma NumberOfByteOf(n: nat)
    requires n < 256
    ensures NumberOf(ByteOf(n)) == n
  {
    assert Levels(4) == 16 && Levels(8) == 2 * (2 * (2 * (2 * Levels(4))));
    NumberOfBinary(n, 8);
  }

  /** Numbers below 2^bits leave the leading bits clear. */
  lemma {:induction false} LeadingBitsClear(n: nat, k: nat, bits: nat, i: nat)
    requires n < Levels(bits) && i + bits < k
    ensures !Binary(n, k)[i]
  {
    if bits > 0 { LeadingBitsClear(n / 2, k - 1, bits - 1, i); } else if i < k - 1 { LeadingBitsClear(n / 2, k - 1, 0, i); }
  }

  // ---------------------------------------------------------------- 8-bit words

  /** Bit `k` of a byte, counted from the most significant. */
  function Bit(b: bv8, k: nat): bool
    requires k < 8
    decreases k
  {
    if k == 0 then b & 0x80 != 0 else Bit(b << 1, k - 1)
  }

  /** b << s, one place at a time. */
  function Shl(b: bv8, s: nat): bv8 {
    if s == 0 then b else Shl(b, s - 1) << 1
  }

  /** b >> s, one place at a time. */
  function Shr(b: bv8, s: nat): bv8 {
    if s == 0 then b else Shr(b, s - 1) >> 1
  }

  /** (1 << n) - 1: n ones. */
  function LowMask(n: nat): bv8 {
    if n == 0 then 0 else (LowMask(n - 1) << 1) | 1
  }

  /** These are the machine shifts and masks. */
  lemma ShiftsAreShifts(b: bv8, s: nat)
    requires s < 8
    ensures Shl(b, s) == b << s && Shr(b, s) == b >> s && LowMask(s) == (1 << s) - 1 && LowMask(8) == 0xFF
  {
    var m := LowMask(0);
    assert LowMask(1) == 1 && LowMask(2) == 3 && LowMask(3) == 7 && LowMask(4) == 15;
    assert LowMask(5) == 31 && LowMask(6) == 63 && LowMask(7) == 127 && LowMask(8) == 255;
    if s == 0 {} else if s == 1 {} else if s == 2 {} else if s == 3 {} else if s == 4 {} else if s == 5 {} else if s == 6 {} else { assert s == 7; }
  }

  lemma {:induction false} OrBits(a: bv8, b: bv8, k: nat)
    requires k < 8
    ensures Bit(a | b, k) == (Bit(a, k) || Bit(b, k))
    decreases k
  {
    if k > 0 {
      assert (a | b) << 1 == (a << 1) | (b << 1);
      OrBits(a << 1, b << 1, k - 1);
    }
  }

  lemma AndShifted(a: bv8, b: bv8)
    ensures (a & b) << 1 == (a << 1) & (b << 1)
    ensures ((a & b) & 0x80 != 0) == (a & 0x80 != 0 && b & 0x80 != 0)
  {
  }

  lemma {:induction false} AndBits(a: bv8, b: bv8, k: nat)
    requires k < 8
    ensures Bit(a & b, k) == (Bit(a, k) && Bit(b, k))
    decreases k
  {
    AndShifted(a, b);
    if k > 0 { AndBits(a << 1, b << 1, k - 1); }
  }

  /** Eight single shifts empty a byte. */
  lemma {:induction false} ZeroBits(k: nat)
    requires k < 8
    ensures !Bit(0, k)
    decreases k
  {
    if k > 0 {
      assert 0 as bv8 << 1 == 0;
      ZeroBits(k - 1);
    }
  }

  lemma LastBit(b: bv8)
    ensures Bit(b, 7) == (b & 1 != 0)
  {
    assert Bit(b, 7) == Bit(b << 1, 6) == Bit((b << 1) << 1, 5) == Bit(((b << 1) << 1) << 1, 4);
    var c := ((b << 1) << 1) << 1;
    assert Bit(c, 4) == Bit(c << 1, 3) == Bit((c << 1) << 1, 2) == Bit(((c << 1) << 1) << 1, 1);
    var d := ((c << 1) << 1) << 1;
    assert Bit(d, 1) == Bit(d << 1, 0);
  }

  lemma OneLeft(b: bv8, k: nat)
    requires k < 8
    ensures Bit(b << 1, k) == (k < 7 && Bit(b, k + 1))
  {
    if k == 7 { LastBit(b << 1); }
  }

  lemma {:induction false} OneRight(b: bv8, k: nat)
    requires k < 8
    ensures Bit(b >> 1, k) == (k > 0 && Bit(b, k - 1))
  {
    if k > 0 {
      var c := (b >> 1) << 1;
      assert c == b & 0xFE;
      AndBits(b, 0xFE, k - 1);
      FirstSeven(k - 1);
      assert Bit(b >> 1, k) == Bit(c, k - 1);
    }
  }

  lemma FirstSeven(k: nat)
    requires k < 7
    ensures Bit(0xFE, k)
  {
    if k == 0 {} else if k == 1 {} else if k == 2 {} else if k == 3 {} else if k == 4 {} else if k == 5 {} else { assert k == 6; }
  }

  lemma {:induction false} ShlBits(b: bv8, s: nat, k: nat)
    requires k < 8
    ensures Bit(Shl(b, s), k) == (k + s < 8 && Bit(b, k + s))
    decreases s
  {
    if s > 0 {
      OneLeft(Shl(b, s - 1), k);
      if k < 7 { ShlBits(b, s - 1, k + 1); }
    }
  }

  lemma {:induction false} ShrBits(b: bv8, s: nat, k: nat)
    requires k < 8
    ensures Bit(Shr(b, s), k) == (s <= k && Bit(b, k - s))
    decreases s
  {
    if s > 0 {
      OneRight(Shr(b, s - 1), k);
      if k > 0 { ShrBits(b, s - 1, k - 1); }
    }
  }

  lemma {:induction false} MaskBits(n: nat, k: nat)
    requires n <= 8 && k < 8
    ensures Bit(LowMask(n), k) == (k >= 8 - n)
    decreases n
  {
    if n == 0 {
      ZeroBits(k);
    } else {
      OrBits(LowMask(n - 1) << 1, 1, k);
      OneLeft(LowMask(n - 1), k);
      if k < 7 { MaskBits(n - 1, k + 1); }
      OnlyLast(k);
    }
  }

  lemma OnlyLast(k: nat)
    requires k < 8
    ensures Bit(1, k) == (k == 7)
  {
    if k == 0 {} else if k == 1 {} else if k == 2 {} else if k == 3 {} else if k == 4 {} else if k == 5 {} else if k == 6 {} else { LastBit(1); }
  }

  lemma FirstFour(b: bv8)
    ensures Bit(b, 0) == (b & 0x80 != 0) && Bit(b, 1) == (b & 0x40 != 0)
    ensures Bit(b, 2) == (b & 0x20 != 0) && Bit(b, 3) == (b & 0x10 != 0)
  {
    assert Bit(b, 1) == Bit(b << 1, 0);
    assert Bit(b, 2) == Bit(b << 1, 1) == Bit((b << 1) << 1, 0);
    assert Bit(b, 3) == Bit(b << 1, 2) == Bit((b << 1) << 1, 1) == Bit(((b << 1) << 1) << 1, 0);
  }

  lemma LastFour(b: bv8)
    ensures Bit(b, 4) == (b & 0x08 != 0) && Bit(b, 5) == (b & 0x04 != 0)
    ensures Bit(b, 6) == (b & 0x02 != 0) && Bit(b, 7) == (b & 0x01 != 0)
  {
    var c := (((b << 1) << 1) << 1) << 1;
    Four(b, 0);
    Four(b, 1);
    Four(b, 2);
    Four(b, 3);
    FirstFour(c);
  }

  lemma Four(b: bv8, k: nat)
    requires k < 4
    ensures Bit(b, k + 4) == Bit((((b << 1) << 1) << 1) << 1, k)
  {
    assert Bit(b, k + 4) == Bit(b << 1, k + 3);
    assert Bit(b << 1, k + 3) == Bit((b << 1) << 1, k + 2);
    assert Bit((b << 1) << 1, k + 2) == Bit(((b << 1) << 1) << 1, k + 1);
  }

  lemma SameWord(a: bv8, b: bv8)
    requires (a & 0x80 != 0) == (b & 0x80 != 0) && (a & 0x40 != 0) == (b & 0x40 != 0)
    requires (a & 0x20 != 0) == (b & 0x20 != 0) && (a & 0x10 != 0) == (b & 0x10 != 0)
    requires (a & 0x08 != 0) == (b & 0x08 != 0) && (a & 0x04 != 0) == (b & 0x04 != 0)
    requires (a & 0x02 != 0) == (b & 0x02 != 0) && (a & 0x01 != 0) == (b & 0x01 != 0)
    ensures a == b
  {
  }

  /** Equal bits, equal words. */
  lemma SameBits(a: bv8, b: bv8)
    requires BitsOf(a) == BitsOf(b)
    ensures a == b
  {
    FirstFour(a);
    FirstFour(b);
    LastFour(a);
    LastFour(b);
    BitAt(a, b, 0);
    BitAt(a, b, 1);
    BitAt(a, b, 2);
    BitAt(a, b, 3);
    BitAt(a, b, 4);
    BitAt(a, b, 5);
    BitAt(a, b, 6);
    BitAt(a, b, 7);
    SameWord(a, b);
  }

  lemma BitAt(a: bv8, b: bv8, k: nat)
    requires k < 8 && BitsOf(a) == BitsOf(b)
    ensures Bit(a, k) == Bit(b, k)
  {
    assert BitsOf(a)[k] == Bit(a, k) && BitsOf(b)[k] == Bit(b, k);
  }

  function BitsOf(b: bv8): Byte {
    seq(8, k requires 0 <= k < 8 => Bit(b, k))
  }

  /** The list operations are the machine operations. */
  lemma OperationsAreMachineOperations(a: bv8, b: bv8, s: nat)
    requires s < 8
    ensures BitsOf(a | b) == Or(BitsOf(a), BitsOf(b)) && BitsOf(a & b) == And(BitsOf(a), BitsOf(b))
    ensures BitsOf(Shl(a, s)) == ShiftLeft(BitsOf(a), s) && BitsOf(Shr(a, s)) == ShiftRight(BitsOf(a), s)
    ensures BitsOf(LowMask(s)) == Ones(s)
    ensures BitsOf(a) == BitsOf(b) ==> a == b
  {
    WordBits(a, b);
    ShiftBits(a, s);
    if BitsOf(a) == BitsOf(b) { SameBits(a, b); }
  }

  lemma WordBits(a: bv8, b: bv8)
    ensures BitsOf(a | b) == Or(BitsOf(a), BitsOf(b)) && BitsOf(a & b) == And(BitsOf(a), BitsOf(b))
  {
    forall k | 0 <= k < 8
      ensures Bit(a | b, k) == (Bit(a, k) || Bit(b, k)) && Bit(a & b, k) == (Bit(a, k) && Bit(b, k))
    {
      OrBits(a, b, k);
      AndBits(a, b, k);
    }
  }

  lemma ShiftBits(a: bv8, s: nat)
    requires s < 8
    ensures BitsOf(Shl(a, s)) == ShiftLeft(BitsOf(a), s) && BitsOf(Shr(a, s)) == ShiftRight(BitsOf(a), s)
    ensures BitsOf(LowMask(s)) == Ones(s)
  {
    forall k | 0 <= k < 8
      ensures Bit(Shl(a, s), k) == (k + s < 8 && Bit(a, k + s)) && Bit(Shr(a, s), k) == (s <= k && Bit(a, k - s)) && Bit(LowMask(s), k) == (k + s >= 8)
    {
      ShlBits(a, s, k);
      ShrBits(a, s, k);
      MaskBits(s, k);
    }
  }
}
