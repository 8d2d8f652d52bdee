/** Names of checkpoint blobs: decimal numbers and suffixes joined by underscores. Which parameters
    share a name decides what a checkpoint can hold. */
module SlotNames {
  import opened Tensors

  function Digit(d: nat): (c: char)
    requires d < 10
    ensures '0' <= c <= '9'
  {
    (d + 48) as char
  }

  /** The decimal form of a number. */
  function Digits(n: nat): (s: string)
    ensures |s| > 0 && forall i :: 0 <= i < |s| ==> '0' <= s[i] <= '9'
  {
    if n < 10 then [Digit(n)] else Digits(n / 10) + [Digit(n % 10)]
  }

  lemma LongNumbers(n: nat)
    ensures |Digits(n)| > 1 <==> n >= 10
  {
  }

  lemma {:induction false} DigitsInjective(a: nat, b: nat)
    requires Digits(a) == Digits(b)
    ensures a == b
  {
    var s := Digits(a);
    assert Digit(a % 10) == s[|s| - 1] == Digit(b % 10);
    if a < 10 {
      LongNumbers(b);
    } else {
      LongNumbers(a);
      assert Digits(a)[..|s| - 1] == Digits(a / 10) && Digits(b)[..|s| - 1] == Digits(b / 10);
      DigitsInjective(a / 10, b / 10);
    }
  }

  function Suffix(p: InjectionPoint): (s: string)
    ensures NoSeparator(s)
  {
    match p
    case QProj => "qproj"
    case KProj => "kproj"
    case VProj => "vproj"
    case OProj => "oproj"
    case GateProj => "gateproj"
    case UpProj => "upproj"
    case DownProj => "downproj"
    case Logits => "logits"
  }

  lemma SuffixInjective(p: InjectionPoint, q: InjectionPoint)
    requires Suffix(p) == Suffix(q)
    ensures p == q
  {
    assert Suffix(p)[0] == Suffix(q)[0];
  }

  predicate NoSeparator(s: string) {
    forall i :: 0 <= i < |s| ==> s[i] != '_'
  }

  ghost predicate Plain(parts: seq<string>) {
    |parts| > 0 && forall i :: 0 <= i < |parts| ==> NoSeparator(parts[i])
  }

  function Joined(parts: seq<string>): string
    requires |parts| > 0
  {
    if |parts| == 1 then parts[0] else parts[0] + ("_" + Joined(parts[1..]))
  }

  lemma NotInside(x: string, r: string, y: string, s: string)
    requires NoSeparator(y) && x + ("_" + r) == y + ("_" + s)
    ensures |x| >= |y|
  {
    assert (x + ("_" + r))[|x|] == '_';
  }

  /** The first separator ends the first part. */
  lemma SplitOnce(x: string, y: string, r: string, s: string)
    requires NoSeparator(x) && NoSeparator(y) && x + ("_" + r) == y + ("_" + s)
    ensures x == y && r == s
  {
    var z := x + ("_" + r);
    assert z[|x|] == '_' && z[|y|] == '_';
    NotInside(x, r, y, s);
    NotInside(y, s, x, r);
    assert z[..|x|] == x && z[..|y|] == y;
    assert z[|x| + 1..] == r && z[|y| + 1..] == s;
  }

  /** Joining loses nothing when no part contains the separator. */
  lemma {:induction false} JoinedInjective(a: seq<string>, b: seq<string>)
    requires Plain(a) && Plain(b) && |a| == |b| && Joined(a) == Joined(b)
    ensures a == b
  {
    if |a| > 1 {
      SplitOnce(a[0], b[0], Joined(a[1..]), Joined(b[1..]));
      JoinedInjective(a[1..], b[1..]);
      assert a == [a[0]] + a[1..] && b == [b[0]] + b[1..];
    }
  }

  // ---------------------------------------------------------------- the slots

  function Side(id: ParamId): (s: string)
    ensures NoSeparator(s)
  {
    if id.isA then "a" else "b"
  }

  function WeightParts(id: ParamId): (parts: seq<string>)
    ensures |parts| == 5 && Plain(parts)
  {
    ["param", Digits(id.layerIdx), Digits(id.adapterId), Suffix(id.point), Side(id)]
  }

  function MomentParts(kind: string, id: ParamId): (parts: seq<string>)
    requires NoSeparator(kind)
    ensures |parts| == 5 && Plain(parts)
  {
    ["opt", kind, Digits(id.layerIdx), Digits(id.adapterId), Suffix(id.point)]
  }

  function PageParts(kind: string, id: ParamId, page: nat): (parts: seq<string>)
    requires NoSeparator(kind)
    ensures |parts| == 6 && Plain(parts)
  {
    ["paged", kind, Digits(id.layerIdx), Digits(id.adapterId), Side(id), "p" + Digits(page)]
  }

  function WeightSlot(id: ParamId): string {
    Joined(WeightParts(id))
  }

  function MSlot(id: ParamId): string {
    Joined(MomentParts("m", id))
  }

  function VSlot(id: ParamId): string {
    Joined(MomentParts("v", id))
  }

  function PagedMKey(id: ParamId, page: nat): string {
    Joined(PageParts("m", id, page))
  }

  function PagedVKey(id: ParamId, page: nat): string {
    Joined(PageParts("v", id, page))
  }

  /** The other matrix of the same adapter. */
  function Twin(id: ParamId): ParamId {
    id.(isA := !id.isA)
  }

  /** Weight names are unique. */
  lemma WeightSlotInjective(a: ParamId, b: ParamId)
    ensures WeightSlot(a) == WeightSlot(b) <==> a == b
  {
    if WeightSlot(a) == WeightSlot(b) {
      var x, y := WeightParts(a), WeightParts(b);
      JoinedInjective(x, y);
      assert x[1] == y[1] && x[2] == y[2] && x[3] == y[3] && x[4] == y[4];
      DigitsInjective(a.layerIdx, b.layerIdx);
      DigitsInjective(a.adapterId, b.adapterId);
      SuffixInjective(a.point, b.point);
      assert Side(a)[0] == Side(b)[0];
    }
  }

  /** Moment names forget which matrix of the adapter they belong to, and nothing else. */
  lemma MomentSlotShared(a: ParamId, b: ParamId)
    ensures MSlot(a) == MSlot(b) <==> a == b || a == Twin(b)
    ensures VSlot(a) == VSlot(b) <==> a == b || a == Twin(b)
  {
    MomentPartsShared("m", a, b);
    MomentPartsShared("v", a, b);
  }

  lemma MomentPartsShared(kind: string, a: ParamId, b: ParamId)
    requires NoSeparator(kind)
    ensures Joined(MomentParts(kind, a)) == Joined(MomentParts(kind, b)) <==> a == b || a == Twin(b)
  {
    var x, y := MomentParts(kind, a), MomentParts(kind, b);
    if Joined(x) == Joined(y) {
      JoinedInjective(x, y);
      assert x[2] == y[2] && x[3] == y[3] && x[4] == y[4];
      DigitsInjective(a.layerIdx, b.layerIdx);
      DigitsInjective(a.adapterId, b.adapterId);
      SuffixInjective(a.point, b.point);
    }
    assert a == Twin(b) ==> x == y;
  }

  /** The three kinds of names never meet. */
  lemma SlotKindsDisjoint(a: ParamId, b: ParamId)
    ensures WeightSlot(a) != MSlot(b) && WeightSlot(a) != VSlot(b) && MSlot(a) != VSlot(b)
  {
    var w, m, v := WeightParts(a), MomentParts("m", b), MomentParts("v", b);
    assert w[0] == "param" && m[0] == "opt" && v[0] == "opt";
    if Joined(w) == Joined(m) { JoinedInjective(w, m); }
    if Joined(w) == Joined(v) { JoinedInjective(w, v); }
    var ma := MomentParts("m", a);
    assert ma[1] == "m" && v[1] == "v";
    if Joined(ma) == Joined(v) { JoinedInjective(ma, v); }
  }

  /** Page names forget the injection point, and nothing else. */
  lemma PagedKeyForgetsPoint(a: ParamId, b: ParamId, p: nat, q: nat)
    ensures PagedMKey(a, p) == PagedMKey(b, q) <==> p == q && a == b.(point := a.point)
    ensures PagedVKey(a, p) == PagedVKey(b, q) <==> p == q && a == b.(point := a.point)
  {
    PagePartsForgetPoint("m", a, b, p, q);
    PagePartsForgetPoint("v", a, b, p, q);
  }

  lemma PagePartsForgetPoint(kind: string, a: ParamId, b: ParamId, p: nat, q: nat)
    requires NoSeparator(kind)
    ensures Joined(PageParts(kind, a, p)) == Joined(PageParts(kind, b, q)) <==> p == q && a == b.(point := a.point)
  {
    var x, y := PageParts(kind, a, p), PageParts(kind, b, q);
    if Joined(x) == Joined(y) {
      JoinedInjective(x, y);
      assert x[2] == y[2] && x[3] == y[3] && x[4] == y[4] && x[5] == y[5];
      DigitsInjective(a.layerIdx, b.layerIdx);
      DigitsInjective(a.adapterId, b.adapterId);
      assert Side(a)[0] == Side(b)[0];
      assert x[5][1..] == Digits(p) && y[5][1..] == Digits(q);
      DigitsInjective(p, q);
    }
    assert p == q && a == b.(point := a.point) ==> x == y;
  }

  /** Page names never meet each other's kind, nor any other name. */
  lemma PagedKeysApart(a: ParamId, b: ParamId, p: nat, q: nat)
    ensures PagedMKey(a, p) != PagedVKey(b, q)
    ensures WeightSlot(a) != PagedMKey(b, q) && WeightSlot(a) != PagedVKey(b, q)
    ensures MSlot(a) != PagedMKey(b, q) && MSlot(a) != PagedVKey(b, q)
    ensures VSlot(a) != PagedMKey(b, q) && VSlot(a) != PagedVKey(b, q)
  {
    var m, v := PageParts("m", a, p), PageParts("v", b, q);
    assert m[1] == "m" && v[1] == "v";
    if Joined(m) == Joined(v) { JoinedInjective(m, v); }
    FirstPartShows(WeightParts(a), PageParts("m", b, q));
    FirstPartShows(WeightParts(a), PageParts("v", b, q));
    FirstPartShows(MomentParts("m", a), PageParts("m", b, q));
    FirstPartShows(MomentParts("m", a), PageParts("v", b, q));
    FirstPartShows(MomentParts("v", a), PageParts("m", b, q));
    FirstPartShows(MomentParts("v", a), PageParts("v", b, q));
  }

  lemma FirstPartShows(a: seq<string>, b: seq<string>)
    requires Plain(a) && Plain(b) && |a| > 1 && |b| > 1 && a[0] != b[0]
    ensures Joined(a) != Joined(b)
  {
    if Joined(a) == Joined(b) { SplitOnce(a[0], b[0], Joined(a[1..]), Joined(b[1..])); }
  }
}
