/** Finite sums over the reals, the inner product of flat buffers, and the few laws the
    gradient proofs need. `At` reads a buffer and is zero outside it, so sums can be written
    without carrying index bounds. */
module Sums {

  function At(s: seq<real>, i: int): real {
    if 0 <= i < |s| then s[i] else 0.0
  }

  function Sum(n: nat, f: int -> real): real {
    if n == 0 then 0.0 else Sum(n - 1, f) + f(n - 1)
  }

  function Dot(a: seq<real>, b: seq<real>): real {
    Sum(|a|, i => At(a, i) * At(b, i))
  }

  function AddSeq(a: seq<real>, b: seq<real>): (c: seq<real>)
    ensures |c| == |a|
  {
    seq(|a|, i => At(a, i) + At(b, i))
  }

  function ScaleSeq(c: real, a: seq<real>): (r: seq<real>)
    ensures |r| == |a|
  {
    seq(|a|, i => c * At(a, i))
  }

  predicate IsZero(a: seq<real>) {
    forall i :: 0 <= i < |a| ==> a[i] == 0.0
  }

  lemma {:induction false} SumExt(n: nat, f: int -> real, g: int -> real)
    requires forall i :: 0 <= i < n ==> f(i) == g(i)
    ensures Sum(n, f) == Sum(n, g)
  {
    if n > 0 { SumExt(n - 1, f, g); }
  }

  lemma {:induction false} SumAdd(n: nat, f: int -> real, g: int -> real, h: int -> real)
    requires forall i :: 0 <= i < n ==> h(i) == f(i) + g(i)
    ensures Sum(n, h) == Sum(n, f) + Sum(n, g)
  {
    if n > 0 { SumAdd(n - 1, f, g, h); }
  }

  lemma {:induction false} SumScale(n: nat, c: real, f: int -> real, h: int -> real)
    requires forall i :: 0 <= i < n ==> h(i) == c * f(i)
    ensures Sum(n, h) == c * Sum(n, f)
  {
    if n > 0 { SumScale(n - 1, c, f, h); }
  }

  lemma {:induction false} SumZero(n: nat, f: int -> real)
    requires forall i :: 0 <= i < n ==> f(i) == 0.0
    ensures Sum(n, f) == 0.0
  {
    if n > 0 { SumZero(n - 1, f); }
  }

  /** A sum whose terms agree everywhere but at `k` changes by the change at `k`. */
  lemma {:induction false} SumChange(n: nat, f: int -> real, g: int -> real, k: nat)
    requires k < n
    requires forall i :: 0 <= i < n && i != k ==> f(i) == g(i)
    ensures Sum(n, g) == Sum(n, f) + g(k) - f(k)
  {
    if k == n - 1 {
      SumExt(n - 1, f, g);
    } else {
      SumChange(n - 1, f, g, k);
    }
  }

  /** A sum with one term that can be nonzero. */
  lemma SumSingle(n: nat, f: int -> real, k: nat)
    requires k < n
    requires forall i :: 0 <= i < n && i != k ==> f(i) == 0.0
    ensures Sum(n, f) == f(k)
  {
    SumZero(n, i => 0.0);
    SumChange(n, i => 0.0, f, k);
  }

  lemma {:induction false} SumConcat(m: nat, n: nat, f: int -> real, g: int -> real)
    requires forall i :: 0 <= i < n ==> g(i) == f(m + i)
    ensures Sum(m + n, f) == Sum(m, f) + Sum(n, g)
  {
    if n > 0 { SumConcat(m, n - 1, f, g); }
  }

  function RowSum(n: nat, f: (int, int) -> real, i: int): real {
    Sum(n, j => f(i, j))
  }

  function ColSum(m: nat, f: (int, int) -> real, j: int): real {
    Sum(m, i => f(i, j))
  }

  /** Exchange of a double sum. */
  lemma {:induction false} SumSwap(m: nat, n: nat, f: (int, int) -> real)
    ensures Sum(m, i => RowSum(n, f, i)) == Sum(n, j => ColSum(m, f, j))
  {
    if m == 0 {
      SumZero(n, j => ColSum(0, f, j));
    } else {
      SumSwap(m - 1, n, f);
      SumAdd(n, j => ColSum(m - 1, f, j), j => f(m - 1, j), j => ColSum(m, f, j));
      SumExt(n, j => f(m - 1, j), j => f(m - 1, j));
    }
  }

  lemma DotCommutes(a: seq<real>, b: seq<real>)
    requires |a| == |b|
    ensures Dot(a, b) == Dot(b, a)
  {
    SumExt(|a|, i => At(a, i) * At(b, i), i => At(b, i) * At(a, i));
  }

  lemma DotAdd(a: seq<real>, b: seq<real>, c: seq<real>)
    requires |a| == |b| == |c|
    ensures Dot(AddSeq(a, b), c) == Dot(a, c) + Dot(b, c)
  {
    SumAdd(|a|, i => At(a, i) * At(c, i), i => At(b, i) * At(c, i), i => At(AddSeq(a, b), i) * At(c, i));
  }

  lemma DotZero(a: seq<real>, b: seq<real>)
    requires IsZero(a) || IsZero(b)
    ensures Dot(a, b) == 0.0
  {
    SumZero(|a|, i => At(a, i) * At(b, i));
  }

  lemma Assoc(a: real, b: real, c: real, d: real)
    requires d == a * b
    ensures d * c == a * (b * c)
  {
  }

  lemma {:induction false} DotScale(s: real, a: seq<real>, b: seq<real>)
    ensures Dot(ScaleSeq(s, a), b) == s * Dot(a, b)
  {
    var c := ScaleSeq(s, a);
    var u, v := (i: int) => At(a, i) * At(b, i), (i: int) => At(c, i) * At(b, i);
    forall i | 0 <= i < |a| ensures v(i) == s * u(i) {
      Assoc(s, At(a, i), At(b, i), At(c, i));
      assert v(i) == At(c, i) * At(b, i);
    }
    SumScale(|a|, s, u, v);
  }

  function Abs(x: real): real {
    if x < 0.0 then -x else x
  }

  /** Rounding to nearest, halves away from zero. */
  function Round(x: real): (k: int)
    ensures Abs(k as real - x) <= 0.5
    ensures x >= 0.0 ==> k >= 0
    ensures Abs(x) <= 127.0 ==> -127 <= k <= 127
  {
    if x >= 0.0 then (x + 0.5).Floor else -((-x + 0.5).Floor)
  }

  lemma SameProduct(a: real, b: real, c: real, d: real)
    requires a == c && b == d
    ensures a * b == c * d
  {
  }

  function OneHot(n: nat, at: nat): (u: seq<real>)
    ensures |u| == n
  {
    seq(n, i => if i == at then 1.0 else 0.0)
  }

  lemma {:induction false} PairWithUnit(n: nat, at: nat, a: seq<real>)
    requires at < n == |a|
    ensures Dot(a, OneHot(n, at)) == a[at] && Dot(OneHot(n, at), a) == a[at]
  {
    var u := OneHot(n, at);
    SumSingle(n, i => At(a, i) * At(u, i), at);
    SumExt(n, i => At(a, i) * At(u, i), i => At(a, i) * At(u, i));
    DotCommutes(a, u);
  }

  /** u(0) v(0) + ... + u(n - 1) v(n - 1). */
  function Pairs(n: nat, u: int -> real, v: int -> real): real {
    Sum(n, l => u(l) * v(l))
  }

  lemma PairsExt(n: nat, u: int -> real, v: int -> real, u': int -> real, v': int -> real)
    requires forall l :: 0 <= l < n ==> u(l) == u'(l) && v(l) == v'(l)
    ensures Pairs(n, u, v) == Pairs(n, u', v')
  {
    SumExt(n, l => u(l) * v(l), l => u'(l) * v'(l));
  }

  predicate ScaledBy(s: real, x: real, y: real) {
    y == s * x
  }

  lemma PairsScale(n: nat, s: real, u: int -> real, u': int -> real, v: int -> real)
    requires forall l {:trigger u'(l)} :: 0 <= l < n ==> ScaledBy(s, u(l), u'(l))
    ensures ScaledBy(s, Pairs(n, u, v), Pairs(n, u', v))
  {
    var f, g := (l: int) => u(l) * v(l), (l: int) => u'(l) * v(l);
    forall l | 0 <= l < n ensures g(l) == s * f(l) {
      Assoc(s, u(l), v(l), u'(l));
    }
    SumScale(n, s, f, g);
  }

  lemma ProductPositive(a: real, b: real)
    requires a > 0.0 && b > 0.0
    ensures a * b > 0.0
  {
  }

  lemma ProductNotNegative(a: real, b: real)
    requires a >= 0.0 && b >= 0.0
    ensures a * b >= 0.0
  {
  }

  lemma SquareNotNegative(g: real)
    ensures g * g >= 0.0
  {
  }

  // ---------------------------------------------------------------- square roots

  predicate RootAt(root: real -> real, x: real) {
    root(x) >= 0.0 && root(x) * root(x) == x
  }

  /** The square root is a parameter wherever it is needed. */
  ghost predicate IsRoot(root: real -> real) {
    forall x {:trigger root(x)} :: x >= 0.0 ==> RootAt(root, x)
  }
}
