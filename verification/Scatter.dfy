/** Gathering through an index map and scattering back are adjoint, whatever the map. Broadcasting
    and embedding lookup are both gathers; their backward loops are the scatters. */
module Scatter {
  import opened Sums

  function Gather(n: nat, at: int -> int, x: seq<real>): (r: seq<real>)
    ensures |r| == n
  {
    seq(n, i => At(x, at(i)))
  }

  /** The buffer of size `size` after adding g[0], ..., g[n-1] at their places. */
  function ScatterAdd(n: nat, at: int -> int, g: seq<real>, size: nat): (r: seq<real>)
    ensures |r| == size
  {
    if n == 0 then seq(size, _ => 0.0)
    else
      var s := ScatterAdd(n - 1, at, g, size);
      var p := at(n - 1);
      if 0 <= p < size then s[p := s[p] + At(g, n - 1)] else s
  }

  /** The terms of <gather(x), g>. */
  function Pairing(at: int -> int, x: seq<real>, g: seq<real>): int -> real {
    i => At(x, at(i)) * At(g, i)
  }

  lemma AddAt(s: seq<real>, t: seq<real>, p: nat, v: real, x: seq<real>)
    requires p < |s| == |x| && t == s[p := s[p] + v]
    ensures Dot(t, x) == Dot(s, x) + x[p] * v
  {
    var f, h := (i: int) => At(s, i) * At(x, i), (i: int) => At(t, i) * At(x, i);
    forall i | 0 <= i < |x| && i != p ensures f(i) == h(i) {
      assert At(s, i) == At(t, i);
    }
    SumChange(|x|, f, h, p);
    ChangedTerm(s[p], v, x[p], t[p]);
  }

  lemma ChangedTerm(a: real, v: real, x: real, b: real)
    requires b == a + v
    ensures b * x - a * x == x * v
  {
  }

  lemma {:induction false} ScatterIsAdjoint(n: nat, at: int -> int, x: seq<real>, g: seq<real>)
    ensures Sum(n, Pairing(at, x, g)) == Dot(ScatterAdd(n, at, g, |x|), x)
  {
    if n == 0 {
      DotZero(ScatterAdd(n, at, g, |x|), x);
    } else {
      ScatterIsAdjoint(n - 1, at, x, g);
      var pair := OneMore(n, at, x, g);
    }
  }

  /** One more contribution adds the same term to both sides. */
  lemma OneMore(n: nat, at: int -> int, x: seq<real>, g: seq<real>) returns (pair: real)
    requires n > 0
    ensures Sum(n, Pairing(at, x, g)) == Sum(n - 1, Pairing(at, x, g)) + pair
    ensures Dot(ScatterAdd(n, at, g, |x|), x) == Dot(ScatterAdd(n - 1, at, g, |x|), x) + pair
  {
    pair := Pairing(at, x, g)(n - 1);
    OneMorePlace(ScatterAdd(n - 1, at, g, |x|), ScatterAdd(n, at, g, |x|), at(n - 1), At(g, n - 1), x, pair);
  }

  lemma OneMorePlace(before: seq<real>, s: seq<real>, p: int, v: real, x: seq<real>, pair: real)
    requires |before| == |x| && s == (if 0 <= p < |x| then before[p := before[p] + v] else before) && pair == At(x, p) * v
    ensures Dot(s, x) == Dot(before, x) + pair
  {
    if 0 <= p < |x| { AddAt(before, s, p, v, x); } else { ZeroTimes(At(x, p), v); }
  }

  lemma ZeroTimes(a: real, b: real)
    requires a == 0.0
    ensures a * b == 0.0
  {
  }

  lemma SameFactor(a: real, b: real, c: real)
    requires a == b
    ensures a * c == b * c
  {
  }

  lemma GatherDot(n: nat, at: int -> int, x: seq<real>, g: seq<real>)
    ensures Dot(Gather(n, at, x), g) == Sum(n, Pairing(at, x, g))
  {
    var s, e := Gather(n, at, x), Pairing(at, x, g);
    var f := (i: int) => At(s, i) * At(g, i);
    forall i | 0 <= i < n ensures f(i) == e(i) {
      SameFactor(At(s, i), At(x, at(i)), At(g, i));
    }
    SumExt(n, f, e);
  }

  /** Main result: <gather(x), g> == <x, scatter(g)>. */
  lemma GatherScatterAdjoint(n: nat, at: int -> int, x: seq<real>, g: seq<real>)
    ensures Dot(Gather(n, at, x), g) == Dot(ScatterAdd(n, at, g, |x|), x)
  {
    ScatterIsAdjoint(n, at, x, g);
    GatherDot(n, at, x, g);
  }

  /** Scattering in range keeps the total. */
  lemma ScatterKeepsTotal(n: nat, at: int -> int, g: seq<real>, size: nat)
    requires forall i :: 0 <= i < n ==> 0 <= at(i) < size
    ensures Sum(size, i => At(ScatterAdd(n, at, g, size), i)) == Sum(n, i => At(g, i))
  {
    var ones := seq(size, _ => 1.0);
    ScatterIsAdjoint(n, at, ones, g);
    SumExt(n, Pairing(at, ones, g), i => At(g, i));
    SumExt(size, i => At(ScatterAdd(n, at, g, size), i) * At(ones, i), i => At(ScatterAdd(n, at, g, size), i));
  }

  lemma {:induction false} ScatterExt(n: nat, at: int -> int, at': int -> int, g: seq<real>, size: nat)
    requires forall i :: 0 <= i < n ==> at(i) == at'(i)
    ensures ScatterAdd(n, at, g, size) == ScatterAdd(n, at', g, size)
  {
    if n > 0 { ScatterExt(n - 1, at, at', g, size); }
  }

  /** reduced[idx] += grad[lin]. */
  method AddOne(reduced: array<real>, idx: nat, lin: nat, ghost at: int -> int, grad: seq<real>)
    requires idx < reduced.Length && lin < |grad| && at(lin) == idx
    requires reduced[..] == ScatterAdd(lin, at, grad, reduced.Length)
    modifies reduced
    ensures reduced[..] == ScatterAdd(lin + 1, at, grad, reduced.Length)
  {
    reduced[idx] := reduced[idx] + grad[lin];
  }

  /** Contributions whose place is out of range leave no trace. */
  lemma {:induction false} ScatterSkips(a: nat, b: nat, at: int -> int, g: seq<real>, size: nat)
    requires a <= b && forall i :: a <= i < b ==> !(0 <= at(i) < size)
    ensures ScatterAdd(b, at, g, size) == ScatterAdd(a, at, g, size)
  {
    if a < b { ScatterSkips(a, b - 1, at, g, size); }
  }
}
