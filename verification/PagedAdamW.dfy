/** AdamW with its moments in flat vectors, and with the moments cut into pages that are touched on
    demand. Stepping is elementwise, so both are described over one elementwise rule. */
module PagedAdamW {
  import opened Sums
  import opened Places
  import opened Tensors

  // ---------------------------------------------------------------- the elementwise rule

  datatype Config = Config(lr: real, beta1: real, beta2: real, eps: real, weightDecay: real, pageSize: nat, cpuOffload: bool)

  predicate ConfigOk(c: Config) {
    0.0 <= c.beta1 < 1.0 && 0.0 <= c.beta2 < 1.0 && c.eps > 0.0
  }

  function Power(b: real, n: nat): real {
    if n == 0 then 1.0 else Power(b, n - 1) * b
  }

  /** 1 - beta^t, the bias correction of step t. */
  function Correction(beta: real, t: nat): (c: real)
    requires 0.0 <= beta < 1.0 && t > 0
    ensures c > 0.0
  {
    PowerBelowOne(beta, t);
    1.0 - Power(beta, t)
  }

  lemma {:induction false} PowerBelowOne(beta: real, t: nat)
    requires 0.0 <= beta < 1.0
    ensures 0.0 <= Power(beta, t) <= 1.0 && (t > 0 ==> Power(beta, t) < 1.0)
  {
    if t > 0 {
      PowerBelowOne(beta, t - 1);
      Shrinks(Power(beta, t - 1), beta);
    }
  }

  lemma Shrinks(a: real, b: real)
    requires 0.0 <= a <= 1.0 && 0.0 <= b < 1.0
    ensures 0.0 <= a * b <= b
  {
  }

  /** First moment, second moment and value of one element after a step; `root` is the square
      root. */
  datatype Rule = Rule(m: (real, real) -> real, v: (real, real) -> real, d: (real, real, real) -> real)

  function NewM(c: Config, m: real, g: real): real {
    c.beta1 * m + (1.0 - c.beta1) * g
  }

  function NewV(c: Config, v: real, g: real): real {
    c.beta2 * v + (1.0 - c.beta2) * g * g
  }

  ghost predicate RootOk(root: real -> real) {
    forall x {:trigger root(x)} :: root(x) >= 0.0
  }

  function NewD(c: Config, root: real -> real, t: nat, d: real, m: real, v: real): real
    requires ConfigOk(c) && t > 0
  {
    var denominator := root(v / Correction(c.beta2, t)) + c.eps;
    var ratio := if denominator == 0.0 then 0.0 else m / Correction(c.beta1, t) / denominator;
    d - c.lr * (ratio + c.weightDecay * d)
  }

  function RuleOf(c: Config, root: real -> real, t: nat): Rule
    requires ConfigOk(c) && t > 0
  {
    Rule((m, g) => NewM(c, m, g), (v, g) => NewV(c, v, g), (d, m, v) => NewD(c, root, t, d, m, v))
  }

  // ---------------------------------------------------------------- flat moments

  datatype Moments = Moments(m: seq<real>, v: seq<real>)

  function Map2(f: (real, real) -> real, a: seq<real>, b: seq<real>): (r: seq<real>)
    ensures |r| == |a| && forall i :: 0 <= i < |a| ==> r[i] == f(a[i], At(b, i))
  {
    seq(|a|, i requires 0 <= i < |a| => f(a[i], At(b, i)))
  }

  function Map3(f: (real, real, real) -> real, a: seq<real>, b: seq<real>, c: seq<real>): (r: seq<real>)
    ensures |r| == |a| && forall i :: 0 <= i < |a| ==> r[i] == f(a[i], At(b, i), At(c, i))
  {
    seq(|a|, i requires 0 <= i < |a| => f(a[i], At(b, i), At(c, i)))
  }

  /** The moments after a step with gradient `g`. */
  function Advanced(r: Rule, s: Moments, g: seq<real>): Moments {
    Moments(Map2(r.m, s.m, g), Map2(r.v, s.v, g))
  }

  /** The data after a step that left the moments `s`. */
  function Updated(r: Rule, d: seq<real>, s: Moments): seq<real> {
    Map3(r.d, d, s.m, s.v)
  }

  function ZeroMoments(n: nat): (s: Moments)
    ensures |s.m| == |s.v| == n
  {
    Moments(seq(n, _ => 0.0), seq(n, _ => 0.0))
  }

  /** Moments are seeded with zeros on first encounter. */
  function MomentsOf(flat: map<ParamId, Moments>, id: ParamId, n: nat): Moments {
    if id in flat then flat[id] else ZeroMoments(n)
  }

  // ---------------------------------------------------------------- pages

  datatype Page = Page(m: seq<real>, v: seq<real>, dirty: bool, inGpu: bool)

  type Pages = map<(ParamId, nat), Page>

  function PageEnd(size: nat, p: nat, n: nat): (e: nat)
    requires size > 0 && PlaceOf(p, size, 0) <= n
    ensures PlaceOf(p, size, 0) <= e <= n
  {
    if PlaceOf(p, size, 0) + size < n then PlaceOf(p, size, 0) + size else n
  }

  function PageCount(size: nat, n: nat): nat
    requires size > 0
  {
    (n + size - 1) / size
  }

  /** Pages are exactly those that start inside the vector, and together they end where it does. */
  lemma PageInside(size: nat, n: nat, p: nat)
    requires size > 0
    ensures p < PageCount(size, n) <==> PlaceOf(p, size, 0) < n
    ensures p <= PageCount(size, n) && p > 0 ==> PlaceOf(p - 1, size, 0) < n
  {
    PlaceIs(p, size, 0);
    CountIs(size, n, p);
    if p > 0 {
      PlaceIs(p - 1, size, 0);
      CountIs(size, n, p - 1);
    }
  }

  lemma CountIs(size: nat, n: nat, p: nat)
    requires size > 0
    ensures p < PageCount(size, n) <==> p * size < n
  {
    var k := PageCount(size, n);
    assert k * size <= n + size - 1 < k * size + size;
    if p < k {
      MulLe(p + 1, k, size);
    } else {
      MulLe(k, p, size);
    }
  }

  lemma MulLe(a: nat, b: nat, n: nat)
    requires a <= b
    ensures a * n <= b * n && (a + 1) * n == a * n + n && (a > 0 ==> (a - 1) * n == a * n - n)
  {
  }

  /** The page as it is touched: stored, or zeros of its length. */
  function Touched(pages: Pages, id: ParamId, size: nat, p: nat, n: nat): Page
    requires size > 0 && PlaceOf(p, size, 0) <= n
  {
    var len := PageEnd(size, p, n) - PlaceOf(p, size, 0);
    if (id, p) in pages then pages[(id, p)] else Page(seq(len, _ => 0.0), seq(len, _ => 0.0), false, false)
  }

  /** The slice of a vector on page `p`. */
  function Slice(x: seq<real>, size: nat, p: nat): (r: seq<real>)
    requires size > 0 && PlaceOf(p, size, 0) <= |x|
  {
    x[PlaceOf(p, size, 0)..PageEnd(size, p, |x|)]
  }

  /** Page `p` after a step: its moments advance with the gradient of its slice. */
  function SteppedPage(r: Rule, page: Page, g: seq<real>, offload: bool): Page {
    Page(Map2(r.m, page.m, g), Map2(r.v, page.v, g), true, !offload)
  }

  function NewPage(r: Rule, pages: Pages, id: ParamId, size: nat, g: seq<real>, offload: bool, p: nat): Page
    requires size > 0 && PlaceOf(p, size, 0) <= |g|
  {
    SteppedPage(r, Touched(pages, id, size, p, |g|), Slice(g, size, p), offload)
  }

  lemma {:induction false} PagesAscend(size: nat, p: nat, q: nat)
    requires p <= q
    ensures PlaceOf(p, size, 0) <= PlaceOf(q, size, 0)
  {
    if p < q { PagesAscend(size, p, q - 1); }
  }

  /** The pages after the first `k` pages of a parameter are stepped. */
  function PagesAfter(r: Rule, pages: Pages, id: ParamId, size: nat, g: seq<real>, offload: bool, k: nat): Pages
    requires size > 0 && (k > 0 ==> PlaceOf(k - 1, size, 0) <= |g|)
  {
    if k == 0 then pages
    else
      PagesAscend(size, if k > 1 then k - 2 else 0, k - 1);
      PagesAfter(r, pages, id, size, g, offload, k - 1)[(id, k - 1) := NewPage(r, pages, id, size, g, offload, k - 1)]
  }

  /** The data of the first `k` pages after a step. */
  function PagedData(r: Rule, pages: Pages, id: ParamId, size: nat, d: seq<real>, g: seq<real>, offload: bool, k: nat): seq<real>
    requires size > 0 && |d| == |g| && (k > 0 ==> PlaceOf(k - 1, size, 0) <= |g|)
  {
    if k == 0 then []
    else
      PagesAscend(size, if k > 1 then k - 2 else 0, k - 1);
      var page := NewPage(r, pages, id, size, g, offload, k - 1);
      PagedData(r, pages, id, size, d, g, offload, k - 1) + Map3(r.d, Slice(d, size, k - 1), page.m, page.v)
  }

  // ---------------------------------------------------------------- pages mirror vectors

  /** The pages of `id`, concatenated, are the flat moments of a parameter of `n` elements. */
  ghost predicate Mirrors(pages: Pages, flat: map<ParamId, Moments>, id: ParamId, size: nat, n: nat)
    requires size > 0
  {
    var s := MomentsOf(flat, id, n);
    && |s.m| == |s.v| == n
    && MirrorsMoments(pages, s, id, size, n)
  }

  ghost predicate MirrorsMoments(pages: Pages, s: Moments, id: ParamId, size: nat, n: nat)
    requires size > 0 && |s.m| == |s.v| == n
  {
    forall p: nat {:trigger MirrorsPage(pages, s, id, size, n, p)} :: MirrorsPage(pages, s, id, size, n, p)
  }

  ghost predicate MirrorsPage(pages: Pages, s: Moments, id: ParamId, size: nat, n: nat, p: nat)
    requires size > 0 && |s.m| == |s.v| == n
  {
    PlaceOf(p, size, 0) < n ==>
      var page := Touched(pages, id, size, p, n);
      page.m == Slice(s.m, size, p) && page.v == Slice(s.v, size, p)
  }

  lemma SliceOfMap2(f: (real, real) -> real, a: seq<real>, g: seq<real>, size: nat, p: nat)
    requires size > 0 && |a| == |g| && PlaceOf(p, size, 0) <= |a|
    ensures Map2(f, Slice(a, size, p), Slice(g, size, p)) == Slice(Map2(f, a, g), size, p)
  {
  }

  lemma SliceOfMap3(f: (real, real, real) -> real, d: seq<real>, m: seq<real>, v: seq<real>, size: nat, p: nat)
    requires size > 0 && |d| == |m| == |v| && PlaceOf(p, size, 0) <= |d|
    ensures Map3(f, Slice(d, size, p), Slice(m, size, p), Slice(v, size, p)) == Slice(Map3(f, d, m, v), size, p)
  {
  }

  /** What the page map holds after `k` pages. */
  lemma {:induction false} PagesAfterAt(r: Rule, pages: Pages, id: ParamId, size: nat, g: seq<real>, offload: bool, k: nat, key: (ParamId, nat))
    requires size > 0 && (k > 0 ==> PlaceOf(k - 1, size, 0) <= |g|)
    ensures key.0 == id && key.1 < k ==>
              PlaceOf(key.1, size, 0) <= |g| && key in PagesAfter(r, pages, id, size, g, offload, k) &&
              PagesAfter(r, pages, id, size, g, offload, k)[key] == NewPage(r, pages, id, size, g, offload, key.1)
    ensures !(key.0 == id && key.1 < k) ==>
              (key in PagesAfter(r, pages, id, size, g, offload, k) <==> key in pages) &&
              (key in pages ==> PagesAfter(r, pages, id, size, g, offload, k)[key] == pages[key])
  {
    if k > 0 {
      PagesAscend(size, if k > 1 then k - 2 else 0, k - 1);
      PagesAfterAt(r, pages, id, size, g, offload, k - 1, key);
    }
  }

  /** A new page is the slice of the advanced vector. */
  lemma NewPageMirrors(r: Rule, pages: Pages, s: Moments, id: ParamId, size: nat, g: seq<real>, offload: bool, p: nat)
    requires size > 0 && |s.m| == |s.v| == |g| && PlaceOf(p, size, 0) < |g| && MirrorsPage(pages, s, id, size, |g|, p)
    ensures var (page, t) := (NewPage(r, pages, id, size, g, offload, p), Advanced(r, s, g));
            page.m == Slice(t.m, size, p) && page.v == Slice(t.v, size, p) && page.dirty && page.inGpu == !offload
  {
    SliceOfMap2(r.m, s.m, g, size, p);
    SliceOfMap2(r.v, s.v, g, size, p);
  }

  /** Stepping keeps the pages a mirror of the vectors. */
  lemma StepMirrors(r: Rule, pages: Pages, flat: map<ParamId, Moments>, id: ParamId, size: nat, g: seq<real>, offload: bool)
    requires size > 0 && Mirrors(pages, flat, id, size, |g|)
    ensures var k := PageCount(size, |g|);
            && (k > 0 ==> PlaceOf(k - 1, size, 0) <= |g|)
            && Mirrors(PagesAfter(r, pages, id, size, g, offload, k), flat[id := Advanced(r, MomentsOf(flat, id, |g|), g)], id, size, |g|)
  {
    var n, k := |g|, PageCount(size, |g|);
    PageInside(size, n, k);
    var s := MomentsOf(flat, id, n);
    var t := Advanced(r, s, g);
    forall p: nat ensures MirrorsPage(PagesAfter(r, pages, id, size, g, offload, k), t, id, size, n, p) {
      assert MirrorsPage(pages, s, id, size, n, p);
      PageInside(size, n, p);
      if PlaceOf(p, size, 0) < n {
        PagesAfterAt(r, pages, id, size, g, offload, k, (id, p));
        NewPageMirrors(r, pages, s, id, size, g, offload, p);
      }
    }
  }

  /** Other parameters' pages and vectors are left alone. */
  lemma StepKeepsOthers(r: Rule, pages: Pages, flat: map<ParamId, Moments>, id: ParamId, size: nat, g: seq<real>, offload: bool, k: nat, other: ParamId, n: nat, s: Moments)
    requires size > 0 && (k > 0 ==> PlaceOf(k - 1, size, 0) <= |g|) && other != id && Mirrors(pages, flat, other, size, n)
    ensures Mirrors(PagesAfter(r, pages, id, size, g, offload, k), flat[id := s], other, size, n)
  {
    forall p: nat
      ensures MirrorsPage(PagesAfter(r, pages, id, size, g, offload, k), MomentsOf(flat, other, n), other, size, n, p)
    {
      PagesAfterAt(r, pages, id, size, g, offload, k, (other, p));
      assert MirrorsPage(pages, MomentsOf(flat, other, n), other, size, n, p);
    }
  }

  /** What page `p` contributes to the data. */
  lemma PageDataIs(r: Rule, pages: Pages, s: Moments, id: ParamId, size: nat, d: seq<real>, g: seq<real>, offload: bool, p: nat)
    requires size > 0 && |s.m| == |s.v| == |d| == |g| && PlaceOf(p, size, 0) < |g| && MirrorsPage(pages, s, id, size, |g|, p)
    ensures var page := NewPage(r, pages, id, size, g, offload, p);
            Map3(r.d, Slice(d, size, p), page.m, page.v) == Slice(Updated(r, d, Advanced(r, s, g)), size, p)
  {
    var t := Advanced(r, s, g);
    NewPageMirrors(r, pages, s, id, size, g, offload, p);
    SliceOfMap3(r.d, d, t.m, t.v, size, p);
  }

  /** How much of a vector the first `k` pages cover. */
  function Covered(size: nat, k: nat, n: nat): (e: nat)
    requires size > 0 && (k > 0 ==> PlaceOf(k - 1, size, 0) <= n)
    ensures e <= n
  {
    if k == 0 then 0 else PageEnd(size, k - 1, n)
  }

  /** The data computed page by page is the data computed on vectors. */
  lemma {:induction false} DataMirrors(r: Rule, pages: Pages, s: Moments, id: ParamId, size: nat, d: seq<real>, g: seq<real>, offload: bool, k: nat, x: seq<real>)
    requires size > 0 && |s.m| == |s.v| == |d| == |g| && (k > 0 ==> PlaceOf(k - 1, size, 0) < |g|) && x == Updated(r, d, Advanced(r, s, g))
    requires MirrorsMoments(pages, s, id, size, |g|)
    ensures PagedData(r, pages, id, size, d, g, offload, k) == x[..Covered(size, k, |g|)]
  {
    if k > 0 {
      PagesAscend(size, if k > 1 then k - 2 else 0, k - 1);
      DataMirrors(r, pages, s, id, size, d, g, offload, k - 1, x);
      assert MirrorsPage(pages, s, id, size, |g|, k - 1);
      PageDataIs(r, pages, s, id, size, d, g, offload, k - 1);
      CoveredGrows(x, size, k - 1);
    }
  }

  lemma CoveredGrows(x: seq<real>, size: nat, p: nat)
    requires size > 0 && PlaceOf(p, size, 0) < |x|
    ensures p > 0 ==> PlaceOf(p - 1, size, 0) <= |x|
    ensures x[..Covered(size, p, |x|)] + Slice(x, size, p) == x[..Covered(size, p + 1, |x|)]
  {
    JoinSlices(x, size, p);
  }

  lemma JoinSlices(x: seq<real>, size: nat, p: nat)
    requires size > 0 && PlaceOf(p, size, 0) < |x|
    ensures x[..if p == 0 then 0 else PlaceOf(p, size, 0)] + Slice(x, size, p) == x[..PageEnd(size, p, |x|)]
    ensures p > 0 ==> PlaceOf(p - 1, size, 0) < |x| && PageEnd(size, p - 1, |x|) == PlaceOf(p, size, 0)
  {
    if p > 0 { PagesAscend(size, p - 1, p); }
  }
}
