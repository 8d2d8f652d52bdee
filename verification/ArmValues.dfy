/** What the CPU arms compute, entry by entry: every index and every factor is written out from the
    recorded operation and its operands. */
module ArmValues {
  import opened Sums
  import opened Grids
  import opened Rows
  import opened Tensors
  import opened TapeModel
  import opened Sweep
  import opened MatMulKernel
  import opened LoraKernel
  import opened BroadcastKernel
  import opened ReplayAddKernel
  import opened EmbeddingKernel
  import opened RopeKernel
  import opened Adjoint
  import opened CpuKernels

  lemma PairsAre(k: nat, X: (int, int) -> real, Y: (int, int) -> real, i: int, j: int, u: int -> real, v: int -> real)
    requires forall l :: 0 <= l < k ==> X(i, l) == u(l) && Y(l, j) == v(l)
    ensures Product(k, X, Y, i, j) == Pairs(k, u, v)
  {
    SumExt(k, l => X(i, l) * Y(l, j), l => u(l) * v(l));
  }

  // ---------------------------------------------------------------- matrix product

  lemma LeftAt(ta: bool, m: nat, k: nat, a: seq<real>, i: int, l: int)
    ensures Left(ta, m, k, a)(i, l) == At(a, if ta then l * m + i else i * k + l)
  {
    assert i * 1 + l * m == l * m + i && i * k + l * 1 == i * k + l;
  }

  lemma RightAt(tb: bool, k: nat, n: nat, b: seq<real>, l: int, j: int)
    ensures Right(tb, k, n, b)(l, j) == At(b, if tb then j * k + l else l * n + j)
  {
    assert l * 1 + j * k == j * k + l && l * n + j * 1 == l * n + j;
  }

  /** Entry (i, j) of a product: A is stored m-by-k, or k-by-m if transposed, and B k-by-n, or n-by-k
      if transposed. */
  lemma MatMulEntry(ta: bool, tb: bool, m: nat, k: nat, n: nat, a: seq<real>, b: seq<real>, i: nat, j: nat)
    requires i < m && j < n
    ensures 0 <= i * n + j < m * n
    ensures MatMulOf(ta, tb, m, k, n, a, b)[i * n + j] ==
            Pairs(k, l => At(a, if ta then l * m + i else i * k + l), l => At(b, if tb then j * k + l else l * n + j))
  {
    var X, Y := Left(ta, m, k, a), Right(tb, k, n, b);
    var u, v := (l: int) => At(a, if ta then l * m + i else i * k + l), (l: int) => At(b, if tb then j * k + l else l * n + j);
    FlatIndex(m, n, i, j);
    MatMulCell(m, n, k, X, Y, i * n + j);
    forall l | 0 <= l < k ensures X(i, l) == u(l) && Y(l, j) == v(l) {
      LeftAt(ta, m, k, a, i, l);
      RightAt(tb, k, n, b, l, j);
    }
    PairsAre(k, X, Y, i, j, u, v);
  }

  // ---------------------------------------------------------------- LoRA

  /** Entry (i, r) of x Aᵀ. */
  function HiddenAt(fin: nat, x: seq<real>, a: seq<real>, i: int, r: int): real {
    Pairs(fin, c => At(x, i * fin + c), c => At(a, r * fin + c))
  }

  /** Entry (i, r) of g B. */
  function BackAt(rank: nat, fout: nat, g: seq<real>, b: seq<real>, i: int, r: int): real {
    Pairs(fout, j => At(g, i * fout + j), j => At(b, j * rank + r))
  }

  lemma HiddenEntry(d: LoraDims, x: seq<real>, a: seq<real>, i: nat, r: nat)
    requires i < d.batch && r < d.rank
    ensures 0 <= i * d.rank + r < d.batch * d.rank && Hidden(d, x, a)[i * d.rank + r] == HiddenAt(d.fin, x, a, i, r)
  {
    MatMulEntry(false, true, d.batch, d.fin, d.rank, x, a, i, r);
    PairsExt(d.fin, l => At(x, if false then l * d.batch + i else i * d.fin + l), l => At(a, if true then r * d.fin + l else l * d.rank + r),
             c => At(x, i * d.fin + c), c => At(a, r * d.fin + c));
  }

  /** Row `i` and column `c` of a row-major buffer with rows of `n`. */
  function RowOf(a: seq<real>, n: nat, i: int): int -> real {
    l => At(a, i * n + l)
  }

  function ColumnOf(a: seq<real>, n: nat, c: int): int -> real {
    l => At(a, l * n + c)
  }

  /** Row `i` of x Aᵀ. */
  function HiddenRow(fin: nat, x: seq<real>, a: seq<real>, i: int): int -> real {
    r => HiddenAt(fin, x, a, i, r)
  }

  lemma RowAt(a: seq<real>, n: nat, i: int, j: int)
    ensures View(a, n, 1)(i, j) == At(a, i * n + j)
  {
    assert i * n + j * 1 == i * n + j;
  }

  lemma ColumnAt(a: seq<real>, n: nat, i: int, j: int)
    ensures View(a, 1, n)(i, j) == At(a, j * n + i)
  {
    assert i * 1 + j * n == j * n + i;
  }

  /** A grid of products whose factors are read from two buffers. */
  lemma GridPairs(m: nat, n: nat, k: nat, X: (int, int) -> real, Y: (int, int) -> real, i: nat, j: nat, u: int -> real, v: int -> real)
    requires i < m && j < n && forall l :: 0 <= l < k ==> X(i, l) == u(l) && Y(l, j) == v(l)
    ensures 0 <= i * n + j < m * n && Grid(m, n, ProductOf(k, X, Y))[i * n + j] == Pairs(k, u, v)
  {
    FlatIndex(m, n, i, j);
    MatMulCell(m, n, k, X, Y, i * n + j);
    PairsAre(k, X, Y, i, j, u, v);
  }

  /** The product of a buffer and a transposed one, cell by cell. */
  lemma RowTimesRow(m: nat, n: nat, k: nat, x: seq<real>, xs: nat, y: seq<real>, ys: nat, i: nat, j: nat)
    requires i < m && j < n
    ensures At(Grid(m, n, ProductOf(k, View(x, xs, 1), View(y, 1, ys))), i * n + j) == Pairs(k, RowOf(x, xs, i), RowOf(y, ys, j))
  {
    forall l | 0 <= l < k ensures View(x, xs, 1)(i, l) == RowOf(x, xs, i)(l) && View(y, 1, ys)(l, j) == RowOf(y, ys, j)(l) {
      RowAt(x, xs, i, l);
      ColumnAt(y, ys, l, j);
    }
    GridPairs(m, n, k, View(x, xs, 1), View(y, 1, ys), i, j, RowOf(x, xs, i), RowOf(y, ys, j));
  }

  lemma HiddenRowIs(d: LoraDims, x: seq<real>, a: seq<real>, i: nat, v: int -> real)
    requires i < d.batch
    ensures Pairs(d.rank, RowOf(Hidden(d, x, a), d.rank, i), v) == Pairs(d.rank, HiddenRow(d.fin, x, a, i), v)
  {
    var u := RowOf(Hidden(d, x, a), d.rank, i);
    forall r | 0 <= r < d.rank ensures u(r) == HiddenRow(d.fin, x, a, i)(r) {
      HiddenEntry(d, x, a, i, r);
    }
    PairsExt(d.rank, u, v, HiddenRow(d.fin, x, a, i), v);
  }

  lemma UpEntry(d: LoraDims, x: seq<real>, a: seq<real>, b: seq<real>, i: nat, j: nat)
    requires i < d.batch && j < d.fout
    ensures At(Up(d, Hidden(d, x, a), b), i * d.fout + j) == Pairs(d.rank, HiddenRow(d.fin, x, a, i), RowOf(b, d.rank, j))
  {
    HiddenRowIs(d, x, a, i, RowOf(b, d.rank, j));
    RowTimesRow(d.batch, d.fout, d.rank, Hidden(d, x, a), d.rank, b, d.rank, i, j);
  }

  /** `y` is alpha / rank times `x`. */
  predicate IsShare(alpha: real, rank: nat, x: real, y: real) {
    rank as real * y == alpha * x
  }

  lemma ShareOf(alpha: real, rank: nat, s: real, x: real, y: real)
    requires rank > 0 && s == alpha / rank as real && ScaledBy(s, x, y)
    ensures IsShare(alpha, rank, x, y)
  {
    assert rank as real * s == alpha;
    Assoc(rank as real, s, x, alpha);
  }

  lemma AddedAt(s: real, base: seq<real>, up: seq<real>, p: nat) returns (y: real)
    requires p < |base| == |up|
    ensures ScaledBy(s, up[p], y) && AddSeq(base, ScaleSeq(s, up))[p] - base[p] == y
  {
    y := s * up[p];
    ScaledSum(s, base, up, up[p], p);
  }

  lemma AddedShare(alpha: real, rank: nat, s: real, base: seq<real>, up: seq<real>, p: nat)
    requires rank > 0 && s == alpha / rank as real && p < |base| == |up|
    ensures IsShare(alpha, rank, up[p], AddSeq(base, ScaleSeq(s, up))[p] - base[p])
  {
    var y := AddedAt(s, base, up, p);
    ShareOf(alpha, rank, s, up[p], y);
  }

  lemma LoraEntry(d: LoraDims, rank: nat, alpha: real, s: real, base: seq<real>, x: seq<real>, a: seq<real>, b: seq<real>, i: nat, j: nat)
    requires rank > 0 && s == alpha / rank as real && |base| == d.batch * d.fout && i < d.batch && j < d.fout
    ensures 0 <= i * d.fout + j < |base|
    ensures IsShare(alpha, rank, Pairs(d.rank, HiddenRow(d.fin, x, a, i), RowOf(b, d.rank, j)),
                    LoraOf(d, s, base, x, a, b)[i * d.fout + j] - base[i * d.fout + j])
  {
    FlatIndex(d.batch, d.fout, i, j);
    UpEntry(d, x, a, b, i, j);
    AddedShare(alpha, rank, s, base, Up(d, Hidden(d, x, a), b), i * d.fout + j);
  }

  lemma LoraReplayIs(o: Kernels, alpha: real, rank: nat, pa: ParamId, pb: ParamId, base: Tensor, x: Tensor, a: Tensor, b: Tensor) returns (d: LoraDims, s: real)
    requires rank > 0 && |x.shape| > 0 && |a.shape| == 2 && |b.shape| == 2
    requires CpuReplay(o, LoRAApply(alpha, rank, pa, pb), [base, x, a, b]).Some?
    ensures d == LoraDims(Prod(x.shape[..|x.shape| - 1]), x.shape[|x.shape| - 1], a.shape[0], b.shape[0]) && s == alpha / rank as real
    ensures |base.data| == d.batch * d.fout
    ensures CpuReplay(o, LoRAApply(alpha, rank, pa, pb), [base, x, a, b]) == Some(Tensor(base.shape, LoraOf(d, s, base.data, x.data, a.data, b.data)))
  {
    d := LoraDims(Prod(x.shape[..|x.shape| - 1]), x.shape[|x.shape| - 1], a.shape[0], b.shape[0]);
    s := alpha / rank as real;
  }

  /** The replay of a LoRA operation: rank times what it adds to the base is alpha times (x Aᵀ) Bᵀ,
      entry by entry. `rank` is the recorded rank, the inner extent is A's own. */
  lemma LoraReplayEntry(o: Kernels, alpha: real, rank: nat, pa: ParamId, pb: ParamId, base: Tensor, x: Tensor, a: Tensor, b: Tensor, i: nat, j: nat)
    requires rank > 0 && |x.shape| > 0 && |a.shape| == 2 && |b.shape| == 2 && i < Prod(x.shape[..|x.shape| - 1]) && j < b.shape[0]
    requires CpuReplay(o, LoRAApply(alpha, rank, pa, pb), [base, x, a, b]).Some?
    ensures var (fin, r, fout) := (x.shape[|x.shape| - 1], a.shape[0], b.shape[0]);
            var out := CpuReplay(o, LoRAApply(alpha, rank, pa, pb), [base, x, a, b]).value;
            && out.shape == base.shape && |out.data| == |base.data| && 0 <= i * fout + j < |base.data|
            && IsShare(alpha, rank, Pairs(r, HiddenRow(fin, x.data, a.data, i), RowOf(b.data, r, j)),
                       out.data[i * fout + j] - base.data[i * fout + j])
  {
    var d, s := LoraReplayIs(o, alpha, rank, pa, pb, base, x, a, b);
    LoraEntry(d, rank, alpha, s, base.data, x.data, a.data, b.data, i, j);
  }

  // ---------------------------------------------------------------- LoRA gradients

  /** Entry (i, r) of g B, as the hidden gradient is summed. */
  lemma BackEntry(d: LoraDims, b: seq<real>, g: seq<real>, i: nat, r: nat)
    requires i < d.batch && r < d.rank
    ensures 0 <= i * d.rank + r < d.batch * d.rank
    ensures GradLeft(false, true, d.batch, d.rank, d.fout, d.rank, b, g)[i * d.rank + r] == BackAt(d.rank, d.fout, g, b, i, r)
  {
    forall j | 0 <= j < d.fout ensures View(g, d.fout, 1)(i, j) == At(g, i * d.fout + j) && View(b, d.rank, 1)(j, r) == At(b, j * d.rank + r) {
      RowAt(g, d.fout, i, j);
      RowAt(b, d.rank, j, r);
    }
    GridPairs(d.batch, d.rank, d.fout, View(g, d.fout, 1), View(b, d.rank, 1), i, r, j => At(g, i * d.fout + j), j => At(b, j * d.rank + r));
  }

  lemma PairsShare(n: nat, alpha: real, rank: nat, s: real, u: int -> real, u': int -> real, v: int -> real)
    requires rank > 0 && s == alpha / rank as real && forall l {:trigger u'(l)} :: 0 <= l < n ==> ScaledBy(s, u(l), u'(l))
    ensures IsShare(alpha, rank, Pairs(n, u, v), Pairs(n, u', v))
  {
    PairsScale(n, s, u, u', v);
    ShareOf(alpha, rank, s, Pairs(n, u, v), Pairs(n, u', v));
  }

  lemma ScaledAt(s: real, a: seq<real>, p: nat)
    requires p < |a|
    ensures ScaledBy(s, a[p], At(ScaleSeq(s, a), p))
  {
    SameProduct(s, At(a, p), s, a[p]);
  }

  lemma HiddenGradAt(d: LoraDims, s: real, b: seq<real>, g: seq<real>, i: nat, r: nat)
    requires i < d.batch && r < d.rank
    ensures ScaledBy(s, BackAt(d.rank, d.fout, g, b, i, r), At(HiddenGrad(d, s, b, g), i * d.rank + r))
  {
    BackEntry(d, b, g, i, r);
    ScaledAt(s, GradLeft(false, true, d.batch, d.rank, d.fout, d.rank, b, g), i * d.rank + r);
  }

  function BackRow(d: LoraDims, g: seq<real>, b: seq<real>, i: int): int -> real {
    r => BackAt(d.rank, d.fout, g, b, i, r)
  }

  function BackColumn(d: LoraDims, g: seq<real>, b: seq<real>, r: int): int -> real {
    i => BackAt(d.rank, d.fout, g, b, i, r)
  }

  function HiddenColumn(d: LoraDims, x: seq<real>, a: seq<real>, r: int): int -> real {
    i => HiddenAt(d.fin, x, a, i, r)
  }

  /** The product of two buffers, cell by cell. */
  lemma RowTimesColumn(m: nat, n: nat, k: nat, x: seq<real>, xs: nat, y: seq<real>, ys: nat, i: nat, j: nat)
    requires i < m && j < n
    ensures At(Grid(m, n, ProductOf(k, View(x, xs, 1), View(y, ys, 1))), i * n + j) == Pairs(k, RowOf(x, xs, i), ColumnOf(y, ys, j))
  {
    forall l | 0 <= l < k ensures View(x, xs, 1)(i, l) == RowOf(x, xs, i)(l) && View(y, ys, 1)(l, j) == ColumnOf(y, ys, j)(l) {
      RowAt(x, xs, i, l);
      RowAt(y, ys, l, j);
    }
    GridPairs(m, n, k, View(x, xs, 1), View(y, ys, 1), i, j, RowOf(x, xs, i), ColumnOf(y, ys, j));
  }

  /** The product of a transposed buffer and another, cell by cell. */
  lemma ColumnTimesColumn(m: nat, n: nat, k: nat, x: seq<real>, xs: nat, y: seq<real>, ys: nat, i: nat, j: nat)
    requires i < m && j < n
    ensures At(Grid(m, n, ProductOf(k, View(x, 1, xs), View(y, ys, 1))), i * n + j) == Pairs(k, ColumnOf(x, xs, i), ColumnOf(y, ys, j))
  {
    forall l | 0 <= l < k ensures View(x, 1, xs)(i, l) == ColumnOf(x, xs, i)(l) && View(y, ys, 1)(l, j) == ColumnOf(y, ys, j)(l) {
      ColumnAt(x, xs, i, l);
      RowAt(y, ys, l, j);
    }
    GridPairs(m, n, k, View(x, 1, xs), View(y, ys, 1), i, j, ColumnOf(x, xs, i), ColumnOf(y, ys, j));
  }

  /** Entry (p, q) of the gradient of A, stored a0-by-a1, for B stored b0-by-b1: row p of G times row q of B
      without transposes, row p of G times column q of B with B transposed, and row p of B times row q of
      G with A transposed, where rows of G are taken to have b0 entries. */
  lemma MatMulLeftEntry(ta: bool, tb: bool, a0: nat, a1: nat, b0: nat, b1: nat, b: seq<real>, g: seq<real>, p: nat, q: nat)
    requires p < a0 && q < a1
    ensures At(GradLeft(ta, tb, a0, a1, b0, b1, b, g), p * a1 + q) ==
            if !ta && !tb then Pairs(b1, RowOf(g, b1, p), RowOf(b, b1, q))
            else if !ta then Pairs(b0, RowOf(g, b0, p), ColumnOf(b, b1, q))
            else Pairs(b0, RowOf(b, b1, p), RowOf(g, b0, q))
  {
    RowTimesRow(a0, a1, b1, g, b1, b, b1, p, q);
    RowTimesColumn(a0, a1, b0, g, b0, b, b1, p, q);
    RowTimesRow(a0, a1, b0, b, b1, g, b0, p, q);
  }

  /** Entry (p, q) of the gradient of B: column p of A times column q of G without transposes, column p of G
      times column q of A with B transposed, and row p of A times column q of G with only A transposed. */
  lemma MatMulRightEntry(ta: bool, tb: bool, a0: nat, a1: nat, b0: nat, b1: nat, a: seq<real>, g: seq<real>, p: nat, q: nat)
    requires p < b0 && q < b1
    ensures At(GradRight(ta, tb, a0, a1, b0, b1, a, g), p * b1 + q) ==
            if !ta && !tb then Pairs(a0, ColumnOf(a, a1, p), ColumnOf(g, b1, q))
            else if tb then Pairs(a0, ColumnOf(g, b0, p), ColumnOf(a, a1, q))
            else Pairs(a0, RowOf(a, a1, p), ColumnOf(g, b0, q))
  {
    ColumnTimesColumn(b0, b1, a0, a, a1, g, b1, p, q);
    ColumnTimesColumn(b0, b1, a0, g, b0, a, a1, p, q);
    RowTimesColumn(b0, b1, a0, a, a1, g, b0, p, q);
  }

  /** Entry (i, c) of the gradient of x is alpha / rank times (g B) A. */
  ghost predicate GradXAt(d: LoraDims, alpha: real, rank: nat, a: seq<real>, b: seq<real>, g: seq<real>, gx: seq<real>, i: nat, c: nat)
    requires rank > 0
  {
    IsShare(alpha, rank, Pairs(d.rank, BackRow(d, g, b, i), ColumnOf(a, d.fin, c)), At(gx, i * d.fin + c))
  }

  lemma HiddenGradRow(d: LoraDims, s: real, b: seq<real>, g: seq<real>, i: nat)
    requires i < d.batch
    ensures forall r {:trigger RowOf(HiddenGrad(d, s, b, g), d.rank, i)(r)} :: 0 <= r < d.rank ==>
              ScaledBy(s, BackRow(d, g, b, i)(r), RowOf(HiddenGrad(d, s, b, g), d.rank, i)(r))
  {
    var u := RowOf(HiddenGrad(d, s, b, g), d.rank, i);
    forall r {:trigger u(r)} | 0 <= r < d.rank ensures ScaledBy(s, BackRow(d, g, b, i)(r), u(r)) {
      HiddenGradAt(d, s, b, g, i, r);
    }
  }

  lemma HiddenGradColumn(d: LoraDims, s: real, b: seq<real>, g: seq<real>, r: nat)
    requires r < d.rank
    ensures forall i {:trigger ColumnOf(HiddenGrad(d, s, b, g), d.rank, r)(i)} :: 0 <= i < d.batch ==>
              ScaledBy(s, BackColumn(d, g, b, r)(i), ColumnOf(HiddenGrad(d, s, b, g), d.rank, r)(i))
  {
    var u := ColumnOf(HiddenGrad(d, s, b, g), d.rank, r);
    forall i {:trigger u(i)} | 0 <= i < d.batch ensures ScaledBy(s, BackColumn(d, g, b, r)(i), u(i)) {
      HiddenGradAt(d, s, b, g, i, r);
    }
  }

  lemma LoraGradX(d: LoraDims, alpha: real, rank: nat, s: real, x: seq<real>, a: seq<real>, b: seq<real>, g: seq<real>, i: nat, c: nat)
    requires rank > 0 && s == alpha / rank as real && i < d.batch && c < d.fin
    ensures GradXAt(d, alpha, rank, a, b, g, LoraGradsOf(d, s, x, a, b, g).x, i, c)
  {
    var dh := HiddenGrad(d, s, b, g);
    MatMulLeftEntry(false, true, d.batch, d.fin, d.rank, d.fin, a, dh, i, c);
    HiddenGradRow(d, s, b, g, i);
    PairsShare(d.rank, alpha, rank, s, BackRow(d, g, b, i), RowOf(dh, d.rank, i), ColumnOf(a, d.fin, c));
  }

  /** Entry (r, c) of the gradient of A is alpha / rank times (g B)ᵀ x. */
  ghost predicate GradAAt(d: LoraDims, alpha: real, rank: nat, x: seq<real>, b: seq<real>, g: seq<real>, ga: seq<real>, r: nat, c: nat)
    requires rank > 0
  {
    IsShare(alpha, rank, Pairs(d.batch, BackColumn(d, g, b, r), ColumnOf(x, d.fin, c)), At(ga, r * d.fin + c))
  }

  lemma LoraGradA(d: LoraDims, alpha: real, rank: nat, s: real, x: seq<real>, a: seq<real>, b: seq<real>, g: seq<real>, r: nat, c: nat)
    requires rank > 0 && s == alpha / rank as real && r < d.rank && c < d.fin
    ensures GradAAt(d, alpha, rank, x, b, g, LoraGradsOf(d, s, x, a, b, g).a, r, c)
  {
    var dh := HiddenGrad(d, s, b, g);
    MatMulRightEntry(false, true, d.batch, d.fin, d.rank, d.fin, x, dh, r, c);
    HiddenGradColumn(d, s, b, g, r);
    PairsShare(d.batch, alpha, rank, s, BackColumn(d, g, b, r), ColumnOf(dh, d.rank, r), ColumnOf(x, d.fin, c));
  }

  /** Entry (j, r) of the gradient of B is alpha / rank times gᵀ (x Aᵀ). */
  ghost predicate GradBAt(d: LoraDims, alpha: real, rank: nat, x: seq<real>, a: seq<real>, g: seq<real>, gb: seq<real>, j: nat, r: nat)
    requires rank > 0
  {
    IsShare(alpha, rank, Pairs(d.batch, ColumnOf(g, d.fout, j), HiddenColumn(d, x, a, r)), At(gb, j * d.rank + r))
  }

  lemma LoraGradB(d: LoraDims, alpha: real, rank: nat, s: real, x: seq<real>, a: seq<real>, b: seq<real>, g: seq<real>, j: nat, r: nat)
    requires rank > 0 && s == alpha / rank as real && j < d.fout && r < d.rank
    ensures GradBAt(d, alpha, rank, x, a, g, LoraGradsOf(d, s, x, a, b, g).b, j, r)
  {
    var sums := GradRight(false, true, d.batch, d.rank, d.fout, d.rank, Hidden(d, x, a), g);
    BSums(d, x, a, g, j, r);
    FlatIndex(d.fout, d.rank, j, r);
    ScaledAt(s, sums, j * d.rank + r);
    ShareOf(alpha, rank, s, At(sums, j * d.rank + r), At(ScaleSeq(s, sums), j * d.rank + r));
  }

  lemma BSums(d: LoraDims, x: seq<real>, a: seq<real>, g: seq<real>, j: nat, r: nat)
    requires j < d.fout && r < d.rank
    ensures At(GradRight(false, true, d.batch, d.rank, d.fout, d.rank, Hidden(d, x, a), g), j * d.rank + r) ==
            Pairs(d.batch, ColumnOf(g, d.fout, j), HiddenColumn(d, x, a, r))
  {
    var h := Hidden(d, x, a);
    MatMulRightEntry(false, true, d.batch, d.rank, d.fout, d.rank, h, g, j, r);
    forall i | 0 <= i < d.batch ensures ColumnOf(h, d.rank, r)(i) == HiddenColumn(d, x, a, r)(i) {
      HiddenEntry(d, x, a, i, r);
    }
    PairsExt(d.batch, ColumnOf(g, d.fout, j), ColumnOf(h, d.rank, r), ColumnOf(g, d.fout, j), HiddenColumn(d, x, a, r));
  }

  ghost predicate LoraShares(d: LoraDims, alpha: real, rank: nat, x: seq<real>, a: seq<real>, b: seq<real>, g: seq<real>,
                             gx: seq<real>, ga: seq<real>, gb: seq<real>, i: nat, j: nat, r: nat, c: nat)
    requires rank > 0
  {
    && GradXAt(d, alpha, rank, a, b, g, gx, i, c)
    && GradAAt(d, alpha, rank, x, b, g, ga, r, c)
    && GradBAt(d, alpha, rank, x, a, g, gb, j, r)
  }

  lemma LoraShared(d: LoraDims, alpha: real, rank: nat, s: real, x: seq<real>, a: seq<real>, b: seq<real>, g: seq<real>, i: nat, j: nat, r: nat, c: nat)
    requires rank > 0 && s == alpha / rank as real && i < d.batch && j < d.fout && r < d.rank && c < d.fin
    ensures var gs := LoraGradsOf(d, s, x, a, b, g); LoraShares(d, alpha, rank, x, a, b, g, gs.x, gs.a, gs.b, i, j, r, c)
  {
    LoraGradX(d, alpha, rank, s, x, a, b, g, i, c);
    LoraGradA(d, alpha, rank, s, x, a, b, g, r, c);
    LoraGradB(d, alpha, rank, s, x, a, b, g, j, r);
  }

  lemma LoraGradsAre(o: Kernels, alpha: real, rank: nat, pa: ParamId, pb: ParamId, base: Tensor, x: Tensor, a: Tensor, b: Tensor, out: Tensor, g: Tensor) returns (s: real)
    requires LoraRecorded(rank, base, x, a, b, out) && Like(g, out)
    ensures s == alpha / rank as real
    ensures var (d, r) := (BackwardDims(x, a, b).value, LoraGradsOf(BackwardDims(x, a, b).value, s, x.data, a.data, b.data, g.data));
            && CpuVjp(o, LoRAApply(alpha, rank, pa, pb), Somes([base, x, a, b]), Some(out), g) ==
               Some([g, Tensor(x.shape, r.x), Tensor(a.shape, r.a), Tensor(b.shape, r.b)])
            && |r.x| == |x.data| && |r.a| == |a.data| && |r.b| == |b.data|
  {
    LoraVjpIs(o, LoRAApply(alpha, rank, pa, pb), [base, x, a, b], out, g);
    s := alpha / rank as real;
    var d := BackwardDims(x, a, b).value;
    Swaps(d.fin, d.rank);
    Swaps(d.rank, d.fout);
  }

  lemma Swaps(m: nat, n: nat)
    ensures m * n == n * m
  {
  }

  /** The backward arm of a recorded LoRA operation: the output gradient itself for the base, and shares
      alpha / rank of the products of the other operands. */
  lemma LoraGradEntries(o: Kernels, alpha: real, rank: nat, pa: ParamId, pb: ParamId, base: Tensor, x: Tensor, a: Tensor, b: Tensor, out: Tensor, g: Tensor,
                        i: nat, j: nat, r: nat, c: nat)
    requires LoraRecorded(rank, base, x, a, b, out) && Like(g, out)
    requires var d := BackwardDims(x, a, b).value; i < d.batch && j < d.fout && r < d.rank && c < d.fin
    ensures var gs := CpuVjp(o, LoRAApply(alpha, rank, pa, pb), Somes([base, x, a, b]), Some(out), g);
            && gs.Some? && |gs.value| == 4 && gs.value[0] == g && Like(gs.value[1], x) && Like(gs.value[2], a) && Like(gs.value[3], b)
            && LoraShares(BackwardDims(x, a, b).value, alpha, rank, x.data, a.data, b.data, g.data, gs.value[1].data, gs.value[2].data, gs.value[3].data, i, j, r, c)
  {
    var s := LoraGradsAre(o, alpha, rank, pa, pb, base, x, a, b, out, g);
    LoraShared(BackwardDims(x, a, b).value, alpha, rank, s, x.data, a.data, b.data, g.data, i, j, r, c);
  }

  // ---------------------------------------------------------------- the other arms

  /** The replay of a matrix product. */
  lemma MatMulReplayEntry(o: Kernels, ta: bool, tb: bool, m: nat, k: nat, n: nat, a: Tensor, b: Tensor, i: nat, j: nat)
    requires i < m && j < n && CpuReplay(o, MatMul(ta, tb, m, k, n), [a, b]).Some?
    ensures var out := CpuReplay(o, MatMul(ta, tb, m, k, n), [a, b]).value;
            && out.shape == [m, n] && |out.data| == m * n && 0 <= i * n + j < m * n
            && out.data[i * n + j] == Pairs(k, l => At(a.data, if ta then l * m + i else i * k + l), l => At(b.data, if tb then j * k + l else l * n + j))
  {
    MatMulEntry(ta, tb, m, k, n, a.data, b.data, i, j);
  }

  /** Scaling: both the replayed output and the gradient are multiplied by the recorded factor. */
  lemma ScaleEntry(o: Kernels, f: real, x: Tensor, out: Tensor, g: Tensor, i: nat)
    requires i < |x.data| && i < |g.data|
    ensures var y := CpuReplay(o, Scale(f), [x]);
            y.Some? && y.value.shape == x.shape && |y.value.data| == |x.data| && y.value.data[i] == f * x.data[i]
    ensures var gs := CpuVjp(o, Scale(f), Somes([x]), Some(out), g);
            gs.Some? && |gs.value| == 1 && gs.value[0].shape == g.shape && |gs.value[0].data| == |g.data| && gs.value[0].data[i] == f * g.data[i]
  {
    assert ScaledBy(f, x.data[i], At(ScaleSeq(f, x.data), i)) by { ScaledAt(f, x.data, i); }
    assert ScaledBy(f, g.data[i], At(ScaleSeq(f, g.data), i)) by { ScaledAt(f, g.data, i); }
  }

  lemma {:induction false} ModIsRemainder(a: nat, b: nat)
    requires b > 0
    ensures Mod(a, b) == a % b
  {
    var q := ModQuotient(a, b);
    DivModUnique(q, Mod(a, b), b);
  }

  /** Replayed addition: equal lengths are added pointwise, a shorter right operand is repeated, and
      a length that does not divide the left operand's is an error. */
  lemma AddReplayEntry(o: Kernels, l: Tensor, r: Tensor, i: nat)
    requires i < |l.data|
    ensures var out := CpuReplay(o, Add, [l, r]);
            && (out.None? <==> |r.data| != |l.data| && (|r.data| == 0 || |l.data| % |r.data| != 0))
            && (out.Some? ==> |r.data| > 0 && out.value.shape == l.shape && |out.value.data| == |l.data| &&
                              out.value.data[i] == l.data[i] + r.data[i % |r.data|])
  {
    if |r.data| > 0 {
      ModIsRemainder(|l.data|, |r.data|);
      ModIsRemainder(i, |r.data|);
      if CpuReplay(o, Add, [l, r]).Some? { ReplayAt(l.data, r.data, i); }
    }
  }

  /** Replayed embedding: row t of the output is the table's row for token t; a table of the wrong size
      or a token outside the vocabulary is an error. */
  lemma EmbeddingReplayEntry(o: Kernels, tokens: seq<nat>, vocab: nat, h: nat, p: Option<ParamId>, w: Tensor, t: nat, d: nat)
    requires t < |tokens| && d < h
    ensures var out := CpuReplay(o, Embedding(tokens, vocab, h, p), [w]);
            && (out.None? <==> |w.data| != vocab * h || exists k :: 0 <= k < |tokens| && tokens[k] >= vocab)
            && (out.Some? ==> out.value.shape == [|tokens|, h] && |out.value.data| == |tokens| * h && 0 <= t * h + d < |tokens| * h &&
                              0 <= tokens[t] * h + d < |w.data| && out.value.data[t * h + d] == w.data[tokens[t] * h + d])
  {
    TokenMapAt(tokens, h, t, d);
    if tokens[t] < vocab { FlatIndex(vocab, h, tokens[t], d); }
  }

  /** (y0, y1) is (x0, x1) turned by (c, s). */
  predicate Turned(x0: real, x1: real, c: real, s: real, y0: real, y1: real) {
    y0 == x0 * c - x1 * s && y1 == x0 * s + x1 * c
  }

  /** The same, the other way round. */
  predicate TurnedBack(x0: real, x1: real, c: real, s: real, y0: real, y1: real) {
    y0 == x0 * c + x1 * s && y1 == x1 * c - x0 * s
  }

  lemma PairTurned(h: nat, c: seq<real>, s: seq<real>, x: seq<real>, y: seq<real>, i: nat)
    requires |x| == |y| == 2 * h && i < h && h <= |c| && h <= |s| && PairIs(h, c, s, x, y, i)
    ensures Turned(x[i], x[h + i], c[i], s[i], y[i], y[h + i])
  {
  }

  lemma RopeReplayIs(o: Kernels, x: Tensor, c: Tensor, s: Tensor, half: nat)
    requires half == (if |c.data| < |s.data| then |c.data| else |s.data|) > 0
    ensures CpuReplay(o, Rope, [x, c, s]) ==
            if |x.data| % (2 * half) != 0 then None else Some(Tensor(x.shape, RopeOf(half, c.data, s.data, x.data)))
  {
  }

  /** Replayed rotation: the shorter table gives half a head, and in head `p`, which starts at `at`,
      every pair (x_i, x_(half + i)) is turned by (cos_i, sin_i). */
  lemma RopeReplayEntry(o: Kernels, x: Tensor, c: Tensor, s: Tensor, half: nat, p: nat, at: nat, i: nat)
    requires half == (if |c.data| < |s.data| then |c.data| else |s.data|) && i < half && at == p * (2 * half) && at + 2 * half <= |x.data|
    ensures CpuReplay(o, Rope, [x, c, s]).None? <==> |x.data| % (2 * half) != 0
    ensures var out := CpuReplay(o, Rope, [x, c, s]);
            out.Some? ==>
              && out.value.shape == x.shape && |out.value.data| == |x.data|
              && Turned(x.data[at + i], x.data[at + half + i], c.data[i], s.data[i], out.value.data[at + i], out.value.data[at + half + i])
  {
    RopeReplayIs(o, x, c, s, half);
    if |x.data| % (2 * half) == 0 {
      var m := WholeHeads(|x.data|, 2 * half);
      HeadMapRotates(half, c.data, s.data);
      RotatedPair(half, c.data, s.data, HeadMap(half, c.data, s.data), x.data, m, p, at, i);
    }
  }

  lemma RotatedPair(h: nat, c: seq<real>, s: seq<real>, f: seq<real> -> seq<real>, x: seq<real>, m: nat, p: nat, at: nat, i: nat)
    requires RotatesHeads(h, c, s, f) && i < h && |x| == m * (2 * h) && at == p * (2 * h) && at + 2 * h <= |x|
    ensures |MapBlocks(2 * h, f, x)| == |x|
    ensures var y := MapBlocks(2 * h, f, x); Turned(x[at + i], x[at + h + i], c[i], s[i], y[at + i], y[at + h + i])
  {
    BlockIs(2 * h, f, x, m, p, at);
    HeadTurned(h, c, s, f, x, MapBlocks(2 * h, f, x), at, i);
  }

  lemma HeadTurned(h: nat, c: seq<real>, s: seq<real>, f: seq<real> -> seq<real>, x: seq<real>, y: seq<real>, at: nat, i: nat)
    requires RotatesHeads(h, c, s, f) && i < h && |x| == |y| && at + 2 * h <= |x| && y[at..at + 2 * h] == f(x[at..at + 2 * h])
    ensures Turned(x[at + i], x[at + h + i], c[i], s[i], y[at + i], y[at + h + i])
  {
    var head, turned := x[at..at + 2 * h], y[at..at + 2 * h];
    assert PairIs(h, c, s, head, f(head), i);
    PairTurned(h, c, s, head, turned, i);
  }

  /** Block `p` of the result is `f` of block `p`. */
  lemma {:induction false} BlockIs(n: nat, f: seq<real> -> seq<real>, x: seq<real>, m: nat, p: nat, at: nat)
    requires n > 0 && KeepsSize(n, f) && |x| == m * n && at == p * n && at + n <= |x|
    ensures |MapBlocks(n, f, x)| == |x| && MapBlocks(n, f, x)[at..at + n] == f(x[at..at + n])
    decreases m
  {
    BlocksKeepSize(n, f, x);
    BlockBefore(n, m, p, at);
    var last := |x| - n;
    BlocksKeepSize(n, f, x[..last]);
    if p < m - 1 {
      BlockIs(n, f, x[..last], m - 1, p, at);
      assert x[..last][at..at + n] == x[at..at + n];
    } else {
      assert x[last..] == x[at..at + n] && KeepsSize(n, f);
    }
  }

  lemma BlockBefore(n: nat, m: nat, p: nat, at: nat)
    requires n > 0 && at == p * n && at + n <= m * n
    ensures m > 0 && p < m && m * n - n == (m - 1) * n
    ensures p < m - 1 ==> at + n <= (m - 1) * n
    ensures p == m - 1 ==> at == m * n - n
  {
    assert (p + 1) * n == at + n;
    if p >= m { MulMonotone(m, p, n); }
    if p < m - 1 { MulMonotone(p + 1, m - 1, n); }
  }

  /** The other branch of the rotation's gradient: neighbours (2p, 2p + 1) turn back by entry p of the
      tables, read cyclically; a last odd entry is dropped. */
  lemma NeighbourEntries(c: seq<real>, s: seq<real>, g: seq<real>, p: nat, q: nat)
    requires |c| > 0 && |s| > 0 && !BackOnHeads(|c|, |g|) && 2 * p < |g| && q == p % (if |c| < |s| then |c| else |s|)
    ensures |RopeBackwardOf(c, s, g)| == |g| && q < |c| && q < |s|
    ensures var r := RopeBackwardOf(c, s, g);
            if 2 * p + 1 < |g| then TurnedBack(g[2 * p], g[2 * p + 1], c[q], s[q], r[2 * p], r[2 * p + 1]) else r[2 * p] == 0.0
  {
    if 2 * p + 1 < |g| {
      NeighbourPairIs(c, s, g, p, q);
      TurnsBack(g[2 * p], g[2 * p + 1], c[q], s[q], Interleaved(g, c, s, 2 * p), Interleaved(g, c, s, 2 * p + 1));
    }
  }

  lemma NeighbourPairIs(c: seq<real>, s: seq<real>, g: seq<real>, p: nat, q: nat)
    requires |c| > 0 && |s| > 0 && 2 * p + 1 < |g| && q == p % (if |c| < |s| then |c| else |s|)
    ensures q < |c| && q < |s|
    ensures Interleaved(g, c, s, 2 * p) == g[2 * p] * c[q] + g[2 * p + 1] * s[q]
    ensures Interleaved(g, c, s, 2 * p + 1) == -g[2 * p] * s[q] + g[2 * p + 1] * c[q]
  {
    assert 2 * p / 2 == p && (2 * p + 1) / 2 == p && 2 * p % 2 == 0 && (2 * p + 1) % 2 == 1;
    assert TableLength(c, s) == if |c| < |s| then |c| else |s|;
  }

  lemma TurnsBack(x0: real, x1: real, c: real, s: real, y0: real, y1: real)
    requires y0 == x0 * c + x1 * s && y1 == -x0 * s + x1 * c
    ensures TurnedBack(x0, x1, c, s, y0, y1)
  {
    NegatedFactor(x0, -x0, s);
  }
}
