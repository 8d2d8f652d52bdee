/** Rank allocation: clamp the rounded shares, then move ranks one unit at a time until the total
    meets the budget or nothing can move. */
module RankBudget {

  function Total(r: seq<nat>): nat {
    if r == [] then 0 else Total(r[..|r| - 1]) + r[|r| - 1]
  }

  predicate InBounds(r: seq<nat>, lo: nat, hi: nat) {
    forall i :: 0 <= i < |r| ==> lo <= r[i] <= hi
  }

  function Clamped(x: nat, lo: nat, hi: nat): (y: nat)
    requires lo <= hi
    ensures lo <= y <= hi
  {
    if x < lo then lo else if x > hi then hi else x
  }

  /** How many units slot `i` has been offered after `p` full passes and `k` slots of the next. */
  function Offered(p: nat, k: nat, i: nat): nat {
    if i < k then p + 1 else p
  }

  /** A start value after `u` units up (or down), stopping at the bound. */
  function Moved(x: nat, up: bool, u: nat, lo: nat, hi: nat): nat {
    if up then (if x + u < hi then x + u else hi)
    else if x > lo + u then x - u else lo
  }

  /** Every slot after `p` full passes and `k` slots of the next. */
  function Levelled(start: seq<nat>, up: bool, p: nat, k: nat, lo: nat, hi: nat): (r: seq<nat>)
    ensures |r| == |start| && forall i :: 0 <= i < |r| ==> r[i] == Moved(start[i], up, Offered(p, k, i), lo, hi)
  {
    seq(|start|, i requires 0 <= i < |start| => Moved(start[i], up, Offered(p, k, i), lo, hi))
  }

  predicate AllAt(r: seq<nat>, b: nat) {
    forall i :: 0 <= i < |r| ==> r[i] == b
  }

  /** The loop has done its job: the slots are level, and either the budget is met exactly or
      every slot sits at the bound it was pushed towards. */
  ghost predicate Settled(start: seq<nat>, r: seq<nat>, budget: nat, lo: nat, hi: nat) {
    var up := Total(start) <= budget;
    && (exists p: nat, k: nat {:trigger Levelled(start, up, p, k, lo, hi)} :: k <= |start| && r == Levelled(start, up, p, k, lo, hi))
    && (Total(r) == budget ||
        (AllAt(r, if up then hi else lo) && if up then Total(r) < budget else Total(r) > budget))
  }

  // ---------------------------------------------------------------- totals

  lemma {:induction false} TotalUpdate(r: seq<nat>, i: nat, v: nat)
    requires i < |r|
    ensures Total(r[i := v]) == Total(r) - r[i] + v
  {
    var n := |r| - 1;
    if i == n {
      assert r[i := v][..n] == r[..n];
    } else {
      assert r[i := v][..n] == r[..n][i := v];
      TotalUpdate(r[..n], i, v);
    }
  }

  function Copies(n: nat, x: nat): nat {
    if n == 0 then 0 else Copies(n - 1, x) + x
  }

  lemma {:induction false} CopiesIs(n: nat, x: nat)
    ensures Copies(n, x) == n * x
  {
    if n > 0 {
      CopiesIs(n - 1, x);
      assert n * x == (n - 1) * x + x;
    }
  }

  /** Totals of bounded slots are bounded, and equal slots reach the bound. */
  lemma {:induction false} TotalCopies(r: seq<nat>, lo: nat, hi: nat)
    requires InBounds(r, lo, hi)
    ensures Copies(|r|, lo) <= Total(r) <= Copies(|r|, hi)
    ensures AllAt(r, lo) ==> Total(r) == Copies(|r|, lo)
    ensures AllAt(r, hi) ==> Total(r) == Copies(|r|, hi)
  {
    if r != [] {
      var n := |r| - 1;
      assert forall i :: 0 <= i < n ==> r[..n][i] == r[i];
      TotalCopies(r[..n], lo, hi);
    }
  }

  lemma TotalBounds(r: seq<nat>, lo: nat, hi: nat)
    requires InBounds(r, lo, hi)
    ensures |r| * lo <= Total(r) <= |r| * hi
    ensures AllAt(r, lo) ==> Total(r) == |r| * lo
    ensures AllAt(r, hi) ==> Total(r) == |r| * hi
  {
    TotalCopies(r, lo, hi);
    CopiesIs(|r|, lo);
    CopiesIs(|r|, hi);
  }

  // ---------------------------------------------------------------- the loop

  lemma PassOver(start: seq<nat>, up: bool, p: nat, lo: nat, hi: nat)
    ensures Levelled(start, up, p, |start|, lo, hi) == Levelled(start, up, p + 1, 0, lo, hi)
  {
  }

  lemma LevelStart(start: seq<nat>, up: bool, lo: nat, hi: nat)
    requires InBounds(start, lo, hi)
    ensures Levelled(start, up, 0, 0, lo, hi) == start
  {
  }

  /** One slot's share of a pass. */
  lemma LevelStep(start: seq<nat>, up: bool, p: nat, k: nat, lo: nat, hi: nat)
    requires InBounds(start, lo, hi) && k < |start|
    ensures var r := Levelled(start, up, p, k, lo, hi);
            Levelled(start, up, p, k + 1, lo, hi) ==
            r[k := if up && r[k] < hi then r[k] + 1 else if !up && r[k] > lo then r[k] - 1 else r[k]]
  {
  }

  lemma LevelInBounds(start: seq<nat>, up: bool, p: nat, k: nat, lo: nat, hi: nat)
    requires InBounds(start, lo, hi)
    ensures InBounds(Levelled(start, up, p, k, lo, hi), lo, hi)
  {
  }

  /** The rank of a slot after its turn. */
  function Turn(x: nat, up: bool, lo: nat, hi: nat): nat {
    if up && x < hi then x + 1 else if !up && x > lo then x - 1 else x
  }

  lemma SlotTurns(start: seq<nat>, up: bool, p: nat, i: nat, lo: nat, hi: nat, r: seq<nat>)
    requires InBounds(start, lo, hi) && i < |start| && r == Levelled(start, up, p, i, lo, hi)
    ensures lo <= r[i] <= hi && r[i := Turn(r[i], up, lo, hi)] == Levelled(start, up, p, i + 1, lo, hi)
    ensures Total(r[i := Turn(r[i], up, lo, hi)]) == Total(r) - r[i] + Turn(r[i], up, lo, hi)
  {
    LevelStep(start, up, p, i, lo, hi);
    TotalUpdate(r, i, Turn(r[i], up, lo, hi));
    LevelInBounds(start, up, p, i, lo, hi);
  }

  /** One slot of a pass. */
  method MoveSlot(ranks: array<nat>, i: nat, diff0: int, lo: nat, hi: nat, ghost start: seq<nat>, ghost up: bool, ghost p: nat) returns (diff: int, moved: bool)
    requires InBounds(start, lo, hi) && diff0 != 0 && (up <==> diff0 > 0) && i < |start| == ranks.Length
    requires ranks[..] == Levelled(start, up, p, i, lo, hi)
    modifies ranks
    ensures ranks[..] == Levelled(start, up, p, i + 1, lo, hi)
    ensures diff + Total(ranks[..]) == diff0 + old(Total(ranks[..]))
    ensures diff == if !moved then diff0 else if up then diff0 - 1 else diff0 + 1
    ensures !moved ==> ranks[..] == old(ranks[..]) && ranks[i] == if up then hi else lo
  {
    ghost var was := ranks[..];
    SlotTurns(start, up, p, i, lo, hi, was);
    var r := ranks[i];
    diff, moved := diff0, false;
    if diff > 0 && r < hi {
      ranks[i] := r + 1;
      diff, moved := diff - 1, true;
    } else if diff < 0 && r > lo {
      ranks[i] := r - 1;
      diff, moved := diff + 1, true;
    }
    assert ranks[..] == was[i := Turn(was[i], up, lo, hi)];
  }

  /** A pass after `i` slots: the difference still to close, and whether a slot has moved. */
  ghost predicate PassState(was: seq<nat>, now: seq<nat>, diff0: int, diff: int, moved: bool, up: bool, i: nat, lo: nat, hi: nat) {
    && i <= |now| && diff + Total(now) == diff0 + Total(was)
    && (if up then 0 <= diff <= diff0 else diff0 <= diff <= 0)
    && (moved <==> diff != diff0)
    && (!moved ==> forall j :: 0 <= j < i ==> now[j] == if up then hi else lo)
  }

  lemma PassStep(was: seq<nat>, before: seq<nat>, now: seq<nat>, diff0: int, diffBefore: int, diff: int, moved: bool, here: bool, up: bool, i: nat, lo: nat, hi: nat)
    requires PassState(was, before, diff0, diffBefore, moved, up, i, lo, hi) && i < |now| && diffBefore != 0
    requires diff + Total(now) == diffBefore + Total(before)
    requires diff == if !here then diffBefore else if up then diffBefore - 1 else diffBefore + 1
    requires !here ==> now == before && now[i] == if up then hi else lo
    ensures PassState(was, now, diff0, diff, moved || here, up, i + 1, lo, hi)
  {
  }

  /** The slot loop of one pass. */
  /** One turn of the loop. */
  method PassSlot(ranks: array<nat>, diffBefore: int, movedBefore: bool, i: nat, diff0: int, lo: nat, hi: nat, ghost was: seq<nat>, ghost start: seq<nat>, ghost up: bool, ghost p: nat)
    returns (diff: int, moved: bool)
    requires InBounds(start, lo, hi) && diffBefore != 0 && (up <==> diffBefore > 0) && i < |start| == ranks.Length
    requires ranks[..] == Levelled(start, up, p, i, lo, hi) && PassState(was, ranks[..], diff0, diffBefore, movedBefore, up, i, lo, hi)
    modifies ranks
    ensures ranks[..] == Levelled(start, up, p, i + 1, lo, hi) && PassState(was, ranks[..], diff0, diff, moved, up, i + 1, lo, hi)
  {
    ghost var before := ranks[..];
    var here;
    diff, here := MoveSlot(ranks, i, diffBefore, lo, hi, start, up, p);
    PassStep(was, before, ranks[..], diff0, diffBefore, diff, movedBefore, here, up, i, lo, hi);
    moved := movedBefore || here;
  }

  lemma PassEnds(was: seq<nat>, now: seq<nat>, diff0: int, diff: int, moved: bool, up: bool, i: nat, lo: nat, hi: nat)
    requires PassState(was, now, diff0, diff, moved, up, i, lo, hi) && diff0 != 0 && (diff == 0 || i == |now|)
    ensures !moved ==> i == |now| && AllAt(now, if up then hi else lo)
  {
  }

  method Pass(ranks: array<nat>, diff0: int, lo: nat, hi: nat, ghost start: seq<nat>, ghost up: bool, ghost p: nat)
    returns (diff: int, moved: bool, ghost k: nat)
    requires InBounds(start, lo, hi) && diff0 != 0 && (up <==> diff0 > 0) && |start| == ranks.Length
    requires ranks[..] == Levelled(start, up, p, 0, lo, hi)
    modifies ranks
    ensures k <= |start| && ranks[..] == Levelled(start, up, p, k, lo, hi)
    ensures diff + Total(ranks[..]) == diff0 + old(Total(ranks[..]))
    ensures if up then 0 <= diff <= diff0 else diff0 <= diff <= 0
    ensures moved <==> diff != diff0
    ensures diff == 0 || k == |start|
    ensures !moved ==> k == |start| && AllAt(ranks[..], if up then hi else lo)
  {
    ghost var was := ranks[..];
    diff, moved := diff0, false;
    var i := 0;
    while i < ranks.Length
      invariant 0 <= i <= ranks.Length && ranks[..] == Levelled(start, up, p, i, lo, hi)
      invariant PassState(was, ranks[..], diff0, diff, moved, up, i, lo, hi)
    {
      if diff == 0 { break; }
      diff, moved := PassSlot(ranks, diff, moved, i, diff0, lo, hi, was, start, up, p);
      i := i + 1;
    }
    k := i;
    PassEnds(was, ranks[..], diff0, diff, moved, up, i, lo, hi);
  }

  /** The rebalancing loop. */
  method Rebalance(ranks: array<nat>, budget: nat, lo: nat, hi: nat)
    requires InBounds(ranks[..], lo, hi)
    modifies ranks
    ensures InBounds(ranks[..], lo, hi) && Settled(old(ranks[..]), ranks[..], budget, lo, hi)
  {
    ghost var start := ranks[..];
    ghost var up := Total(start) <= budget;
    ghost var p: nat, k: nat := 0, 0;
    LevelStart(start, up, lo, hi);
    var total := SumOf(ranks);
    var diff: int := budget - total;
    while diff != 0
      invariant k <= |start| && ranks[..] == Levelled(start, up, p, k, lo, hi)
      invariant diff == budget - Total(ranks[..]) && (if up then diff >= 0 else diff <= 0) && (diff != 0 ==> k == 0)
      decreases if diff >= 0 then diff else -diff
    {
      var next, moved;
      ghost var k';
      next, moved, k' := Pass(ranks, diff, lo, hi, start, up, p);
      if !moved {
        k := k';
        break;
      }
      diff := next;
      if k' == |start| {
        PassOver(start, up, p, lo, hi);
        p, k := p + 1, 0;
      } else {
        k := k';
      }
    }
    LevelInBounds(start, up, p, k, lo, hi);
  }

  method SumOf(ranks: array<nat>) returns (total: nat)
    ensures total == Total(ranks[..])
  {
    total := 0;
    for i := 0 to ranks.Length
      invariant total == Total(ranks[..i])
    {
      assert ranks[..i + 1][..i] == ranks[..i];
      total := total + ranks[i];
    }
    assert ranks[..ranks.Length] == ranks[..];
  }

  /** `allocate` after the shares are rounded: clamp, then rebalance. */
  method Allocate(shares: seq<nat>, budget: nat, lo: nat, hi: nat) returns (ranks: array<nat>)
    requires lo <= hi
    ensures ranks.Length == |shares| && InBounds(ranks[..], lo, hi)
    ensures Settled(seq(|shares|, i requires 0 <= i < |shares| => Clamped(shares[i], lo, hi)), ranks[..], budget, lo, hi)
  {
    ranks := new nat[|shares|](i requires 0 <= i < |shares| => shares[i]);
    for i := 0 to |shares|
      invariant forall j :: 0 <= j < |shares| ==> ranks[j] == if j < i then Clamped(shares[j], lo, hi) else shares[j]
    {
      ranks[i] := Clamped(ranks[i], lo, hi);
    }
    ghost var start := seq(|shares|, i requires 0 <= i < |shares| => Clamped(shares[i], lo, hi));
    assert ranks[..] == start;
    Rebalance(ranks, budget, lo, hi);
  }

  // ---------------------------------------------------------------- what a settled allocation is

  /** Main theorem: the budget is met exactly when it can be, and otherwise every rank sits at the
      nearer bound. */
  lemma BudgetMetIffFeasible(start: seq<nat>, r: seq<nat>, budget: nat, lo: nat, hi: nat)
    requires InBounds(start, lo, hi) && InBounds(r, lo, hi) && Settled(start, r, budget, lo, hi)
    ensures Total(r) == budget <==> |r| * lo <= budget <= |r| * hi
    ensures budget > |r| * hi ==> AllAt(r, hi)
    ensures budget < |r| * lo ==> AllAt(r, lo)
  {
    TotalBounds(r, lo, hi);
    TotalBounds(start, lo, hi);
  }

  /** Main theorem: order is preserved up to one unit. */
  lemma OrderKept(start: seq<nat>, r: seq<nat>, budget: nat, lo: nat, hi: nat, i: nat, j: nat)
    requires InBounds(start, lo, hi) && Settled(start, r, budget, lo, hi) && |r| == |start| && i < |start| && j < |start|
    requires start[i] <= start[j]
    ensures r[i] <= r[j] + 1
  {
  }

  /** No slot moves against the direction of the correction, and free slots move by the same
      amount up to one unit. */
  lemma MovesAreEven(start: seq<nat>, r: seq<nat>, budget: nat, lo: nat, hi: nat, i: nat, j: nat)
    requires InBounds(start, lo, hi) && Settled(start, r, budget, lo, hi) && |r| == |start| && i < |start| && j < |start|
    ensures Total(start) <= budget ==> r[i] >= start[i] && (r[i] == hi || r[j] - start[j] <= r[i] - start[i] + 1)
    ensures Total(start) > budget ==> r[i] <= start[i] && (r[i] == lo || start[j] - r[j] <= start[i] - r[i] + 1)
  {
  }

  function Gap(x: nat, y: nat): nat {
    if x < y then y - x else x - y
  }

  /** Clamping goes to the nearest rank allowed. */
  lemma ClampIsNearest(x: nat, lo: nat, hi: nat, z: nat)
    requires lo <= z <= hi
    ensures Gap(x, Clamped(x, lo, hi)) <= Gap(x, z)
  {
  }

  /** Slots are served in order: a later one has moved no further than an earlier one still free. */
  lemma EarlierMovesFirst(start: seq<nat>, r: seq<nat>, budget: nat, lo: nat, hi: nat, i: nat, j: nat)
    requires InBounds(start, lo, hi) && Settled(start, r, budget, lo, hi) && |r| == |start| && i < j < |start|
    ensures Total(start) <= budget ==> r[i] == hi || r[j] - start[j] <= r[i] - start[i]
    ensures Total(start) > budget ==> r[i] == lo || start[j] - r[j] <= start[i] - r[i]
  {
  }

  lemma {:induction false} SameTotal(s: seq<nat>, r: seq<nat>)
    requires |r| == |s| && forall i :: 0 <= i < |s| ==> s[i] <= r[i]
    ensures Total(s) <= Total(r) && (Total(s) == Total(r) ==> s == r)
  {
    if s != [] {
      var n := |s| - 1;
      SameTotal(s[..n], r[..n]);
      if Total(s) == Total(r) { assert s == s[..n] + [s[n]] && r == r[..n] + [r[n]]; }
    }
  }

  /** Every slot of `r'` has gone at least as far as in `r`. */
  ghost predicate Further(r: seq<nat>, r': seq<nat>, up: bool) {
    |r| == |r'| && forall i :: 0 <= i < |r| ==> if up then r[i] <= r'[i] else r'[i] <= r[i]
  }

  lemma FurtherOn(start: seq<nat>, up: bool, p: nat, k: nat, p': nat, k': nat, lo: nat, hi: nat)
    requires InBounds(start, lo, hi) && (p < p' || (p == p' && k <= k'))
    ensures Further(Levelled(start, up, p, k, lo, hi), Levelled(start, up, p', k', lo, hi), up)
  {
  }

  /** Settled outcomes cannot be one further on than the other. */
  lemma NoFurther(start: seq<nat>, r: seq<nat>, r': seq<nat>, budget: nat, lo: nat, hi: nat)
    requires InBounds(r, lo, hi) && InBounds(r', lo, hi) && Further(r, r', Total(start) <= budget)
    requires Settled(start, r, budget, lo, hi) && Settled(start, r', budget, lo, hi)
    ensures r == r'
  {
    if Total(start) <= budget { SameTotal(r, r'); } else { SameTotal(r', r); }
  }

  lemma LevelOf(start: seq<nat>, r: seq<nat>, budget: nat, lo: nat, hi: nat) returns (p: nat, k: nat)
    requires Settled(start, r, budget, lo, hi)
    ensures k <= |start| && r == Levelled(start, Total(start) <= budget, p, k, lo, hi)
  {
    p, k :| k <= |start| && r == Levelled(start, Total(start) <= budget, p, k, lo, hi);
  }

  lemma LevelsAgree(start: seq<nat>, r: seq<nat>, r': seq<nat>, budget: nat, lo: nat, hi: nat, p: nat, k: nat, p': nat, k': nat)
    requires InBounds(start, lo, hi) && InBounds(r, lo, hi) && InBounds(r', lo, hi)
    requires Settled(start, r, budget, lo, hi) && Settled(start, r', budget, lo, hi) && (p < p' || (p == p' && k <= k'))
    requires var up := Total(start) <= budget; r == Levelled(start, up, p, k, lo, hi) && r' == Levelled(start, up, p', k', lo, hi)
    ensures r == r'
  {
    FurtherOn(start, Total(start) <= budget, p, k, p', k', lo, hi);
    NoFurther(start, r, r', budget, lo, hi);
  }

  /** The allocation is determined. */
  lemma AllocationIsUnique(start: seq<nat>, r: seq<nat>, r': seq<nat>, budget: nat, lo: nat, hi: nat)
    requires InBounds(start, lo, hi) && Settled(start, r, budget, lo, hi) && Settled(start, r', budget, lo, hi)
    ensures r == r'
  {
    var p, k := LevelOf(start, r, budget, lo, hi);
    var p', k' := LevelOf(start, r', budget, lo, hi);
    LevelInBounds(start, Total(start) <= budget, p, k, lo, hi);
    LevelInBounds(start, Total(start) <= budget, p', k', lo, hi);
    if p < p' || (p == p' && k <= k') {
      LevelsAgree(start, r, r', budget, lo, hi, p, k, p', k');
    } else {
      LevelsAgree(start, r', r, budget, lo, hi, p', k', p, k);
    }
  }

  /** Shares within the bounds that meet the budget stay as they are. */
  lemma MetStaysPut(start: seq<nat>, r: seq<nat>, budget: nat, lo: nat, hi: nat)
    requires InBounds(start, lo, hi) && Settled(start, r, budget, lo, hi) && Total(start) == budget
    ensures r == start
  {
    LevelStart(start, true, lo, hi);
    assert start == Levelled(start, true, 0, 0, lo, hi);
    AllocationIsUnique(start, r, start, budget, lo, hi);
  }
}
