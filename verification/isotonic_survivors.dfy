/** Which rises of the score end up between blocks, by the ordered samples alone. */
module IsotonicSurvivors {
  import opened Sorting
  import opened Isotonic
  import opened IsotonicStructure
  import opened IsotonicTheorem
  import opened IsotonicBoundaries

  // ---- the condition ----

  /** The start of the block that ends before `p` when nothing after it has been seen: the latest rise that the
      samples up to `p` do not outweigh, or the beginning. */
  function Start(ys: seq<Sample>, p: int): (a: int)
    requires 0 < p <= |ys|
    ensures 0 <= a < p
    decreases p, p
  {
    StartFrom(ys, p, p - 1)
  }

  function StartFrom(ys: seq<Sample>, p: int, from: int): (a: int)
    requires 0 <= from < p <= |ys|
    ensures 0 <= a <= from
    decreases p, from
  {
    if from == 0 || (Rises(ys, from) && !Outweighed(ys, from, p)) then from else StartFrom(ys, p, from - 1)
  }

  /** The block before `p` has a higher mean than some samples from `p` on, among the first `n`. */
  predicate Outweighed(ys: seq<Sample>, p: int, n: int)
    requires 0 < p < n <= |ys|
    decreases p, p + 1
  {
    exists q :: p < q <= n && Falls(ys, Start(ys, p), p, q)
  }

  /** The rises that nothing outweighs. */
  function Kept(ys: seq<Sample>): set<int> {
    set p | 0 < p < |ys| && Rises(ys, p) && !Outweighed(ys, p, |ys|)
  }

  lemma {:induction false} StartIsGroup(ys: seq<Sample>, p: int, from: int)
    requires 0 <= from < p <= |ys|
    ensures StartsGroup(ys, StartFrom(ys, p, from))
    decreases from
  {
    hide Outweighed;
    if from > 0 {
      StartIsGroup(ys, p, from - 1);
    }
  }

  lemma {:induction false} StartIsLatest(ys: seq<Sample>, p: int, from: int, a: int)
    requires 0 <= a <= from < p <= |ys|
    requires a == 0 || (Rises(ys, a) && !Outweighed(ys, a, p))
    requires forall b :: a < b < p && Rises(ys, b) ==> Outweighed(ys, b, p)
    ensures StartFrom(ys, p, from) == a
    decreases from
  {
    hide Outweighed;
    if a < from {
      StartIsLatest(ys, p, from - 1, a);
    }
  }

  lemma {:induction false} StillOutweighed(ys: seq<Sample>, p: int, n: int, m: int)
    requires 0 < p < n <= m <= |ys| && Outweighed(ys, p, n)
    ensures Outweighed(ys, p, m)
  {
    hide Start;
  }

  lemma {:induction false} OutweighedIsPulled(ys: seq<Sample>, p: int, n: int)
    requires 0 < p < n <= |ys| && Outweighed(ys, p, n)
    ensures Pulled(ys, p)
  {
    hide Falls, StartsGroup;
    StartIsGroup(ys, p, p - 1);
  }

  // ---- the blocks after the first `n` samples ----

  /** Every block starts where the samples before the next one say. */
  ghost predicate Chained(blocks: seq<Block>, ys: seq<Sample>) {
    forall k :: 0 < k < |blocks| ==> 0 < Pos(blocks, k) <= |ys| && Pos(blocks, k - 1) == Start(ys, Pos(blocks, k))
  }

  /** Whatever rise is hidden in a block is outweighed. */
  ghost predicate HidesOutweighed(blocks: seq<Block>, ys: seq<Sample>, n: int)
    requires n <= |ys|
  {
    forall p :: 0 < p < n && Rises(ys, p) && !IsBoundary(blocks, p) ==> Outweighed(ys, p, n)
  }

  ghost predicate Traced(blocks: seq<Block>, ys: seq<Sample>, n: int) {
    && 0 <= n <= |ys| && Covers(blocks, ys[..n])
    && Chained(blocks, ys) && HidesOutweighed(blocks, ys, n)
  }

  lemma {:induction false} SameStretch(ys: seq<Sample>, n: int, i: int, j: int)
    requires 0 <= i <= j <= n <= |ys|
    ensures Part(ys[..n], i, j) == Part(ys, i, j)
  {
    assert ys[..n][i..j] == ys[i..j];
  }

  lemma {:induction false} SameRise(ys: seq<Sample>, n: int, p: int)
    requires 0 < p < n <= |ys|
    ensures Rises(ys[..n], p) <==> Rises(ys, p)
  {}

  lemma {:induction false} PushChains(blocks: seq<Block>, ys: seq<Sample>, n: int)
    requires Weighted(blocks) && n < |ys| && Traced(blocks, ys, n)
    requires n > 0 ==> blocks != [] && Pos(blocks, |blocks| - 1) == Start(ys, n)
    ensures Chained(Push(blocks, ys[n]), ys)
  {
    hide Covers, Pos, Start, HidesOutweighed, Push;
    var pushed := Push(blocks, ys[n]);
    PrefixCovers(blocks, |blocks|, ys[..n]);
    forall k | 0 < k < |pushed|
      ensures 0 < Pos(pushed, k) <= |ys| && Pos(pushed, k - 1) == Start(ys, Pos(pushed, k))
    {
      PushedPos(blocks, ys[n], k);
      SamePos(pushed, blocks, k);
      assert pushed[..k - 1] == pushed[..k][..k - 1] == blocks[..k - 1];
      SamePos(pushed, blocks, k - 1);
      if k == |blocks| {
        PosStep(blocks, k - 1);
        HasWeight(blocks, k - 1);
        PrefixCovers(blocks, k - 1, ys[..n]);
      }
    }
  }

  lemma {:induction false} PushHides(blocks: seq<Block>, ys: seq<Sample>, n: int)
    requires Weighted(blocks) && n < |ys| && Traced(blocks, ys, n)
    ensures HidesOutweighed(Push(blocks, ys[n]), ys, n + 1)
  {
    hide Covers, Outweighed, Pos, Push, Chained;
    var pushed := Push(blocks, ys[n]);
    assert ys[..n] + [ys[n]] == ys[..n + 1];
    PrefixCovers(blocks, |blocks|, ys[..n]);
    LastRise(blocks, ys[..n], ys[n]);
    forall p | 0 < p < n + 1 && Rises(ys, p) && !IsBoundary(pushed, p) ensures Outweighed(ys, p, n + 1) {
      SameRise(ys, n + 1, p);
      assert p < n;
      forall k | 0 <= k <= |blocks| ensures Pos(blocks, k) != p {
        if Pos(blocks, k) < n {
          PushedBoundary(blocks, ys[..n], ys[n], k);
        }
      }
      StillOutweighed(ys, p, n, n + 1);
    }
  }

  /** A merge removes a boundary that is outweighed. */
  lemma {:induction false} MergeOutweighs(blocks: seq<Block>, ys: seq<Sample>, n: int)
    requires Weighted(blocks) && Traced(blocks, ys, n) && Violates(blocks)
    ensures 0 < Pos(blocks, |blocks| - 1) < n && Outweighed(ys, Pos(blocks, |blocks| - 1), n)
  {
    hide Covers, Block.Mean, Part, Pos, Start, StartsGroup, HidesOutweighed;
    var m, front := |blocks|, ys[..n];
    var left, right := blocks[m - 2], blocks[m - 1];
    PrefixCovers(blocks, m, front);
    BlockSpan(blocks, m - 2, front);
    BlockSpan(blocks, m - 1, front);
    CompareMeans(left, right);
    var a, p := Pos(blocks, m - 2), Pos(blocks, m - 1);
    SameStretch(ys, n, a, p);
    SameStretch(ys, n, p, n);
    assert Falls(ys, a, p, n);
  }

  lemma {:induction false} PoolOnceTraced(blocks: seq<Block>, ys: seq<Sample>, n: int)
    requires Weighted(blocks) && Traced(blocks, ys, n) && Violates(blocks)
    ensures Traced(PoolOnce(blocks), ys, n)
  {
    hide Covers, Block.Mean, PoolOnce, Pos, Start, Outweighed, Rises;
    var pooled, m, front := PoolOnce(blocks), |blocks|, ys[..n];
    PoolOnceCovers(blocks, front);
    MergeOutweighs(blocks, ys, n);
    PrefixCovers(blocks, m, front);
    PrefixCovers(pooled, m - 1, front);
    forall k | 0 <= k < m - 1 ensures Pos(pooled, k) == Pos(blocks, k) && IsBoundary(pooled, Pos(blocks, k)) {
      PooledPos(blocks, k);
      SamePos(pooled, blocks, k);
    }
    assert Chained(pooled, ys);
    assert HidesOutweighed(pooled, ys, n);
  }

  lemma {:induction false} PoolTraced(blocks: seq<Block>, ys: seq<Sample>, n: int)
    requires Weighted(blocks) && Traced(blocks, ys, n)
    ensures Traced(Pool(blocks), ys, n)
    decreases |blocks|
  {
    hide Traced, PoolOnce, Block.Mean;
    if Violates(blocks) {
      PoolOnceTraced(blocks, ys, n);
      PoolTraced(PoolOnce(blocks), ys, n);
    }
  }

  // ---- a boundary is not outweighed ----

  lemma {:induction false} Survives(blocks: seq<Block>, ys: seq<Sample>, n: int, k: int)
    requires Weighted(blocks) && Traced(blocks, ys, n) && RightIsHigh(blocks, ys[..n]) && 0 < k < |blocks|
    ensures 0 < Pos(blocks, k) < n && Rises(ys, Pos(blocks, k)) && !Outweighed(ys, Pos(blocks, k), n)
  {
    hide Covers, Part, Pos, Start, HidesOutweighed;
    var front := ys[..n];
    PrefixCovers(blocks, k - 1, front);
    BlockSpan(blocks, k - 1, front);
    BlockSpan(blocks, k, front);
    var a, p := Pos(blocks, k - 1), Pos(blocks, k);
    SameRise(ys, n, p);
    SameStretch(ys, n, a, p);
    forall q | p < q <= n ensures !Falls(ys, a, p, q) {
      SameStretch(ys, n, p, q);
    }
  }

  lemma {:induction false} PosRises(blocks: seq<Block>, i: int, j: int)
    requires Weighted(blocks) && 0 <= i < j <= |blocks|
    ensures Pos(blocks, i) < Pos(blocks, j)
    decreases j
  {
    hide Pos;
    PosStep(blocks, j - 1);
    HasWeight(blocks, j - 1);
    if i < j - 1 {
      PosRises(blocks, i, j - 1);
    }
  }

  lemma {:induction false} LastStart(blocks: seq<Block>, ys: seq<Sample>, n: int)
    requires Weighted(blocks) && Traced(blocks, ys, n) && RightIsHigh(blocks, ys[..n]) && n > 0
    ensures blocks != [] && Pos(blocks, |blocks| - 1) == Start(ys, n)
  {
    hide Covers, Pos, Outweighed, StartFrom, Chained, RightIsHigh;
    var m := |blocks|;
    PrefixCovers(blocks, m, ys[..n]);
    if m == 0 {
      NoBlocksNoWeight(blocks);
    } else {
      PosStep(blocks, 0);
      PosRises(blocks, m - 1, m);
      var a := Pos(blocks, m - 1);
      if m > 1 {
        Survives(blocks, ys, n, m - 1);
      }
      forall b | a < b < n && Rises(ys, b) ensures Outweighed(ys, b, n) {
        forall k | 0 <= k <= m ensures Pos(blocks, k) != b {
          if k < m - 1 {
            PosRises(blocks, k, m - 1);
          }
        }
      }
      StartIsLatest(ys, n, n - 1, a);
    }
  }

  // ---- every fit ----

  lemma {:induction false} NothingTraced(ys: seq<Sample>)
    ensures Traced(Fit(ys[..0]), ys, 0)
  {}

  lemma {:induction false} FitTraced(ys: seq<Sample>, n: int)
    requires SortedBy(SampleLe, ys) && 0 <= n <= |ys|
    ensures Traced(Fit(ys[..n]), ys, n)
    decreases n
  {
    hide Covers, Chained, HidesOutweighed, Push, Pool, Start, RightIsHigh;
    if n == 0 {
      NothingTraced(ys);
    } else {
      var front, s := ys[..n - 1], ys[n - 1];
      var blocks := Fit(front);
      assert front + [s] == ys[..n] && ys[..n][..n - 1] == front;
      FitTraced(ys, n - 1);
      FitRightIsHigh(front);
      if n > 1 {
        LastStart(blocks, ys, n - 1);
      }
      PushCovers(blocks, front, s);
      PushChains(blocks, ys, n - 1);
      PushHides(blocks, ys, n - 1);
      PoolTraced(Push(blocks, s), ys, n);
    }
  }

  /** Exactly the rises that nothing outweighs are boundaries of the fit. */
  lemma {:induction false} BoundariesAreKept(ys: seq<Sample>, p: int)
    requires SortedBy(SampleLe, ys) && 0 < p < |ys|
    ensures IsBoundary(Fit(ys), p) <==> p in Kept(ys)
  {
    hide Fit, Pos, Covers, Chained, Outweighed, RightIsHigh, Rises;
    var blocks, n := Fit(ys), |ys|;
    assert ys[..n] == ys;
    FitTraced(ys, n);
    FitRightIsHigh(ys);
    PrefixCovers(blocks, |blocks|, ys);
    if IsBoundary(blocks, p) {
      var k :| 0 <= k <= |blocks| && Pos(blocks, k) == p;
      if k == 0 {
        StartsAtZero(blocks);
      } else {
        Survives(blocks, ys, n, k);
      }
    }
  }

  lemma {:induction false} StartsAtZero(blocks: seq<Block>)
    ensures Pos(blocks, 0) == 0
  {}

  /** Whatever rise a fit hides in a block was pulled over. */
  lemma {:induction false} FitHidesOnlyPulled(ys: seq<Sample>, p: int)
    requires SortedBy(SampleLe, ys) && Rises(ys, p) && !IsBoundary(Fit(ys), p)
    ensures Pulled(ys, p)
  {
    hide Fit, IsBoundary, Outweighed;
    BoundariesAreKept(ys, p);
    OutweighedIsPulled(ys, p, |ys|);
  }
}
