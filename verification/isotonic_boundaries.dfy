/** The places where the score rises, against the blocks of a fit and the samples on both sides. */
module IsotonicBoundaries {
  import opened Sorting
  import opened Isotonic
  import opened IsotonicStructure
  import opened IsotonicOptimality
  import opened IsotonicTheorem

  // ---- stretches of the sorted samples ----

  /** The label sum of a stretch. */
  function Part(ys: seq<Sample>, i: int, j: int): int
    requires 0 <= i <= j <= |ys|
  {
    Sum(ys[i..j])
  }

  /** The score rises between the places `p - 1` and `p`. */
  predicate Rises(ys: seq<Sample>, p: int) {
    0 < p < |ys| && ys[p - 1].score < ys[p].score
  }

  predicate StartsGroup(ys: seq<Sample>, a: int) {
    a == 0 || Rises(ys, a)
  }

  predicate EndsGroup(ys: seq<Sample>, q: int) {
    q == |ys| || Rises(ys, q)
  }

  /** The mean of `ys[a..p]` is above that of `ys[p..q]`. */
  predicate Falls(ys: seq<Sample>, a: int, p: int, q: int) {
    0 <= a < p < q <= |ys| && Part(ys, a, p) * (q - p) > Part(ys, p, q) * (p - a)
  }

  /** The mean of `ys[a..p]` is at least that of `ys[p..q]`. */
  predicate DoesNotRise(ys: seq<Sample>, a: int, p: int, q: int) {
    0 <= a < p < q <= |ys| && Part(ys, a, p) * (q - p) >= Part(ys, p, q) * (p - a)
  }

  /** Some samples before `p`, from the start of a group, have a higher mean than some samples after it. */
  ghost predicate Pulled(ys: seq<Sample>, p: int) {
    exists a, q :: StartsGroup(ys, a) && Falls(ys, a, p, q)
  }

  /** Whole groups on both sides of `p` do not rise. */
  ghost predicate Bridged(ys: seq<Sample>, p: int) {
    exists a, q :: StartsGroup(ys, a) && EndsGroup(ys, q) && DoesNotRise(ys, a, p, q)
  }

  lemma {:induction false} PartsAdd(ys: seq<Sample>, i: int, j: int, k: int)
    requires 0 <= i <= j <= k <= |ys|
    ensures Part(ys, i, k) == Part(ys, i, j) + Part(ys, j, k)
  {
    hide Sum;
    assert ys[i..k] == ys[i..j] + ys[j..k];
    SumConcat(ys[i..j], ys[j..k]);
  }

  lemma {:induction false} NoPart(ys: seq<Sample>, i: int)
    requires 0 <= i <= |ys|
    ensures Part(ys, i, i) == 0
  {}

  // ---- the places of the blocks ----

  /** Where the k-th block starts. */
  function Pos(blocks: seq<Block>, k: int): int
    requires 0 <= k <= |blocks|
  {
    TotalWeight(blocks[..k])
  }

  ghost predicate IsBoundary(blocks: seq<Block>, p: int) {
    exists k :: 0 <= k <= |blocks| && Pos(blocks, k) == p
  }

  lemma {:induction false} PosStep(blocks: seq<Block>, k: int)
    requires 0 <= k < |blocks|
    ensures Pos(blocks, k + 1) == Pos(blocks, k) + blocks[k].weight
    ensures Pos(blocks, 0) == 0
  {
    assert Init(blocks[..k + 1]) == blocks[..k];
  }

  /** The samples covered by the first blocks are those before the next block. */
  lemma {:induction false} CoveredLength(blocks: seq<Block>, k: int, upTo: seq<Sample>)
    requires 0 <= k <= |blocks| && Covers(blocks[..k], upTo)
    ensures Pos(blocks, k) == |upTo|
  {
    CoveredTotals(blocks[..k], upTo);
  }

  lemma {:induction false} PrefixCovers(blocks: seq<Block>, k: int, ys: seq<Sample>)
    requires 0 <= k <= |blocks| && Covers(blocks, ys)
    ensures 0 <= Pos(blocks, k) <= |ys| && Covers(blocks[..k], ys[..Pos(blocks, k)])
    ensures Pos(blocks, |blocks|) == |ys|
    decreases |blocks|
  {
    hide Sum, Pos;
    assert blocks[..|blocks|] == blocks && ys[..|ys|] == ys;
    CoveredLength(blocks, |blocks|, ys);
    if k < |blocks| {
      var w := Last(blocks).weight;
      PrefixCovers(Init(blocks), k, Front(ys, w));
      assert Init(blocks)[..k] == blocks[..k];
      SamePos(Init(blocks), blocks, k);
      assert Front(ys, w)[..Pos(blocks, k)] == ys[..Pos(blocks, k)];
    }
  }

  /** The k-th block is a stretch of whole groups with its label sum. */
  lemma {:induction false} BlockSpan(blocks: seq<Block>, k: int, ys: seq<Sample>)
    requires Weighted(blocks) && 0 <= k < |blocks| && Covers(blocks, ys)
    ensures 0 <= Pos(blocks, k) < Pos(blocks, k + 1) <= |ys|
    ensures Pos(blocks, k + 1) == Pos(blocks, k) + blocks[k].weight
    ensures Part(ys, Pos(blocks, k), Pos(blocks, k + 1)) == blocks[k].sum
    ensures StartsGroup(ys, Pos(blocks, k))
  {
    hide Sum, Pos, Weighted;
    HasWeight(blocks, k);
    PosStep(blocks, k);
    PrefixCovers(blocks, k + 1, ys);
    PrefixCovers(blocks, k, ys);
    var s, e := Pos(blocks, k), Pos(blocks, k + 1);
    var part, upTo := blocks[..k + 1], ys[..e];
    assert Last(part) == blocks[k] && Init(part) == blocks[..k];
    assert Tail(upTo, blocks[k].weight) == ys[s..e];
    if k > 0 {
      assert part[|part| - 2] == blocks[k - 1] && Last(blocks[..k]) == blocks[k - 1];
      PosStep(blocks, k - 1);
      assert ys[..s][s - 1].score == blocks[k - 1].boundary;
    }
  }

  lemma {:induction false} BlockEnds(blocks: seq<Block>, k: int, ys: seq<Sample>)
    requires Weighted(blocks) && 0 <= k < |blocks| && Covers(blocks, ys)
    ensures EndsGroup(ys, Pos(blocks, k + 1))
  {
    hide Covers, Part;
    PrefixCovers(blocks, k, ys);
    BlockSpan(blocks, k, ys);
    if k + 1 < |blocks| {
      BlockSpan(blocks, k + 1, ys);
    }
  }

  lemma {:induction false} FindBlock(blocks: seq<Block>, ys: seq<Sample>, p: int) returns (k: int)
    requires Weighted(blocks) && Covers(blocks, ys) && 0 <= p < |ys|
    ensures 0 <= k < |blocks| && Pos(blocks, k) <= p < Pos(blocks, k + 1)
  {
    hide Covers, Pos;
    PrefixCovers(blocks, 0, ys);
    k := |blocks|;
    while k > 0 && Pos(blocks, k) > p
      invariant 0 <= k <= |blocks|
      invariant k == |blocks| || Pos(blocks, k + 1) > p
      invariant k == |blocks| ==> Pos(blocks, k) > p
    {
      k := k - 1;
    }
    if k == 0 && |blocks| > 0 {
      PosStep(blocks, 0);
    }
    if |blocks| == 0 {
      NoBlocksNoWeight(blocks);
    }
  }

  lemma {:induction false} NoBlocksNoWeight(blocks: seq<Block>)
    requires blocks == []
    ensures Pos(blocks, 0) == 0
  {}

  // ---- what pushing and pooling leave in place ----

  lemma {:induction false} PushedPos(blocks: seq<Block>, s: Sample, k: int)
    requires Weighted(blocks) && 0 <= k < |Push(blocks, s)|
    ensures k <= |blocks| && Push(blocks, s)[..k] == blocks[..k]
  {}

  lemma {:induction false} PushedBoundary(blocks: seq<Block>, ys: seq<Sample>, s: Sample, k: int)
    requires Weighted(blocks) && 0 <= k <= |blocks| && Pos(blocks, k) < |ys| && Pos(blocks, |blocks|) == |ys|
    ensures IsBoundary(Push(blocks, s), Pos(blocks, k))
  {
    hide Pos;
    PushedPos(blocks, s, k);
    assert Pos(Push(blocks, s), k) == Pos(blocks, k) by {
      SamePos(Push(blocks, s), blocks, k);
    }
  }

  lemma {:induction false} SamePos(a: seq<Block>, b: seq<Block>, k: int)
    requires 0 <= k <= |a| && k <= |b| && a[..k] == b[..k]
    ensures Pos(a, k) == Pos(b, k)
  {}

  /** A new score starts a block of its own. */
  lemma {:induction false} LastRise(blocks: seq<Block>, ys: seq<Sample>, s: Sample)
    requires Weighted(blocks) && Covers(blocks, ys)
    ensures Rises(ys + [s], |ys|) ==> IsBoundary(Push(blocks, s), |ys|)
  {
    hide Sum;
    var all, pushed := ys + [s], Push(blocks, s);
    PrefixCovers(blocks, |blocks|, ys);
    if Rises(all, |ys|) {
      assert all[|ys| - 1] == ys[|ys| - 1] && all[|ys|] == s;
      assert pushed == blocks + [Block(s.score, s.outcome, 1)];
      assert pushed[..|blocks|] == blocks && blocks[..|blocks|] == blocks;
      assert Pos(pushed, |blocks|) == |ys|;
    }
  }

  lemma {:induction false} PooledPos(blocks: seq<Block>, k: int)
    requires |blocks| >= 2 && Weighted(blocks) && 0 <= k < |blocks| - 1
    ensures PoolOnce(blocks)[..k] == blocks[..k]
  {}

  // ---- what is right of a surviving boundary is never below the block left of it ----

  /** Every stretch that starts at a boundary has at least the mean of the block before it. */
  ghost predicate RightIsHigh(blocks: seq<Block>, ys: seq<Sample>) {
    forall k, q :: 0 < k < |blocks| && 0 <= Pos(blocks, k) < q <= |ys| ==>
      Part(ys, Pos(blocks, k), q) * blocks[k - 1].weight >= blocks[k - 1].sum * (q - Pos(blocks, k))
  }

  /** Nondecreasing means, compared without division. */
  lemma {:induction false} MeanOrder(a: Block, b: Block)
    requires a.weight > 0 && b.weight > 0 && a.Mean() <= b.Mean()
    ensures a.sum * b.weight <= b.sum * a.weight
  {
    var x, y, u, v := a.sum as real, b.sum as real, a.weight as real, b.weight as real;
    assert a.Mean() * u == x && b.Mean() * v == y;
    assert (b.Mean() - a.Mean()) * (u * v) >= 0.0;
    assert a.Mean() * (u * v) == x * v && b.Mean() * (u * v) == y * u;
    assert (a.sum * b.weight) as real == x * v && (b.sum * a.weight) as real == y * u;
  }

  lemma {:induction false} RisingOrder(blocks: seq<Block>, i: int, j: int)
    requires Weighted(blocks) && MeansRise(blocks) && 0 <= i <= j < |blocks|
    ensures blocks[i].sum * blocks[j].weight <= blocks[j].sum * blocks[i].weight
  {
    if i < j {
      MeanOrder(blocks[i], blocks[j]);
    }
  }

  lemma {:induction false} AddStretch(part: int, len: int, sum: int, weight: int, s: int, w: int)
    requires part * w >= s * len && s * weight <= sum * w
    ensures (part + sum) * w >= s * (len + weight)
  {}

  /** The blocks from the k-th on, up to the m-th, against the one before them. */
  lemma {:induction false} TailIsHigh(blocks: seq<Block>, k: int, m: int, ys: seq<Sample>)
    requires Weighted(blocks) && Covers(blocks, ys) && MeansRise(blocks) && 0 < k <= m <= |blocks|
    ensures 0 <= Pos(blocks, k) <= Pos(blocks, m) <= |ys|
    ensures Part(ys, Pos(blocks, k), Pos(blocks, m)) * blocks[k - 1].weight
      >= blocks[k - 1].sum * (Pos(blocks, m) - Pos(blocks, k))
    decreases m
  {
    hide Covers, MeansRise, Pos, Part, Weighted;
    PrefixCovers(blocks, k, ys);
    if m == k {
      NoPart(ys, Pos(blocks, k));
    } else {
      TailIsHigh(blocks, k, m - 1, ys);
      BlockSpan(blocks, m - 1, ys);
      PartsAdd(ys, Pos(blocks, k), Pos(blocks, m - 1), Pos(blocks, m));
      RisingOrder(blocks, k - 1, m - 1);
      HasWeight(blocks, m - 1);
      AddStretch(Part(ys, Pos(blocks, k), Pos(blocks, m - 1)), Pos(blocks, m - 1) - Pos(blocks, k),
                 blocks[m - 1].sum, blocks[m - 1].weight, blocks[k - 1].sum, blocks[k - 1].weight);
    }
  }

  lemma {:induction false} HasWeight(blocks: seq<Block>, k: int)
    requires Weighted(blocks) && 0 <= k < |blocks|
    ensures blocks[k].weight > 0
  {}

  lemma {:induction false} PoolKeepsFront(blocks: seq<Block>, k: int)
    requires Weighted(blocks) && 0 <= k < |Pool(blocks)|
    ensures k <= |blocks| && Pool(blocks)[..k] == blocks[..k]
    decreases |blocks|
  {
    hide Block.Mean;
    if Violates(blocks) {
      PoolKeepsFront(PoolOnce(blocks), k);
      LongerThan(PoolOnce(blocks), k);
      PooledPos(blocks, k);
    }
  }

  /** The blocks before the last one are those of the fit without the last sample. */
  lemma {:induction false} FitKeepsFront(front: seq<Sample>, s: Sample, k: int)
    requires 0 <= k < |Fit(front + [s])|
    ensures k <= |Fit(front)| && Fit(front + [s])[..k] == Fit(front)[..k]
    ensures Pos(Fit(front + [s]), k) == Pos(Fit(front), k)
  {
    hide Pool, Push;
    assert (front + [s])[..|front|] == front;
    var pushed := Push(Fit(front), s);
    PoolKeepsFront(pushed, k);
    LongerThan(pushed, k);
    PushedPos(Fit(front), s, k);
  }

  lemma {:induction false} LongerThan(blocks: seq<Block>, k: int)
    requires Weighted(blocks) && 0 <= k < |Pool(blocks)|
    ensures k < |blocks|
    decreases |blocks|
  {
    hide Block.Mean;
    if Violates(blocks) {
      LongerThan(PoolOnce(blocks), k);
    }
  }

  lemma {:induction false} FitRightIsHigh(ys: seq<Sample>)
    requires SortedBy(SampleLe, ys)
    ensures RightIsHigh(Fit(ys), ys)
    decreases |ys|
  {
    hide Covers, MeansRise, Fit, Pos, Part;
    if ys != [] {
      var front, s := ys[..|ys| - 1], ys[|ys| - 1];
      assert front + [s] == ys;
      FitRightIsHigh(front);
      FitStructure(front);
      FitStructure(ys);
      forall k, q | 0 < k < |Fit(ys)| && 0 <= Pos(Fit(ys), k) < q <= |ys|
        ensures Part(ys, Pos(Fit(ys), k), q) * Fit(ys)[k - 1].weight >= Fit(ys)[k - 1].sum * (q - Pos(Fit(ys), k))
      {
        FitKeepsFront(front, s, k);
        RightOfBoundary(Fit(ys), Fit(front), ys, k, q);
      }
    } else {
      assert Fit([]) == [] by {
        FitOfNothing();
      }
    }
  }

  lemma {:induction false} FitOfNothing()
    ensures Fit([]) == []
  {}

  /** A fit whose first `k` blocks are those of an older fit, without the last sample. */
  ghost predicate SharesFront(blocks: seq<Block>, older: seq<Block>, k: int) {
    0 < k < |blocks| && k <= |older| && blocks[..k] == older[..k] && Pos(blocks, k) == Pos(older, k)
  }

  lemma {:induction false} RightOfBoundary(blocks: seq<Block>, older: seq<Block>, ys: seq<Sample>, k: int, q: int)
    requires Weighted(blocks) && Weighted(older) && ys != []
    requires Covers(blocks, ys) && MeansRise(blocks) && Covers(older, ys[..|ys| - 1])
    requires RightIsHigh(older, ys[..|ys| - 1])
    requires SharesFront(blocks, older, k) && 0 <= Pos(blocks, k) < q <= |ys|
    ensures Part(ys, Pos(blocks, k), q) * blocks[k - 1].weight >= blocks[k - 1].sum * (q - Pos(blocks, k))
  {
    hide Covers, MeansRise, Pos, Sum, Weighted;
    PrefixCovers(blocks, |blocks|, ys);
    PrefixCovers(older, |older|, ys[..|ys| - 1]);
    if q == |ys| {
      TailIsHigh(blocks, k, |blocks|, ys);
    } else {
      var front, p := ys[..|ys| - 1], Pos(older, k);
      assert k < |older| && blocks[..k][k - 1] == older[..k][k - 1];
      assert Part(front, p, q) * older[k - 1].weight >= older[k - 1].sum * (q - p);
      assert ys[p..q] == front[p..q];
    }
  }

  // ---- what is left of a boundary of safe blocks is never above the block there ----

  lemma {:induction false} SafeRunAt(run: seq<Sample>, p: int)
    requires SafeRun(run) && Rises(run, p)
    ensures Sum(run[..p]) * |run| >= p * Sum(run)
  {
    hide Sum;
    assert Ample(run, p);
  }

  /** A safe block's beginning up to a rise has at least its mean. */
  lemma {:induction false} SafeAt(blocks: seq<Block>, k: int, ys: seq<Sample>, p: int)
    requires Weighted(blocks) && Covers(blocks, ys) && SafelyPooled(blocks, ys) && 0 <= k < |blocks|
    requires Pos(blocks, k) < p < Pos(blocks, k + 1) && Rises(ys, p)
    ensures 0 <= Pos(blocks, k)
    ensures Part(ys, Pos(blocks, k), p) * blocks[k].weight >= (p - Pos(blocks, k)) * blocks[k].sum
    decreases |blocks|
  {
    hide Sum, Block.Mean, SafeRun, Pos, StartsGroup, Covers, SafelyPooled;
    assert blocks[..|blocks|] == blocks;
    SafeStep(blocks, |blocks|, ys);
    PrefixCovers(blocks, k + 1, ys);
    BlockSpan(blocks, k, ys);
    var w := Last(blocks).weight;
    var s := Pos(blocks, k);
    if k == |blocks| - 1 {
      var run := Tail(ys, w);
      assert run[p - s - 1] == ys[p - 1] && run[p - s] == ys[p];
      SafeRunAt(run, p - s);
      assert run[..p - s] == ys[s..p] && run == ys[s..Pos(blocks, k + 1)];
    } else {
      var front := Front(ys, w);
      FrontPos(blocks, k);
      FrontPos(blocks, k + 1);
      BlockSpan(Init(blocks), k, front);
      assert front[p - 1] == ys[p - 1] && front[p] == ys[p];
      SafeAt(Init(blocks), k, front, p);
      assert front[s..p] == ys[s..p];
    }
  }

  lemma {:induction false} FrontPos(blocks: seq<Block>, k: int)
    requires 0 <= k < |blocks|
    ensures Pos(Init(blocks), k) == Pos(blocks, k)
  {
    assert Init(blocks)[..k] == blocks[..k];
  }

  lemma {:induction false} RestIsLow(head: int, rest: int, sum: int, n: int, w: int)
    requires head * w >= n * sum && head + rest == sum
    ensures rest * w <= sum * (w - n)
  {}

  lemma {:induction false} ScaleDown(part: int, len: int, s0: int, w0: int, s: int, w: int)
    requires part * w0 <= s0 * len && s0 * w <= s * w0 && w0 > 0 && w >= 0 && len >= 0
    ensures part * w <= s * len
  {
    assert w0 * (part * w) == (part * w0) * w <= (s0 * len) * w;
    assert (s0 * len) * w == (s0 * w) * len <= (s * w0) * len == w0 * (s * len);
    CancelLeft(w0, s * len, part * w);
  }

  /** Every stretch of whole groups that ends at a boundary has at most the mean of the block there. */
  lemma {:induction false} LeftIsLow(blocks: seq<Block>, k: int, ys: seq<Sample>, a: int)
    requires Weighted(blocks) && Covers(blocks, ys) && SafelyPooled(blocks, ys) && MeansRise(blocks)
    requires 0 < k <= |blocks| && 0 <= a < Pos(blocks, k) && StartsGroup(ys, a)
    ensures Pos(blocks, k) <= |ys|
    ensures Part(ys, a, Pos(blocks, k)) * blocks[k - 1].weight <= blocks[k - 1].sum * (Pos(blocks, k) - a)
    decreases k
  {
    hide Covers, SafelyPooled, MeansRise, Pos, Part, Weighted;
    BlockSpan(blocks, k - 1, ys);
    PrefixCovers(blocks, k, ys);
    HasWeight(blocks, k - 1);
    var s, e, b := Pos(blocks, k - 1), Pos(blocks, k), blocks[k - 1];
    if a > s {
      SafeAt(blocks, k - 1, ys, a);
      PartsAdd(ys, s, a, e);
      RestIsLow(Part(ys, s, a), Part(ys, a, e), b.sum, a - s, b.weight);
    } else if a < s {
      PosStep(blocks, 0);
      LeftIsLow(blocks, k - 1, ys, a);
      RisingOrder(blocks, k - 2, k - 1);
      HasWeight(blocks, k - 2);
      ScaleDown(Part(ys, a, s), s - a, blocks[k - 2].sum, blocks[k - 2].weight, b.sum, b.weight);
      PartsAdd(ys, a, s, e);
      JoinLow(Part(ys, a, s), s - a, b.sum, b.weight);
    }
  }

  lemma {:induction false} JoinLow(part: int, len: int, s: int, w: int)
    requires part * w <= s * len
    ensures (part + s) * w <= s * (len + w)
  {}
}
