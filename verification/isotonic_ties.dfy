/** When pooling adjacent violators is least squares, by the input alone. */
module IsotonicTies {
  import opened Sorting
  import opened Isotonic
  import opened IsotonicStructure
  import opened IsotonicOptimality
  import opened IsotonicTheorem
  import opened IsotonicBoundaries
  import opened IsotonicSurvivors

  /** Every rise that is pulled over is bridged. A rise hides inside a block exactly when samples just before it
      once had a higher mean than samples just after it; that is harmless when whole groups of equal scores
      around it do not rise either. */
  ghost predicate HarmlessTies(samples: seq<Sample>) {
    forall p :: Rises(Ordered(samples), p) && Pulled(Ordered(samples), p) ==> Bridged(Ordered(samples), p)
  }

  // ---- safe pools satisfy the condition ----

  lemma {:induction false} Scaled(x: int, y: int, c: int)
    requires x <= y && c >= 0
    ensures x * c <= y * c
  {}

  lemma {:induction false} Exchange(x: int, y: int, z: int)
    ensures (x * y) * z == y * (x * z) == (x * z) * y
  {}

  lemma {:induction false} NotOver(left: int, a: int, right: int, b: int, s: int, w: int)
    requires left * w <= s * a && right * w >= s * b && a > 0 && b > 0 && w > 0
    ensures left * b <= right * a
  {
    Scaled(left * w, s * a, b);
    Scaled(s * b, right * w, a);
    Exchange(left, w, b);
    Exchange(right, w, a);
    Exchange(s, a, b);
    CancelLeft(w, right * a, left * b);
  }

  /** A boundary that survives is not pulled over. */
  lemma {:induction false} SurvivorIsNotPulled(blocks: seq<Block>, ys: seq<Sample>, k: int)
    requires Weighted(blocks) && SortedBy(SampleLe, ys) && Covers(blocks, ys) && MeansRise(blocks)
    requires RightIsHigh(blocks, ys) && SafelyPooled(blocks, ys) && 0 < k < |blocks|
    ensures !Pulled(ys, Pos(blocks, k))
  {
    hide Covers, SafelyPooled, Pos, Part, MeansRise, Weighted;
    var p := Pos(blocks, k);
    HasWeight(blocks, k - 1);
    forall a, q | StartsGroup(ys, a) ensures !Falls(ys, a, p, q) {
      if 0 <= a < p < q <= |ys| {
        LeftIsLow(blocks, k, ys, a);
        NotOver(Part(ys, a, p), p - a, Part(ys, p, q), q - p, blocks[k - 1].sum, blocks[k - 1].weight);
      }
    }
  }

  lemma {:induction false} CrossParts(head: int, a: int, rest: int, b: int)
    requires head * (a + b) >= a * (head + rest)
    ensures head * b >= rest * a
  {}

  /** A rise hidden in a safe block is bridged by the block. */
  lemma {:induction false} SafeBlockBridges(blocks: seq<Block>, k: int, ys: seq<Sample>, p: int)
    requires Weighted(blocks) && Covers(blocks, ys) && SafelyPooled(blocks, ys) && 0 <= k < |blocks|
    requires Pos(blocks, k) < p < Pos(blocks, k + 1) && Rises(ys, p)
    ensures Bridged(ys, p)
  {
    hide Covers, SafelyPooled, Pos, Part, Weighted, Rises;
    BlockSpan(blocks, k, ys);
    BlockEnds(blocks, k, ys);
    SafeAt(blocks, k, ys, p);
    var s, e := Pos(blocks, k), Pos(blocks, k + 1);
    PartsAdd(ys, s, p, e);
    CrossParts(Part(ys, s, p), p - s, Part(ys, p, e), e - p);
    assert DoesNotRise(ys, s, p, e);
  }

  lemma {:induction false} SafePoolsAreHarmless(samples: seq<Sample>)
    requires PoolsAreSafe(samples)
    ensures HarmlessTies(samples)
  {
    hide Covers, SafelyPooled, Fit, Sort, Pos, Pulled, Bridged;
    SortedFit(samples);
    var ys, blocks := Ordered(samples), FitOf(samples);
    forall p | Rises(ys, p) && Pulled(ys, p) ensures Bridged(ys, p) {
      var k := FindBlock(blocks, ys, p);
      PosStep(blocks, 0);
      if Pos(blocks, k) == p {
        FitStructure(ys);
        FitRightIsHigh(ys);
        SurvivorIsNotPulled(blocks, ys, k);
      } else {
        SafeBlockBridges(blocks, k, ys, p);
      }
    }
  }

  // ---- unsafe pools do not ----

  /** How far the samples before `x` stay below the mean `sum / weight`, scaled by the weight. */
  function Shortfall(ys: seq<Sample>, b: Block, x: int): int
    requires 0 <= x <= |ys|
  {
    b.sum * x - b.weight * Part(ys, 0, x)
  }

  predicate IsCut(ys: seq<Sample>, x: int) {
    x == |ys| || StartsGroup(ys, x)
  }

  /** The first place between groups with the largest shortfall. */
  ghost predicate IsFirstHighest(ys: seq<Sample>, b: Block, n: int, x: int)
    requires 0 <= n <= |ys|
  {
    && 0 <= x <= n && IsCut(ys, x)
    && (forall y :: 0 <= y <= n && IsCut(ys, y) ==> Shortfall(ys, b, y) <= Shortfall(ys, b, x))
    && (forall y :: 0 <= y < x && IsCut(ys, y) ==> Shortfall(ys, b, y) < Shortfall(ys, b, x))
  }

  lemma {:induction false} FirstHighest(ys: seq<Sample>, b: Block, n: int) returns (x: int)
    requires 0 <= n <= |ys|
    ensures IsFirstHighest(ys, b, n, x)
    decreases n
  {
    hide Shortfall, Rises;
    if n == 0 {
      x := 0;
    } else {
      x := FirstHighest(ys, b, n - 1);
      if IsCut(ys, n) && Shortfall(ys, b, n) > Shortfall(ys, b, x) {
        x := n;
      }
    }
  }

  lemma {:induction false} ShortfallStep(ys: seq<Sample>, b: Block, x: int, y: int)
    requires 0 <= x <= y <= |ys|
    ensures Shortfall(ys, b, y) == Shortfall(ys, b, x) + b.sum * (y - x) - b.weight * Part(ys, x, y)
  {
    hide Part;
    PartsAdd(ys, 0, x, y);
    Expand(b.sum, x, y);
    Distribute3(b.weight, Part(ys, 0, x), Part(ys, x, y));
  }

  lemma {:induction false} Expand(s: int, x: int, y: int)
    ensures s * y == s * x + s * (y - x)
  {}

  lemma {:induction false} Distribute3(w: int, a: int, b: int)
    ensures w * (a + b) == w * a + w * b
  {}

  /** Up to the block the boundaries' shortfalls rise, from it on they fall. */
  lemma {:induction false} BoundariesAreLow(blocks: seq<Block>, k: int, ys: seq<Sample>, j: int)
    requires Weighted(blocks) && Covers(blocks, ys) && MeansRise(blocks) && 0 <= k < |blocks| && 0 <= j <= |blocks|
    ensures 0 <= Pos(blocks, j) <= |ys| && 0 <= Pos(blocks, k) <= |ys|
    ensures Shortfall(ys, blocks[k], Pos(blocks, j)) <= Shortfall(ys, blocks[k], Pos(blocks, k))
    decreases if j <= k then k - j else j - k
  {
    hide Covers, MeansRise, Pos, Part, Weighted, Shortfall;
    PrefixCovers(blocks, j, ys);
    PrefixCovers(blocks, k, ys);
    if j < k {
      BoundariesAreLow(blocks, k, ys, j + 1);
      BlockSpan(blocks, j, ys);
      RisingOrder(blocks, j, k);
      ShortfallStep(ys, blocks[k], Pos(blocks, j), Pos(blocks, j + 1));
    } else if j > k {
      BoundariesAreLow(blocks, k, ys, j - 1);
      BlockSpan(blocks, j - 1, ys);
      RisingOrder(blocks, k, j - 1);
      ShortfallStep(ys, blocks[k], Pos(blocks, j - 1), Pos(blocks, j));
    }
  }

  lemma {:induction false} ScaledStrictly(x: int, y: int, c: int)
    requires x < y && c > 0
    ensures x * c < y * c
  {}

  lemma {:induction false} Strictly(left: int, a: int, right: int, b: int, s: int, w: int)
    requires w * left < s * a && s * b <= w * right && a > 0 && b > 0 && w > 0
    ensures left * b < right * a
  {
    ScaledStrictly(w * left, s * a, b);
    Scaled(s * b, w * right, a);
    Exchange(left, w, b);
    Exchange(right, w, a);
    Exchange(s, a, b);
    CancelStrict(w, left * b, right * a);
  }

  lemma {:induction false} CancelStrict(u: int, x: int, y: int)
    requires u > 0 && u * x < u * y
    ensures x < y
  {}

  /** Whole groups before the first highest shortfall lie below the mean, whole groups after it do not. */
  lemma {:induction false} HighestIsNotBridged(ys: seq<Sample>, b: Block, x: int)
    requires b.weight > 0 && IsFirstHighest(ys, b, |ys|, x)
    ensures !Bridged(ys, x)
  {
    hide Part, Shortfall, Rises;
    forall a, q | StartsGroup(ys, a) && EndsGroup(ys, q) ensures !DoesNotRise(ys, a, x, q) {
      if 0 <= a < x < q <= |ys| {
        assert IsCut(ys, a) && IsCut(ys, q);
        ShortfallStep(ys, b, a, x);
        ShortfallStep(ys, b, x, q);
        Strictly(Part(ys, a, x), x - a, Part(ys, x, q), q - x, b.sum, b.weight);
      }
    }
  }

  lemma {:induction false} UnsafePlace(blocks: seq<Block>, k: nat, ys: seq<Sample>, before: nat, p: nat)
    requires Weighted(blocks) && Covers(blocks, ys) && before <= |ys| && UnsafeAt(blocks, k, ys[..before], p)
    ensures 0 <= Pos(blocks, k) && Pos(blocks, k) + p < |ys| && Rises(ys, Pos(blocks, k) + p)
    ensures Pos(blocks, k) + blocks[k].weight <= |ys|
    ensures !Ample(ys[Pos(blocks, k)..Pos(blocks, k) + blocks[k].weight], p)
  {
    hide Pos, Ample, Covers, Part, StartsGroup;
    var upTo, w := ys[..before], blocks[k].weight;
    BlockSpan(blocks, k, ys);
    CoveredLength(blocks, k + 1, upTo);
    var s := Pos(blocks, k);
    assert Tail(upTo, w) == ys[s..s + w];
    assert Tail(upTo, w)[p - 1] == ys[s + p - 1] && Tail(upTo, w)[p] == ys[s + p];
  }

  lemma {:induction false} NotAmple(run: seq<Sample>, p: int)
    requires 0 <= p <= |run| && !Ample(run, p)
    ensures Sum(run[..p]) * |run| < p * Sum(run)
  {}

  /** The place where a block hides a rise its beginning does not reach has a higher shortfall than the
      block's start. */
  lemma {:induction false} UnsafeShortfall(blocks: seq<Block>, k: nat, ys: seq<Sample>, before: nat, p: nat)
    requires Weighted(blocks) && Covers(blocks, ys) && before <= |ys| && UnsafeAt(blocks, k, ys[..before], p)
    ensures 0 <= Pos(blocks, k) && Pos(blocks, k) + p < |ys| && Rises(ys, Pos(blocks, k) + p)
    ensures Shortfall(ys, blocks[k], Pos(blocks, k)) < Shortfall(ys, blocks[k], Pos(blocks, k) + p)
  {
    hide Sum, Block.Mean, Shortfall, Weighted, Covers, Pos, StartsGroup, Ample, Rises;
    UnsafePlace(blocks, k, ys, before, p);
    BlockSpan(blocks, k, ys);
    var s := Pos(blocks, k);
    var run := ys[s..s + blocks[k].weight];
    NotAmple(run, p);
    assert run[..p] == ys[s..s + p];
    ShortfallStep(ys, blocks[k], s, s + p);
  }

  lemma {:induction false} UnsafePoolsAreHarmful(samples: seq<Sample>)
    requires samples != [] && !PoolsAreSafe(samples)
    ensures !HarmlessTies(samples)
  {
    hide Covers, SafelyPooled, Fit, Sort, Pos, UnsafeAt, Shortfall, Pulled, Bridged, MeansRise, Part;
    SortedFit(samples);
    var ys, blocks := Ordered(samples), FitOf(samples);
    WholeIsPrefix(blocks);
    var k, before, p := FindUnsafe(blocks, |blocks|, ys);
    UnsafeShortfall(blocks, k, ys, before, p);
    var x := FirstHighest(ys, blocks[k], |ys|);
    assert IsCut(ys, Pos(blocks, k) + p);
    forall j | 0 <= j <= |blocks| ensures Pos(blocks, j) != x {
      BoundariesAreLow(blocks, k, ys, j);
    }
    assert !IsBoundary(blocks, x);
    PosStep(blocks, 0);
    PrefixCovers(blocks, |blocks|, ys);
    FitHidesOnlyPulled(ys, x);
    HasWeight(blocks, k);
    HighestIsNotBridged(ys, blocks[k], x);
  }

  /** Isotonic fitting gives the least squared error of all functions that are nondecreasing in the score
      exactly when the ties of the input are harmless. */
  lemma {:induction false} FitIsOptimalIff(samples: seq<Sample>)
    requires samples != []
    ensures FitOf(samples) != []
    ensures LeastSquares(samples, Fitted(FitOf(samples))) <==> HarmlessTies(samples)
  {
    hide LeastSquares, PoolsAreSafe, HarmlessTies, Fit;
    SafePoolsAreOptimalIff(samples);
    if PoolsAreSafe(samples) {
      SafePoolsAreHarmless(samples);
    } else {
      UnsafePoolsAreHarmful(samples);
    }
  }

  /** Mixed ties need not hurt: with one score only there is nothing to rise. */
  lemma {:induction false} OneScoreIsOptimal(samples: seq<Sample>)
    requires samples != [] && forall i :: 0 <= i < |samples| ==> samples[i].score == samples[0].score
    ensures FitOf(samples) != [] && LeastSquares(samples, Fitted(FitOf(samples)))
  {
    hide Fit, Sort, LeastSquares;
    SortedMembers(SampleLe, samples);
    var ys := Ordered(samples);
    forall p | 0 <= p < |ys| ensures ys[p].score == samples[0].score {
      assert ys[p] in samples;
    }
    assert HarmlessTies(samples);
    FitIsOptimalIff(samples);
  }

  /** The five samples whose fit is beaten are not harmless. */
  lemma {:induction false} MixedTiesAreHarmful()
    ensures !HarmlessTies(MixedTies())
  {
    hide Fit, LeastSquares, HarmlessTies;
    MixedTiesCanLose();
    FitIsOptimalIff(MixedTies());
  }
}
