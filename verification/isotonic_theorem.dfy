/** Isotonic fitting is least squares exactly when no block hides a rise before which the labels stay below its mean. */
module IsotonicTheorem {
  import opened Sorting
  import opened Isotonic
  import opened IsotonicStructure
  import opened IsotonicOptimality
  import opened IsotonicUnsafe
  import opened Totals

  /** `g` is monotone on the scores and no monotone function has a smaller squared error. */
  ghost predicate LeastSquares(samples: seq<Sample>, g: real -> real) {
    && MonotoneOn(samples, g)
    && forall f: real -> real :: MonotoneOn(samples, f) ==> SquaredError(samples, g) <= SquaredError(samples, f)
  }

  /** No block of the fit has a rising score inside it before which the labels stay below its mean. */
  ghost predicate PoolsAreSafe(samples: seq<Sample>) {
    Covers(FitOf(samples), Ordered(samples)) && SafelyPooled(FitOf(samples), Ordered(samples))
  }

  // ---- the order of the samples does not matter ----

  function ErrorAt(f: real -> real): Sample -> real {
    (x: Sample) => Square(f(x.score) - x.outcome as real)
  }

  lemma {:induction false} ErrorIsSum(ys: seq<Sample>, f: real -> real)
    ensures SquaredError(ys, f) == SumOver(ys, ErrorAt(f))
    decreases |ys|
  {
    hide Square;
    if ys != [] {
      ErrorIsSum(ys[..|ys| - 1], f);
    }
  }

  lemma {:induction false} OrderedError(samples: seq<Sample>, f: real -> real)
    ensures SquaredError(Ordered(samples), f) == SquaredError(samples, f)
  {
    hide SquaredError, SumOver, Sort;
    ErrorIsSum(Ordered(samples), f);
    ErrorIsSum(samples, f);
    SortSumOver(SampleLe, samples, ErrorAt(f));
  }

  lemma {:induction false} OrderedMonotone(samples: seq<Sample>, f: real -> real)
    ensures MonotoneOn(samples, f) <==> MonotoneOn(Ordered(samples), f)
  {
    hide Insert, Sort;
    SortedMembers(SampleLe, samples);
    SameMembersMonotone(samples, Ordered(samples), f);
    SameMembersMonotone(Ordered(samples), samples, f);
  }

  lemma {:induction false} SameMembersMonotone(a: seq<Sample>, b: seq<Sample>, f: real -> real)
    requires forall x :: x in b ==> x in a
    ensures MonotoneOn(a, f) ==> MonotoneOn(b, f)
  {
    if MonotoneOn(a, f) {
      forall i, j | 0 <= i < |b| && 0 <= j < |b| && b[i].score <= b[j].score ensures f(b[i].score) <= f(b[j].score) {
        assert b[i] in a && b[j] in a;
        var i' :| 0 <= i' < |a| && a[i'] == b[i];
        var j' :| 0 <= j' < |a| && a[j'] == b[j];
      }
    }
  }

  // ---- the exact criterion ----

  lemma {:induction false} SortedFit(samples: seq<Sample>)
    ensures SortedBy(SampleLe, Ordered(samples)) && Covers(FitOf(samples), Ordered(samples))
    ensures BoundariesRise(FitOf(samples)) && MeansRise(FitOf(samples))
    ensures samples != [] ==> FitOf(samples) != []
  {
    SampleLeIsTotal();
    SortSorts(SampleLe, samples);
    FitStructure(Ordered(samples));
    CoveredBoundaries(FitOf(samples), Ordered(samples));
  }

  lemma {:induction false} FitIsMonotone(samples: seq<Sample>)
    requires samples != []
    ensures FitOf(samples) != [] && MonotoneOn(samples, Fitted(FitOf(samples)))
  {
    hide Value;
    SortedFit(samples);
    var all := FitOf(samples);
    forall i, j | 0 <= i < |samples| && 0 <= j < |samples| && samples[i].score <= samples[j].score
      ensures Fitted(all)(samples[i].score) <= Fitted(all)(samples[j].score)
    {
      ValueIsMonotone(samples[i].score, samples[j].score, all);
    }
  }

  lemma {:induction false} SafeFitIsOptimal(samples: seq<Sample>)
    requires samples != [] && PoolsAreSafe(samples)
    ensures FitOf(samples) != [] && LeastSquares(samples, Fitted(FitOf(samples)))
  {
    hide SquaredError, SafelyPooled, Covers, Value, Fit, Fitted, MonotoneOn, Sort;
    SortedFit(samples);
    FitIsMonotone(samples);
    var all, ys := FitOf(samples), Ordered(samples);
    forall f: real -> real | MonotoneOn(samples, f)
      ensures SquaredError(samples, Fitted(all)) <= SquaredError(samples, f)
    {
      OrderedMonotone(samples, f);
      WholeIsPrefix(all);
      SafePoolsAreOptimal(all, |all|, ys, f);
      OrderedError(samples, f);
      OrderedError(samples, Fitted(all));
    }
  }

  lemma {:induction false} WholeIsPrefix(all: seq<Block>)
    ensures all[..|all|] == all
  {}

  lemma {:induction false} UnsafeFitIsBeaten(samples: seq<Sample>)
    requires samples != [] && !PoolsAreSafe(samples)
    ensures FitOf(samples) != [] && !LeastSquares(samples, Fitted(FitOf(samples)))
  {
    hide SquaredError, SafelyPooled, Covers, Value, Fit, Fitted, Lowered, UnsafeAt, MonotoneOn, Sort;
    SortedFit(samples);
    var all, ys := FitOf(samples), Ordered(samples);
    WholeIsPrefix(all);
    var k, before, p := FindUnsafe(all, |all|, ys);
    var cut, c := UnsafeIsBeaten(all, ys, k, before, p);
    LoweredIsMonotone(all, cut, c, samples);
    OrderedError(samples, Lowered(all, cut, c));
    OrderedError(samples, Fitted(all));
  }

  /** Isotonic fitting is least squares exactly when its pools are safe. */
  lemma {:induction false} SafePoolsAreOptimalIff(samples: seq<Sample>)
    requires samples != []
    ensures FitOf(samples) != []
    ensures LeastSquares(samples, Fitted(FitOf(samples))) <==> PoolsAreSafe(samples)
  {
    if PoolsAreSafe(samples) {
      SafeFitIsOptimal(samples);
    } else {
      UnsafeFitIsBeaten(samples);
    }
  }

  // ---- no score with both labels ----

  ghost predicate NoMixedTies(samples: seq<Sample>) {
    forall i, j :: 0 <= i < |samples| && 0 <= j < |samples| && samples[i].score == samples[j].score ==>
      samples[i].outcome == samples[j].outcome
  }

  ghost predicate AllAmple(run: seq<Sample>) {
    forall p :: 0 <= p <= |run| ==> Ample(run, p)
  }

  ghost predicate AmplePools(blocks: seq<Block>, ys: seq<Sample>)
    requires Covers(blocks, ys)
    decreases |blocks|
  {
    blocks != [] ==>
      AllAmple(Tail(ys, Last(blocks).weight)) && AmplePools(Init(blocks), Front(ys, Last(blocks).weight))
  }

  lemma {:induction false} AmplePoolsAreSafe(blocks: seq<Block>, ys: seq<Sample>)
    requires Covers(blocks, ys) && AmplePools(blocks, ys)
    ensures SafelyPooled(blocks, ys)
    decreases |blocks|
  {
    if blocks != [] {
      AmplePoolsAreSafe(Init(blocks), Front(ys, Last(blocks).weight));
    }
  }

  lemma {:induction false} SingletonIsAmple(s: Sample)
    ensures AllAmple([s])
  {
    assert [s][..0] == [] && [s][..1] == [s];
  }

  lemma {:induction false} LowerTheMean(part: int, p: int, total: int, n: int, y: int)
    requires 0 <= p <= n && part * n >= p * total && part >= p * y && y <= 1
    ensures part * (n + 1) >= p * (total + y)
  {}

  lemma {:induction false} ExtendPrefix(run: seq<Sample>, s: Sample, p: int)
    requires 0 <= p <= |run|
    ensures (run + [s])[..p] == run[..p]
  {}

  /** A sample not above any prefix mean can join. */
  lemma {:induction false} ExtendAmple(run: seq<Sample>, s: Sample)
    requires AllAmple(run) && s.outcome <= 1
    requires forall p :: 0 <= p <= |run| ==> Sum(run[..p]) >= p * s.outcome
    ensures AllAmple(run + [s])
  {
    hide Sum;
    var all := run + [s];
    assert Sum([s]) == s.outcome by {
      SingleSum(s);
    }
    SumConcat(run, [s]);
    forall p | 0 <= p <= |all| ensures Ample(all, p) {
      if p <= |run| {
        ExtendPrefix(run, s, p);
        assert Ample(run, p);
        LowerTheMean(Sum(run[..p]), p, Sum(run), |run|, s.outcome);
      } else {
        assert all[..p] == all;
      }
    }
  }

  lemma {:induction false} SingleSum(s: Sample)
    ensures Sum([s]) == s.outcome
  {
    assert [s][..0] == [];
  }

  lemma {:induction false} PrefixIsBinary(run: seq<Sample>, p: int)
    requires Binary(run) && 0 <= p <= |run|
    ensures Binary(run[..p])
  {}

  /** A run whose prefixes are ample and whose last label is one has only ones. */
  lemma {:induction false} OnesOnly(run: seq<Sample>, p: int)
    requires run != [] && Binary(run) && AllAmple(run) && run[|run| - 1].outcome == 1
    requires 0 <= p <= |run|
    ensures Sum(run[..p]) == p
  {
    var n := |run|;
    assert Ample(run, n - 1);
    SumBounds(run);
    LastIsOne(Sum(run), n);
    assert run == run[..p] + run[p..];
    SumConcat(run[..p], run[p..]);
    SumBounds(run[..p]);
    SumBounds(run[p..]);
  }

  lemma {:induction false} LastIsOne(total: int, n: int)
    requires (total - 1) * n >= (n - 1) * total && total <= n
    ensures total == n
  {}

  lemma {:induction false} TieJoins(run: seq<Sample>, s: Sample)
    requires run != [] && Binary(run) && AllAmple(run) && run[|run| - 1].outcome == s.outcome
    ensures AllAmple(run + [s])
  {
    hide AllAmple, Sum;
    forall p | 0 <= p <= |run| ensures Sum(run[..p]) >= p * s.outcome {
      if s.outcome == 1 {
        OnesOnly(run, p);
      } else {
        PrefixIsBinary(run, p);
        SumBounds(run[..p]);
      }
    }
    ExtendAmple(run, s);
  }

  lemma {:induction false} LastOfRun(blocks: seq<Block>, ys: seq<Sample>, s: Sample)
    requires blocks != [] && Covers(blocks, ys) && Last(blocks).boundary == s.score
    requires Binary(ys + [s]) && NoMixedTies(ys + [s])
    ensures 0 < Last(blocks).weight <= |ys|
    ensures var run := Tail(ys, Last(blocks).weight);
      run != [] && Binary(run) && run[|run| - 1].outcome == s.outcome
  {
    hide Sum;
    var all, run := ys + [s], Tail(ys, Last(blocks).weight);
    assert all[|ys| - 1] == run[|run| - 1] && all[|ys|] == s;
    forall i | 0 <= i < |run| ensures run[i].outcome == 0 || run[i].outcome == 1 {
      assert run[i] == all[|ys| - Last(blocks).weight + i];
    }
  }

  lemma {:induction false} ExtendKeepsAmple(blocks: seq<Block>, ys: seq<Sample>, s: Sample)
    requires Weighted(blocks) && Covers(blocks, ys) && AmplePools(blocks, ys)
    requires blocks != [] && Last(blocks).boundary == s.score
    requires Binary(ys + [s]) && NoMixedTies(ys + [s])
    ensures Covers(Push(blocks, s), ys + [s]) && AmplePools(Push(blocks, s), ys + [s])
  {
    ExtendCovers(blocks, ys, s);
    LastOfRun(blocks, ys, s);
    hide AllAmple, Sum, Binary, NoMixedTies;
    var all, pushed, w := ys + [s], Push(blocks, s), Last(blocks).weight;
    TieJoins(Tail(ys, w), s);
    assert Tail(all, w + 1) == Tail(ys, w) + [s] && Front(all, w + 1) == Front(ys, w);
    assert Init(pushed) == Init(blocks) && Last(pushed).weight == w + 1;
  }

  lemma {:induction false} AppendKeepsAmple(blocks: seq<Block>, ys: seq<Sample>, s: Sample)
    requires Weighted(blocks) && Covers(blocks, ys) && AmplePools(blocks, ys)
    requires blocks != [] ==> Last(blocks).boundary < s.score
    ensures Covers(Push(blocks, s), ys + [s]) && AmplePools(Push(blocks, s), ys + [s])
  {
    AppendCovers(blocks, ys, s);
    hide AllAmple, Sum;
    var all, pushed := ys + [s], Push(blocks, s);
    SingletonIsAmple(s);
    assert pushed == blocks + [Block(s.score, s.outcome, 1)];
    assert Tail(all, 1) == [s] && Front(all, 1) == ys && Init(pushed) == blocks;
  }

  lemma {:induction false} PushKeepsAmple(blocks: seq<Block>, ys: seq<Sample>, s: Sample)
    requires Weighted(blocks) && Covers(blocks, ys) && AmplePools(blocks, ys)
    requires SortedBy(SampleLe, ys + [s]) && Binary(ys + [s]) && NoMixedTies(ys + [s])
    ensures Covers(Push(blocks, s), ys + [s]) && AmplePools(Push(blocks, s), ys + [s])
  {
    hide AmplePools, Sum, Binary, NoMixedTies, Push;
    if blocks != [] && Last(blocks).boundary == s.score {
      ExtendKeepsAmple(blocks, ys, s);
    } else {
      if blocks != [] {
        assert SampleLe((ys + [s])[|ys| - 1], (ys + [s])[|ys|]);
      }
      AppendKeepsAmple(blocks, ys, s);
    }
  }

  lemma {:induction false} CompareMeans(left: Block, right: Block)
    requires left.weight > 0 && right.weight > 0 && left.Mean() > right.Mean()
    ensures left.sum * right.weight > right.sum * left.weight
  {
    var a, b, u, v := left.sum as real, right.sum as real, left.weight as real, right.weight as real;
    assert left.Mean() * u == a && right.Mean() * v == b;
    assert (left.Mean() - right.Mean()) * (u * v) > 0.0;
    assert left.Mean() * (u * v) == a * v && right.Mean() * (u * v) == b * u;
    assert (left.sum * right.weight) as real == a * v && (right.sum * left.weight) as real == b * u;
  }

  lemma {:induction false} CancelLeft(u: int, x: int, y: int)
    requires u > 0 && u * x >= u * y
    ensures x >= y
  {}

  lemma {:induction false} MergedLeftPrefix(part: int, p: int, a: int, u: int, b: int, v: int)
    requires part * u >= p * a && a * v > b * u && 0 <= p && u > 0 && v > 0
    ensures part * (u + v) >= p * (a + b)
  {
    assert u * (part * (u + v)) == (part * u) * (u + v) >= (p * a) * (u + v);
    assert (p * a) * (u + v) == p * (a * u + a * v);
    assert p * (a * u + a * v) >= p * (a * u + b * u);
    assert p * (a * u + b * u) == u * (p * (a + b));
    CancelLeft(u, part * (u + v), p * (a + b));
  }

  lemma {:induction false} Slack(q: int, a: int, u: int, b: int, v: int)
    ensures (a * v + q * b) * (u + v) - v * ((u + q) * (a + b)) == (v - q) * (a * v - b * u)
  {
    calc {
      (a * v + q * b) * (u + v) - v * ((u + q) * (a + b));
      a * v * u + a * v * v + q * b * u + q * b * v - v * (u * a + u * b + q * a + q * b);
      a * v * v + q * b * u - u * b * v - q * a * v;
      (v - q) * (a * v - b * u);
    }
  }

  lemma {:induction false} MergedRightPrefix(part: int, q: int, a: int, u: int, b: int, v: int)
    requires part * v >= q * b && a * v > b * u && 0 <= q <= v && u > 0 && v > 0
    ensures (a + part) * (u + v) >= (u + q) * (a + b)
  {
    assert v * ((a + part) * (u + v)) == (a * v + part * v) * (u + v) >= (a * v + q * b) * (u + v);
    Slack(q, a, u, b, v);
    assert (v - q) * (a * v - b * u) >= 0;
    CancelLeft(v, (a + part) * (u + v), (u + q) * (a + b));
  }

  /** Merging a run with a lower one after it. */
  lemma {:induction false} MergeAmple(left: seq<Sample>, right: seq<Sample>)
    requires left != [] && right != [] && AllAmple(left) && AllAmple(right)
    requires Sum(left) * |right| > Sum(right) * |left|
    ensures AllAmple(left + right)
  {
    hide Sum;
    var all, u, v := left + right, |left|, |right|;
    SumConcat(left, right);
    forall p | 0 <= p <= |all| ensures Ample(all, p) {
      if p <= u {
        assert all[..p] == left[..p] && Ample(left, p);
        MergedLeftPrefix(Sum(left[..p]), p, Sum(left), u, Sum(right), v);
      } else {
        var q := p - u;
        assert all[..p] == left + right[..q] && Ample(right, q);
        SumConcat(left, right[..q]);
        MergedRightPrefix(Sum(right[..q]), q, Sum(left), u, Sum(right), v);
      }
    }
  }

  lemma {:induction false} PoolOnceKeepsAmple(blocks: seq<Block>, ys: seq<Sample>)
    requires Weighted(blocks) && Covers(blocks, ys) && AmplePools(blocks, ys) && Violates(blocks)
    ensures Covers(PoolOnce(blocks), ys) && AmplePools(PoolOnce(blocks), ys)
  {
    hide AllAmple, Sum, Block.Mean;
    PoolOnceCovers(blocks, ys);
    var v, front := Last(blocks).weight, Front(ys, Last(blocks).weight);
    var left := Last(Init(blocks));
    assert left == blocks[|blocks| - 2];
    var u := left.weight;
    CompareMeans(left, Last(blocks));
    MergeAmple(Tail(front, u), Tail(ys, v));
    assert Tail(ys, u + v) == Tail(front, u) + Tail(ys, v);
    assert Front(front, u) == Front(ys, u + v);
    assert Init(PoolOnce(blocks)) == Init(Init(blocks));
    assert Last(PoolOnce(blocks)).weight == u + v;
  }

  lemma {:induction false} PoolKeepsAmple(blocks: seq<Block>, ys: seq<Sample>)
    requires Weighted(blocks) && Covers(blocks, ys) && AmplePools(blocks, ys)
    ensures Covers(Pool(blocks), ys) && AmplePools(Pool(blocks), ys)
    decreases |blocks|
  {
    if Violates(blocks) {
      PoolOnceKeepsAmple(blocks, ys);
      PoolKeepsAmple(PoolOnce(blocks), ys);
    }
  }

  lemma {:induction false} FitIsAmple(ys: seq<Sample>)
    requires SortedBy(SampleLe, ys) && Binary(ys) && NoMixedTies(ys)
    ensures Covers(Fit(ys), ys) && AmplePools(Fit(ys), ys)
    decreases |ys|
  {
    hide Push, Pool, Block.Mean;
    if ys != [] {
      var front, s := ys[..|ys| - 1], ys[|ys| - 1];
      assert front + [s] == ys;
      FitIsAmple(front);
      PushKeepsAmple(Fit(front), front, s);
      PoolKeepsAmple(Push(Fit(front), s), ys);
    }
  }

  lemma {:induction false} OrderedTies(samples: seq<Sample>)
    requires NoMixedTies(samples)
    ensures NoMixedTies(Ordered(samples))
  {
    SortedMembers(SampleLe, samples);
    var ys := Ordered(samples);
    forall i, j | 0 <= i < |ys| && 0 <= j < |ys| && ys[i].score == ys[j].score ensures ys[i].outcome == ys[j].outcome {
      assert ys[i] in samples && ys[j] in samples;
    }
  }

  /** Where no score carries both labels, and so for distinct scores, the fit has the smallest squared
      error of all functions that are nondecreasing in the score. */
  lemma {:induction false} FitIsOptimal(samples: seq<Sample>)
    requires samples != [] && Binary(samples) && NoMixedTies(samples)
    ensures FitOf(samples) != [] && LeastSquares(samples, Fitted(FitOf(samples)))
  {
    hide Fit, SafelyPooled, AmplePools, Covers, LeastSquares;
    SortedFit(samples);
    OrderedBinary(samples);
    OrderedTies(samples);
    FitIsAmple(Ordered(samples));
    AmplePoolsAreSafe(FitOf(samples), Ordered(samples));
    SafeFitIsOptimal(samples);
  }

  /** The score 1 carries both labels, its zero is pooled with its one, and the two ones at the score 2
      then lift the whole block above the share of ones at the score 1. */
  function MixedTies(): seq<Sample> {
    [Sample(1.0, 0), Sample(1.0, 1), Sample(2.0, 0), Sample(2.0, 1), Sample(2.0, 1)]
  }

  lemma {:induction false} TieStep(ys: seq<Sample>, s: Sample, b: Block)
    requires Fit(ys) == [b] && b.weight > 0 && b.boundary == s.score
    ensures Fit(ys + [s]) == [Block(s.score, b.sum + s.outcome, b.weight + 1)]
  {
    assert (ys + [s])[..|ys|] == ys;
    assert Push([b], s) == [Block(s.score, b.sum + s.outcome, b.weight + 1)];
  }

  lemma {:induction false} FallStep(ys: seq<Sample>, s: Sample, b: Block)
    requires Fit(ys) == [b] && b.weight > 0 && b.sum > 0 && b.boundary < s.score && s.outcome == 0
    ensures Fit(ys + [s]) == [Block(s.score, b.sum, b.weight + 1)]
  {
    assert (ys + [s])[..|ys|] == ys;
    var pushed := Push([b], s);
    assert pushed == [b, Block(s.score, 0, 1)];
    ZeroIsLess(b);
    assert Violates(pushed);
    var merged := [Block(s.score, b.sum, b.weight + 1)];
    assert PoolOnce(pushed) == merged && Pool(merged) == merged;
  }

  lemma {:induction false} ZeroIsLess(b: Block)
    requires b.weight > 0 && b.sum > 0
    ensures b.Mean() > Block(b.boundary, 0, 1).Mean()
  {}

  lemma {:induction false} FirstStep(s: Sample)
    ensures Fit([s]) == [Block(s.score, s.outcome, 1)]
  {
    assert [s][..0] == [];
    assert Push([], s) == [Block(s.score, s.outcome, 1)];
  }

  lemma {:induction false} MixedTiesFit()
    ensures Fit(MixedTies()) == [Block(2.0, 3, 5)]
  {
    hide Fit;
    var zero, one, low, high := Sample(1.0, 0), Sample(1.0, 1), Sample(2.0, 0), Sample(2.0, 1);
    FirstStep(zero);
    TieStep([zero], one, Block(1.0, 0, 1));
    FallStep([zero] + [one], low, Block(1.0, 1, 2));
    TieStep([zero] + [one] + [low], high, Block(2.0, 1, 3));
    TieStep([zero] + [one] + [low] + [high], high, Block(2.0, 2, 4));
    assert MixedTies() == [zero] + [one] + [low] + [high] + [high];
  }

  lemma {:induction false} SumOfFive()
    ensures Sum(MixedTies()) == 3 && Sum(MixedTies()[..2]) == 1
  {
    hide Sum;
    var zero, one, low, high := Sample(1.0, 0), Sample(1.0, 1), Sample(2.0, 0), Sample(2.0, 1);
    SumConcat([zero], [one]);
    SumConcat([zero] + [one], [low]);
    SumConcat([zero] + [one] + [low], [high]);
    SumConcat([zero] + [one] + [low] + [high], [high]);
    SingleSum(zero);
    SingleSum(one);
    SingleSum(low);
    SingleSum(high);
    assert MixedTies() == [zero] + [one] + [low] + [high] + [high];
    assert MixedTies()[..2] == [zero] + [one];
  }

  lemma {:induction false} MixedTiesAreUnsafe()
    ensures !SafeRun(Tail(MixedTies(), 5))
  {
    hide Sum;
    var t := MixedTies();
    SumOfFive();
    assert Tail(t, 5) == t;
    assert t[2 - 1].score < t[2].score && !Ample(t, 2);
  }

  lemma {:induction false} OneUnsafeBlock(samples: seq<Sample>, b: Block)
    requires FitOf(samples) == [b] && b.weight == |samples| && !SafeRun(Tail(Ordered(samples), |samples|))
    ensures !PoolsAreSafe(samples)
  {
    hide SafeRun, Fit, Sort;
    assert Last(FitOf(samples)) == b;
  }

  /** With both labels at one score the fit need not be optimal. */
  lemma {:induction false} MixedTiesCanLose()
    ensures Binary(MixedTies()) && FitOf(MixedTies()) == [Block(2.0, 3, 5)]
    ensures !LeastSquares(MixedTies(), Fitted(FitOf(MixedTies())))
  {
    hide LeastSquares, Sum, Fit, Sort, SafeRun, PoolsAreSafe;
    var t := MixedTies();
    SortedIsKept(t);
    MixedTiesFit();
    MixedTiesAreUnsafe();
    OneUnsafeBlock(t, Block(2.0, 3, 5));
    UnsafeFitIsBeaten(t);
  }

  // ---- the fitted values keep the number of positives ----

  function ValueAt(f: real -> real): Sample -> real {
    (x: Sample) => f(x.score)
  }

  /** The sum of the fitted values at the scores of the samples. */
  function ValueSum(ys: seq<Sample>, f: real -> real): real {
    SumOver(ys, ValueAt(f))
  }

  lemma {:induction false} ConstantValueSum(ys: seq<Sample>, f: real -> real, m: real)
    requires forall i :: 0 <= i < |ys| ==> f(ys[i].score) == m
    ensures ValueSum(ys, f) == Times(m, |ys|)
    decreases |ys|
  {
    if ys != [] {
      ConstantValueSum(ys[..|ys| - 1], f, m);
    }
  }

  lemma {:induction false} MeanTimesWeight(b: Block)
    requires b.weight > 0
    ensures Times(b.Mean(), b.weight) == b.sum as real
  {}

  lemma {:induction false} RunValueSum(all: seq<Block>, k: nat, ys: seq<Sample>)
    requires all != [] && Weighted(all) && BoundariesRise(all) && k < |all|
    requires Covers(all[..k + 1], ys) && SortedBy(SampleLe, ys)
    ensures 0 < all[k].weight <= |ys|
    ensures ValueSum(Tail(ys, all[k].weight), Fitted(all)) == Sum(Tail(ys, all[k].weight)) as real
  {
    hide Sum, Block.Mean, Value, SumOver, Times;
    assert Last(all[..k + 1]) == all[k];
    var run := Tail(ys, all[k].weight);
    forall i | 0 <= i < |run| ensures Value(run[i].score, all) == all[k].Mean() {
      RunValue(all, k, ys, |ys| - all[k].weight + i);
    }
    ConstantValueSum(run, Fitted(all), all[k].Mean());
    MeanTimesWeight(all[k]);
  }

  lemma {:induction false} CoveredValueSum(all: seq<Block>, k: nat, ys: seq<Sample>)
    requires all != [] && Weighted(all) && BoundariesRise(all) && k <= |all|
    requires Covers(all[..k], ys) && SortedBy(SampleLe, ys)
    ensures ValueSum(ys, Fitted(all)) == Sum(ys) as real
    decreases k
  {
    if k == 0 {
      NoBlocks(all, ys);
    } else {
      hide Sum, Block.Mean, SumOver, Front, Tail, BoundariesRise;
      CoversStep(all, k, ys);
      var w := all[k - 1].weight;
      var front, run := Front(ys, w), Tail(ys, w);
      PartsAreSorted(ys, w);
      RunValueSum(all, k - 1, ys);
      CoveredValueSum(all, k - 1, front);
      SumOverConcat(front, run, ValueAt(Fitted(all)));
      SumConcat(front, run);
    }
  }

  lemma {:induction false} FitKeepsPositives(samples: seq<Sample>)
    requires samples != []
    ensures FitOf(samples) != [] && ValueSum(samples, Fitted(FitOf(samples))) == Sum(samples) as real
  {
    hide Sum, SumOver, Fit, Covers;
    SortedFit(samples);
    WholeIsPrefix(FitOf(samples));
    CoveredValueSum(FitOf(samples), |FitOf(samples)|, Ordered(samples));
    SortSumOver(SampleLe, samples, ValueAt(Fitted(FitOf(samples))));
    OrderedSum(samples);
  }

  // ---- in terms of the stored parameters ----

  function Itself(): real -> real {
    (x: real) => x
  }

  function Total(values: seq<real>): real {
    SumOver(values, Itself())
  }

  function ScoresOf(samples: seq<Sample>): seq<real> {
    seq(|samples|, i requires 0 <= i < |samples| => samples[i].score)
  }

  lemma {:induction false} AppliedTotal(samples: seq<Sample>, blocks: seq<Block>)
    requires blocks != [] && Weighted(blocks)
    ensures Total(Apply(Parameters(blocks), ScoresOf(samples))) == ValueSum(samples, Fitted(blocks))
    decreases |samples|
  {
    hide Value, Probability, Pairs;
    if samples != [] {
      var front := samples[..|samples| - 1];
      AppliedTotal(front, blocks);
      ApplyIsValue(samples[|samples| - 1].score, blocks);
      var p := Parameters(blocks);
      var values := Apply(p, ScoresOf(samples));
      assert values[..|values| - 1] == Apply(p, ScoresOf(front));
    }
  }

  /** Applying a fit to its own scores gives values that add up to the number of positive labels;
      applying it to any scores keeps their order. */
  lemma {:induction false} AppliedFit(samples: seq<Sample>, scores: seq<real>)
    requires samples != []
    ensures FitOf(samples) != []
    ensures var p := Parameters(FitOf(samples));
      && Total(Apply(p, ScoresOf(samples))) == Sum(samples) as real
      && forall i, j :: 0 <= i < |scores| && 0 <= j < |scores| && scores[i] <= scores[j] ==>
           Apply(p, scores)[i] <= Apply(p, scores)[j]
  {
    hide Sum, ValueSum, Fit, Covers, Total, Value, Probability, Pairs;
    FitKeepsPositives(samples);
    SortedFit(samples);
    var blocks := FitOf(samples);
    AppliedTotal(samples, blocks);
    var p := Parameters(blocks);
    forall i, j | 0 <= i < |scores| && 0 <= j < |scores| && scores[i] <= scores[j]
      ensures Apply(p, scores)[i] <= Apply(p, scores)[j]
    {
      ApplyIsValue(scores[i], blocks);
      ApplyIsValue(scores[j], blocks);
      ValueIsMonotone(scores[i], scores[j], blocks);
    }
  }
}
