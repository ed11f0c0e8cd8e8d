/** Squared errors, and why no monotone function beats blocks that are pooled safely. */
module IsotonicOptimality {
  import opened Sorting
  import opened Isotonic
  import opened IsotonicStructure

  // ---- squared errors ----

  function Square(x: real): real {
    x * x
  }

  /** The squared error of a function of the score. */
  function SquaredError(ys: seq<Sample>, f: real -> real): real {
    if ys == [] then 0.0
    else SquaredError(ys[..|ys| - 1], f) + Square(f(ys[|ys| - 1].score) - ys[|ys| - 1].outcome as real)
  }

  /** The squared error of a constant. */
  function ConstantError(ys: seq<Sample>, m: real): real {
    if ys == [] then 0.0
    else ConstantError(ys[..|ys| - 1], m) + Square(m - ys[|ys| - 1].outcome as real)
  }

  lemma {:induction false} SquaredErrorConcat(a: seq<Sample>, b: seq<Sample>, f: real -> real)
    ensures SquaredError(a + b, f) == SquaredError(a, f) + SquaredError(b, f)
    decreases |b|
  {
    if b == [] {
      assert a + b == a;
    } else {
      assert (a + b)[..|a + b| - 1] == a + b[..|b| - 1];
      SquaredErrorConcat(a, b[..|b| - 1], f);
    }
  }

  lemma {:induction false} ConstantOnRun(ys: seq<Sample>, f: real -> real, m: real)
    requires forall i :: 0 <= i < |ys| ==> f(ys[i].score) == m
    ensures SquaredError(ys, f) == ConstantError(ys, m)
    decreases |ys|
  {
    if ys != [] {
      ConstantOnRun(ys[..|ys| - 1], f, m);
    }
  }

  lemma {:induction false} SameError(ys: seq<Sample>, f: real -> real, g: real -> real)
    requires forall i :: 0 <= i < |ys| ==> f(ys[i].score) == g(ys[i].score)
    ensures SquaredError(ys, f) == SquaredError(ys, g)
    decreases |ys|
  {
    if ys != [] {
      SameError(ys[..|ys| - 1], f, g);
    }
  }

  lemma {:induction false} ShiftOne(m: real, c: real, y: real)
    ensures Square(c - y) == Square(m - y) + Square(c - m) + 2.0 * (c - m) * (m - y)
  {}

  /** Moving a constant from `m` to `c`. */
  lemma {:induction false} ConstantShift(ys: seq<Sample>, m: real, c: real)
    ensures ConstantError(ys, c) ==
      ConstantError(ys, m) + Square(c - m) * |ys| as real + 2.0 * (c - m) * (m * |ys| as real - Sum(ys) as real)
    decreases |ys|
  {
    hide Square;
    if ys != [] {
      var y := ys[|ys| - 1].outcome as real;
      var front := ys[..|ys| - 1];
      ConstantShift(front, m, c);
      ShiftOne(m, c, y);
      Regroup(Square(c - m), 2.0 * (c - m), m, y, |front| as real, Sum(front) as real);
      assert |ys| as real == |front| as real + 1.0 && Sum(ys) as real == Sum(front) as real + y;
    }
  }

  lemma {:induction false} Regroup(d2: real, d: real, m: real, y: real, n: real, sum: real)
    ensures d2 * n + d * (m * n - sum) + d2 + d * (m - y) == d2 * (n + 1.0) + d * (m * (n + 1.0) - (sum + y))
  {}

  function MeanOf(run: seq<Sample>): real
    requires run != []
  {
    Sum(run) as real / |run| as real
  }

  lemma {:induction false} BlockMean(b: Block, run: seq<Sample>)
    requires b.weight == |run| && b.sum == Sum(run) && run != []
    ensures b.Mean() == MeanOf(run)
  {
    hide Sum;
  }

  /** The fit as a function of the score. */
  function Fitted(all: seq<Block>): real -> real
    requires all != [] && Weighted(all)
  {
    s => Value(s, all)
  }

  // ---- the criterion ----

  ghost predicate MonotoneOn(ys: seq<Sample>, f: real -> real) {
    forall i, j :: 0 <= i < |ys| && 0 <= j < |ys| && ys[i].score <= ys[j].score ==> f(ys[i].score) <= f(ys[j].score)
  }

  /** The first `p` samples have at least the mean of the run. */
  ghost predicate Ample(run: seq<Sample>, p: int)
    requires 0 <= p <= |run|
  {
    Sum(run[..p]) * |run| >= p * Sum(run)
  }

  /** Wherever the score rises inside a run, the samples up to there have at least the run's mean. */
  ghost predicate SafeRun(run: seq<Sample>) {
    forall p :: 0 < p < |run| && run[p - 1].score < run[p].score ==> Ample(run, p)
  }

  ghost predicate SafelyPooled(blocks: seq<Block>, ys: seq<Sample>)
    requires Covers(blocks, ys)
    decreases |blocks|
  {
    blocks != [] ==>
      SafeRun(Tail(ys, Last(blocks).weight)) && SafelyPooled(Init(blocks), Front(ys, Last(blocks).weight))
  }

  /** The first `k` blocks are the first `k - 1` and one more run. */
  lemma {:induction false} CoversStep(all: seq<Block>, k: nat, ys: seq<Sample>)
    requires 0 < k <= |all| && Covers(all[..k], ys)
    ensures var w := all[k - 1].weight;
      && 0 < w <= |ys|
      && ys == Front(ys, w) + Tail(ys, w)
      && Covers(all[..k - 1], Front(ys, w))
  {
    hide Sum, Front, Tail;
    var blocks := all[..k];
    assert Last(blocks) == all[k - 1] && Init(blocks) == all[..k - 1];
    assert Covers(Init(blocks), Front(ys, Last(blocks).weight));
    PartsMakeWhole(ys, all[k - 1].weight);
  }

  lemma {:induction false} PartsMakeWhole(ys: seq<Sample>, w: int)
    requires 0 <= w <= |ys|
    ensures ys == Front(ys, w) + Tail(ys, w)
  {}

  lemma {:induction false} SafeStep(all: seq<Block>, k: nat, ys: seq<Sample>)
    requires 0 < k <= |all| && Covers(all[..k], ys)
    ensures var w := all[k - 1].weight;
      && 0 < w <= |ys| && Covers(all[..k - 1], Front(ys, w))
      && (SafelyPooled(all[..k], ys) <==> SafeRun(Tail(ys, w)) && SafelyPooled(all[..k - 1], Front(ys, w)))
  {
    CoversStep(all, k, ys);
    hide Covers, Sum, SafeRun, Front, Tail;
    assert Last(all[..k]) == all[k - 1] && Init(all[..k]) == all[..k - 1];
  }

  lemma {:induction false} TailLength(ys: seq<Sample>, w: int)
    requires 0 <= w <= |ys|
    ensures |Tail(ys, w)| == w && |Front(ys, w)| == |ys| - w
  {}

  lemma {:induction false} PartsAreSorted(ys: seq<Sample>, w: int)
    requires SortedBy(SampleLe, ys) && 0 <= w <= |ys|
    ensures SortedBy(SampleLe, Front(ys, w)) && SortedBy(SampleLe, Tail(ys, w))
  {}

  lemma {:induction false} PartsAreMonotone(ys: seq<Sample>, w: int, f: real -> real)
    requires MonotoneOn(ys, f) && 0 <= w <= |ys|
    ensures MonotoneOn(Front(ys, w), f) && MonotoneOn(Tail(ys, w), f)
  {}

  // ---- safe pools are optimal ----

  /** What the first `p` samples lack of the constant `m`. */
  function Lack(run: seq<Sample>, p: nat, m: real): real
    requires p <= |run|
  {
    m * p as real - Sum(run[..p]) as real
  }

  /** The first-order gain of `x` over `m` when `m` lacks so much. */
  function Cross(x: real, m: real, lack: real): real {
    2.0 * (x - m) * lack
  }

  lemma {:induction false} AbelStep(x0: real, x1: real, m: real, y: real, lack0: real, lack1: real)
    requires x0 <= x1 && lack1 == lack0 + (m - y)
    requires lack0 <= 0.0 || x0 == x1
    ensures Cross(x0, m, lack0) + Square(x1 - y) - Square(m - y) >= Cross(x1, m, lack1)
  {
    assert Square(x1 - y) - Square(m - y) == Square(x1 - m) + 2.0 * (x1 - m) * (m - y);
    assert (x1 - m) * lack1 == (x1 - m) * lack0 + (x1 - m) * (m - y);
    assert (x0 - m) * lack0 - (x1 - m) * lack0 == (x0 - x1) * lack0;
    assert (x0 - x1) * lack0 >= 0.0;
    assert Square(x1 - m) >= 0.0;
  }

  lemma {:induction false} CrossOfNothing(x: real, m: real)
    ensures Cross(x, m, 0.0) == 0.0
  {}

  lemma {:induction false} LackGrows(run: seq<Sample>, p: nat, m: real)
    requires 0 < p <= |run|
    ensures Lack(run, p, m) == Lack(run, p - 1, m) + (m - run[p - 1].outcome as real)
    ensures Lack(run, 0, m) == 0.0
  {
    assert run[..p][..p - 1] == run[..p - 1];
    assert m * p as real == m * (p - 1) as real + m;
  }

  lemma {:induction false} AbelSum(run: seq<Sample>, p: nat, m: real, f: real -> real)
    requires 0 < p <= |run| && SortedBy(SampleLe, run) && MonotoneOn(run, f)
    requires forall q :: 0 < q < |run| && run[q - 1].score < run[q].score ==> Lack(run, q, m) <= 0.0
    ensures SquaredError(run[..p], f) - ConstantError(run[..p], m) >= Cross(f(run[p - 1].score), m, Lack(run, p, m))
    decreases p
  {
    hide Square, Lack, Cross;
    var y := run[p - 1].outcome as real;
    var x1 := f(run[p - 1].score);
    assert run[..p][..p - 1] == run[..p - 1];
    LackGrows(run, p, m);
    if p == 1 {
      assert run[..0] == [];
      AbelStep(x1, x1, m, y, 0.0, Lack(run, 1, m));
      assert Cross(x1, m, 0.0) == 0.0 by {
        CrossOfNothing(x1, m);
      }
    } else {
      AbelSum(run, p - 1, m, f);
      assert SampleLe(run[p - 2], run[p - 1]);
      assert run[p - 2].score == run[p - 1].score || Lack(run, p - 1, m) <= 0.0;
      AbelStep(f(run[p - 2].score), x1, m, y, Lack(run, p - 1, m), Lack(run, p, m));
    }
  }

  lemma {:induction false} CrossMultiply(total: int, n: int, part: int, p: int, m: real)
    requires n > 0 && m == total as real / n as real
    ensures m * p as real - part as real <= 0.0 <==> part * n >= p * total
    ensures m * n as real == total as real
  {
    var lack := m * p as real - part as real;
    assert lack * n as real == (p * total - part * n) as real;
    assert lack <= 0.0 <==> lack * n as real <= 0.0;
  }

  lemma {:induction false} LackOfMean(run: seq<Sample>, p: nat, m: real)
    requires 0 < |run| && p <= |run| && m == MeanOf(run)
    ensures Lack(run, p, m) <= 0.0 <==> Ample(run, p)
    ensures Lack(run, |run|, m) == 0.0
  {
    hide Sum;
    CrossMultiply(Sum(run), |run|, Sum(run[..p]), p, m);
    assert run[..|run|] == run;
  }

  /** On a safe run no monotone function beats the mean. */
  lemma {:induction false} SafeRunIsOptimal(run: seq<Sample>, f: real -> real)
    requires run != [] && SortedBy(SampleLe, run) && MonotoneOn(run, f) && SafeRun(run)
    ensures SquaredError(run, f) >= ConstantError(run, MeanOf(run))
  {
    hide Sum, SquaredError, ConstantError, Square, Lack, MeanOf;
    var m := MeanOf(run);
    forall q | 0 < q < |run| && run[q - 1].score < run[q].score ensures Lack(run, q, m) <= 0.0 {
      LackOfMean(run, q, m);
    }
    LackOfMean(run, |run|, m);
    AbelSum(run, |run|, m, f);
    assert run[..|run|] == run;
  }

  lemma {:induction false} AddErrors(a: seq<Sample>, b: seq<Sample>, f: real -> real, g: real -> real)
    requires SquaredError(a, f) >= SquaredError(a, g) && SquaredError(b, f) >= SquaredError(b, g)
    ensures SquaredError(a + b, f) >= SquaredError(a + b, g)
  {
    hide SquaredError;
    SquaredErrorConcat(a, b, f);
    SquaredErrorConcat(a, b, g);
  }

  /** The error of the fit on the samples of its first `k` blocks against that of any monotone function. */
  lemma {:induction false} SafePoolsAreOptimal(all: seq<Block>, k: nat, ys: seq<Sample>, f: real -> real)
    requires all != [] && Weighted(all) && BoundariesRise(all) && k <= |all|
    requires Covers(all[..k], ys) && SortedBy(SampleLe, ys) && MonotoneOn(ys, f)
    requires SafelyPooled(all[..k], ys)
    ensures SquaredError(ys, f) >= SquaredError(ys, Fitted(all))
    decreases k
  {
    hide Block.Mean, MeanOf, Square, Sum, SquaredError, ConstantError, Value;
    hide SafelyPooled, SafeRun, MonotoneOn, Front, Tail, BoundariesRise;
    if k == 0 {
      SameError(ys, f, Fitted(all));
    } else {
      CoversStep(all, k, ys);
      SafeStep(all, k, ys);
      var w := all[k - 1].weight;
      var front, run := Front(ys, w), Tail(ys, w);
      PartsAreSorted(ys, w);
      PartsAreMonotone(ys, w, f);
      RunError(all, k - 1, ys);
      TailLength(ys, w);
      hide Covers, SortedBy;
      SafePoolsAreOptimal(all, k - 1, front, f);
      SafeRunIsOptimal(run, f);
      AddErrors(front, run, f, Fitted(all));
    }
  }

  /** On its k-th run the fit is the mean. */
  lemma {:induction false} RunError(all: seq<Block>, k: nat, ys: seq<Sample>)
    requires all != [] && Weighted(all) && BoundariesRise(all) && k < |all|
    requires Covers(all[..k + 1], ys) && SortedBy(SampleLe, ys)
    ensures 0 < all[k].weight <= |ys|
    ensures SquaredError(Tail(ys, all[k].weight), Fitted(all)) == ConstantError(Tail(ys, all[k].weight), all[k].Mean())
    ensures all[k].Mean() == MeanOf(Tail(ys, all[k].weight))
  {
    hide Square, Sum, ConstantError, SquaredError, Block.Mean, MeanOf, Value;
    assert Last(all[..k + 1]) == all[k];
    BlockMean(all[k], Tail(ys, all[k].weight));
    var run := Tail(ys, all[k].weight);
    forall i | 0 <= i < |run| ensures Value(run[i].score, all) == all[k].Mean() {
      RunValue(all, k, ys, |ys| - all[k].weight + i);
    }
    ConstantOnRun(run, Fitted(all), all[k].Mean());
  }

  // ---- an unsafe pool is not optimal ----

  /** A run that hides a rise before which its labels stay below its mean, with the samples before it. */
  ghost predicate UnsafeAt(all: seq<Block>, k: nat, ys: seq<Sample>, p: nat) {
    && k < |all| && Covers(all[..k + 1], ys) && 0 < p < all[k].weight <= |ys|
    && var run := Tail(ys, all[k].weight);
       run[p - 1].score < run[p].score && !Ample(run, p)
  }

  lemma {:induction false} UnsafeIn(run: seq<Sample>) returns (p: nat)
    requires !SafeRun(run)
    ensures 0 < p < |run| && run[p - 1].score < run[p].score && !Ample(run, p)
  {
    p :| 0 < p < |run| && run[p - 1].score < run[p].score && !Ample(run, p);
  }

  lemma {:induction false} UnsafeLast(all: seq<Block>, n: nat, ys: seq<Sample>) returns (p: nat)
    requires 0 < n <= |all| && Covers(all[..n], ys) && all[n - 1].weight <= |ys| && 0 <= all[n - 1].weight
    requires !SafeRun(Tail(ys, all[n - 1].weight))
    ensures UnsafeAt(all, n - 1, ys, p)
  {
    hide Sum, Covers, SafeRun, Ample;
    p := UnsafeIn(Tail(ys, all[n - 1].weight));
  }

  lemma {:induction false} FindUnsafe(all: seq<Block>, n: nat, ys: seq<Sample>) returns (k: nat, before: nat, p: nat)
    requires n <= |all| && Covers(all[..n], ys) && !SafelyPooled(all[..n], ys)
    ensures k < n && before <= |ys| && UnsafeAt(all, k, ys[..before], p)
    decreases n
  {
    SafeStep(all, n, ys);
    hide Sum, SafelyPooled, Covers, SafeRun, UnsafeAt;
    var w := all[n - 1].weight;
    if SafeRun(Tail(ys, w)) {
      k, before, p := FindUnsafe(all, n - 1, Front(ys, w));
      assert Front(ys, w)[..before] == ys[..before];
    } else {
      p := UnsafeLast(all, n, ys);
      k, before := n - 1, |ys|;
      assert ys[..before] == ys;
    }
  }

  /** The fit, lowered to at most `c` up to the score `cut`. */
  function Lowered(all: seq<Block>, cut: real, c: real): real -> real
    requires all != [] && Weighted(all)
  {
    s => if s <= cut && c < Value(s, all) then c else Value(s, all)
  }

  lemma {:induction false} LoweredIsMonotone(all: seq<Block>, cut: real, c: real, samples: seq<Sample>)
    requires all != [] && Weighted(all) && MeansRise(all)
    ensures MonotoneOn(samples, Lowered(all, cut, c))
  {
    hide Value;
    forall i, j | 0 <= i < |samples| && 0 <= j < |samples| && samples[i].score <= samples[j].score
      ensures Lowered(all, cut, c)(samples[i].score) <= Lowered(all, cut, c)(samples[j].score)
    {
      ValueIsMonotone(samples[i].score, samples[j].score, all);
    }
  }

  lemma {:induction false} SquareBound(mu: real, c: real, eps: real)
    requires c < mu <= c + eps
    ensures Square(c - mu) <= Square(eps)
  {
    assert (mu - c) * (mu - c) <= eps * (mu - c) <= eps * eps;
  }

  function Times(e: real, n: int): real {
    e * n as real
  }

  /** Costs per sample add up. */
  lemma {:induction false} AddCosts(a: seq<Sample>, b: seq<Sample>, f: real -> real, g: real -> real, e: real)
    requires SquaredError(a, f) <= SquaredError(a, g) + Times(e, |a|)
    requires SquaredError(b, f) <= SquaredError(b, g) + Times(e, |b|)
    ensures SquaredError(a + b, f) <= SquaredError(a + b, g) + Times(e, |a + b|)
  {
    hide SquaredError, Times;
    SquaredErrorConcat(a, b, f);
    SquaredErrorConcat(a, b, g);
    Distribute(e, |a|, |b|);
  }

  /** Before the unsafe run the lowering costs little: at most the square of its depth a sample. */
  lemma {:induction false} LoweringCost(all: seq<Block>, k: nat, ys: seq<Sample>, cut: real, c: real, eps: real)
    requires all != [] && Weighted(all) && BoundariesRise(all) && k <= |all|
    requires Covers(all[..k], ys) && SortedBy(SampleLe, ys) && eps >= 0.0
    requires forall j :: 0 <= j < k ==> all[j].Mean() <= c + eps
    requires forall i :: 0 <= i < |ys| ==> ys[i].score <= cut
    ensures SquaredError(ys, Lowered(all, cut, c)) <= SquaredError(ys, Fitted(all)) + Times(Square(eps), |ys|)
    decreases k
  {
    hide Value, Square, Times, SquaredError, ConstantError, Sum, Block.Mean, Lowered;
    hide BoundariesRise, Covers, SortedBy, Front, Tail, Weighted;
    var f, g := Lowered(all, cut, c), Fitted(all);
    if k == 0 {
      assert Covers(all[..k], ys) ==> ys == [] by {
        NoBlocks(all, ys);
      }
      SameError(ys, f, g);
      NonNegative(eps, 0);
    } else {
      CoversStep(all, k, ys);
      var w := all[k - 1].weight;
      var front, run := Front(ys, w), Tail(ys, w);
      PartsAreSorted(ys, w);
      TailLength(ys, w);
      assert forall i :: 0 <= i < |front| ==> front[i] == ys[i];
      LoweringCost(all, k - 1, front, cut, c, eps);
      RunLowered(all, k - 1, ys, cut, c, eps);
      AddCosts(front, run, f, g, Square(eps));
    }
  }

  lemma {:induction false} NoBlocks(all: seq<Block>, ys: seq<Sample>)
    requires Covers(all[..0], ys)
    ensures ys == []
  {}

  lemma {:induction false} Distribute(e: real, a: int, b: int)
    ensures Times(e, a + b) == Times(e, a) + Times(e, b)
  {}

  lemma {:induction false} RunLowered(all: seq<Block>, k: nat, ys: seq<Sample>, cut: real, c: real, eps: real)
    requires all != [] && Weighted(all) && BoundariesRise(all) && k < |all| && eps >= 0.0
    requires Covers(all[..k + 1], ys) && SortedBy(SampleLe, ys) && all[k].Mean() <= c + eps
    requires forall i :: 0 <= i < |ys| ==> ys[i].score <= cut
    ensures 0 < all[k].weight <= |ys|
    ensures var run := Tail(ys, all[k].weight);
      SquaredError(run, Lowered(all, cut, c)) <= SquaredError(run, Fitted(all)) + Times(Square(eps), all[k].weight)
  {
    hide Value, Square, Times, SquaredError, ConstantError, Sum, Block.Mean, MeanOf;
    var mu, w := all[k].Mean(), all[k].weight;
    RunError(all, k, ys);
    var run := Tail(ys, w);
    forall i | 0 <= i < |run| ensures Value(run[i].score, all) == mu {
      RunValue(all, k, ys, |ys| - w + i);
    }
    if c < mu {
      ConstantOnRun(run, Lowered(all, cut, c), c);
      MeanShift(run, mu, c);
      SquareBound(mu, c, eps);
      ScaleBound(Square(c - mu), Square(eps), w);
    } else {
      SameError(run, Lowered(all, cut, c), Fitted(all));
      NonNegative(eps, w);
    }
  }

  lemma {:induction false} MeanLacksNothing(run: seq<Sample>, m: real)
    requires run != [] && m == MeanOf(run)
    ensures m * |run| as real - Sum(run) as real == 0.0
  {
    hide Sum;
    CrossMultiply(Sum(run), |run|, 0, 0, m);
  }

  /** Moving the mean to `c` costs the square of the distance for every sample. */
  lemma {:induction false} MeanShift(run: seq<Sample>, m: real, c: real)
    requires run != [] && m == MeanOf(run)
    ensures ConstantError(run, c) == ConstantError(run, m) + Times(Square(c - m), |run|)
  {
    hide Sum, Square, ConstantError, MeanOf;
    ConstantShift(run, m, c);
    MeanLacksNothing(run, m);
  }

  lemma {:induction false} ScaleBound(a: real, b: real, w: int)
    requires a <= b && w >= 0
    ensures Times(a, w) <= Times(b, w)
  {}

  lemma {:induction false} NonNegative(eps: real, w: int)
    requires w >= 0
    ensures 0.0 <= Times(Square(eps), w)
  {
    assert Square(eps) >= 0.0;
  }
}
