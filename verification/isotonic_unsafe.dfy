/** A pooled block that hides a rise before which the labels stay below its mean can be beaten: lowering
    the fit a little up to that rise gains more than it costs. */
module IsotonicUnsafe {
  import opened Sorting
  import opened Isotonic
  import opened IsotonicStructure
  import opened IsotonicOptimality

  lemma {:induction false} Gain(eps: real, n: int, p: int, front: int, lack: real)
    requires 0 < n && lack > 0.0 && eps == lack / n as real && p + front <= n && 0 <= p && 0 <= front
    ensures eps > 0.0
    ensures Times(Square(eps), front) + Square(eps) * p as real - 2.0 * eps * lack < 0.0
  {
    assert lack == eps * n as real;
    var used := (front + p) as real;
    assert Times(Square(eps), front) + Square(eps) * p as real == eps * (eps * used);
    assert eps * used <= eps * n as real;
    assert eps * (eps * used) <= eps * lack;
    assert eps * lack > 0.0;
  }

  /** The lowered part of the run itself. */
  lemma {:induction false} LoweredPrefix(all: seq<Block>, k: nat, ys: seq<Sample>, p: nat,
                                         cut: real, c: real, eps: real)
    requires all != [] && Weighted(all) && BoundariesRise(all) && SortedBy(SampleLe, ys)
    requires UnsafeAt(all, k, ys, p) && cut == Tail(ys, all[k].weight)[p - 1].score
    requires eps > 0.0 && c == all[k].Mean() - eps
    ensures var head := Tail(ys, all[k].weight)[..p];
      SquaredError(head, Lowered(all, cut, c)) ==
      SquaredError(head, Fitted(all)) + Square(eps) * p as real
      - 2.0 * eps * Lack(Tail(ys, all[k].weight), p, all[k].Mean())
  {
    hide Value, Square, SquaredError, ConstantError, Sum, Block.Mean, MeanOf, Covers, Ample;
    var w, mu := all[k].weight, all[k].Mean();
    var run := Tail(ys, w);
    var head := run[..p];
    forall i | 0 <= i < |head| ensures Value(head[i].score, all) == mu && head[i].score <= cut {
      RunValue(all, k, ys, |ys| - w + i);
      assert i < p - 1 ==> SampleLe(run[i], run[p - 1]);
    }
    ConstantOnRun(head, Fitted(all), mu);
    ConstantOnRun(head, Lowered(all, cut, c), c);
    ConstantShift(head, mu, c);
    SquareOfDrop(c, mu, eps);
    hide Lack;
    HeadLack(run, p, mu);
    DropTimes(c, mu, eps, mu * p as real - Sum(head) as real);
  }

  lemma {:induction false} HeadLack(run: seq<Sample>, p: nat, m: real)
    requires p <= |run|
    ensures Lack(run, p, m) == m * p as real - Sum(run[..p]) as real
  {}

  lemma {:induction false} SquareOfDrop(c: real, mu: real, eps: real)
    requires c == mu - eps
    ensures Square(c - mu) == Square(eps)
  {
    assert c - mu == -eps;
  }

  lemma {:induction false} DropTimes(c: real, mu: real, eps: real, lack: real)
    requires c == mu - eps
    ensures 2.0 * (c - mu) * lack == -(2.0 * eps * lack)
  {
    assert c - mu == -eps;
  }

  /** Above the cut nothing changes. */
  lemma {:induction false} AboveTheCut(all: seq<Block>, cut: real, c: real, ys: seq<Sample>)
    requires all != [] && Weighted(all)
    requires forall i :: 0 <= i < |ys| ==> cut < ys[i].score
    ensures SquaredError(ys, Lowered(all, cut, c)) == SquaredError(ys, Fitted(all))
  {
    hide Value, SquaredError;
    SameError(ys, Lowered(all, cut, c), Fitted(all));
  }

  lemma {:induction false} ThreeParts(a: seq<Sample>, b: seq<Sample>, d: seq<Sample>, f: real -> real)
    ensures SquaredError(a + b + d, f) == SquaredError(a, f) + SquaredError(b, f) + SquaredError(d, f)
  {
    hide SquaredError;
    SquaredErrorConcat(a + b, d, f);
    SquaredErrorConcat(a, b, f);
  }

  /** The scores before and after the hidden boundary. */
  lemma {:induction false} CutSplits(full: seq<Sample>, before: nat, w: nat, p: nat)
    requires SortedBy(SampleLe, full) && 0 < p < w <= before <= |full|
    requires full[before - w + p - 1].score < full[before - w + p].score
    ensures var cut := full[before - w + p - 1].score;
      && (forall i :: 0 <= i < before - w + p ==> full[i].score <= cut)
      && (forall i :: before - w + p <= i < |full| ==> cut < full[i].score)
  {
    var e := before - w + p;
    forall i | 0 <= i < e ensures full[i].score <= full[e - 1].score {
      assert i < e - 1 ==> SampleLe(full[i], full[e - 1]);
    }
    forall i | e <= i < |full| ensures full[e - 1].score < full[i].score {
      assert e < i ==> SampleLe(full[e], full[i]);
    }
  }

  lemma {:induction false} LackIsPositive(run: seq<Sample>, p: nat, m: real)
    requires 0 < |run| && p <= |run| && m == MeanOf(run) && !Ample(run, p)
    ensures Lack(run, p, m) > 0.0
  {
    hide Ample, Lack, MeanOf;
    LackOfMean(run, p, m);
  }

  lemma {:induction false} EarlierMeans(all: seq<Block>, k: nat)
    requires Weighted(all) && MeansRise(all) && k < |all|
    ensures forall j :: 0 <= j < k ==> all[j].Mean() <= all[k].Mean()
  {}

  /** The pieces add up: cheap before the run, a gain in its head, nothing after. */
  lemma {:induction false} PiecesAddUp(front: seq<Sample>, head: seq<Sample>, rest: seq<Sample>,
                                       f: real -> real, g: real -> real, cost: real, gain: real)
    requires SquaredError(front, f) <= SquaredError(front, g) + cost
    requires SquaredError(head, f) == SquaredError(head, g) + gain
    requires SquaredError(rest, f) == SquaredError(rest, g)
    requires cost + gain < 0.0
    ensures SquaredError(front + head + rest, f) < SquaredError(front + head + rest, g)
  {
    hide SquaredError;
    ThreeParts(front, head, rest, f);
    ThreeParts(front, head, rest, g);
  }

  lemma {:induction false} SortedPrefix(ys: seq<Sample>, n: int)
    requires SortedBy(SampleLe, ys) && 0 <= n <= |ys|
    ensures SortedBy(SampleLe, ys[..n])
  {}

  lemma {:induction false} UnsafeParts(all: seq<Block>, full: seq<Sample>, k: nat, before: nat, p: nat)
    requires all != [] && Weighted(all) && BoundariesRise(all) && SortedBy(SampleLe, full)
    requires before <= |full| && UnsafeAt(all, k, full[..before], p)
    ensures var ys, w := full[..before], all[k].weight;
      && Covers(all[..k], Front(ys, w)) && SortedBy(SampleLe, Front(ys, w)) && SortedBy(SampleLe, ys)
      && full == Front(ys, w) + Tail(ys, w)[..p] + full[before - w + p..]
      && Tail(ys, w)[p - 1] == full[before - w + p - 1] && Tail(ys, w)[p] == full[before - w + p]
      && Lack(Tail(ys, w), p, all[k].Mean()) > 0.0
  {
    hide Sum, Ample, Block.Mean, MeanOf, Lack, SortedBy, BoundariesRise, Weighted, Covers;
    var ys, w := full[..before], all[k].weight;
    SortedPrefix(full, before);
    RunError(all, k, ys);
    assert all[..k + 1][..k] == all[..k];
    CoversStep(all, k + 1, ys);
    SortedPrefix(ys, before - w);
    LackIsPositive(Tail(ys, w), p, all[k].Mean());
  }

  /** A function that beats the fit where a rising boundary is hidden. */
  lemma {:induction false} UnsafeIsBeaten(all: seq<Block>, full: seq<Sample>, k: nat, before: nat, p: nat)
    returns (cut: real, c: real)
    requires all != [] && Weighted(all) && BoundariesRise(all) && MeansRise(all) && SortedBy(SampleLe, full)
    requires before <= |full| && UnsafeAt(all, k, full[..before], p)
    ensures SquaredError(full, Lowered(all, cut, c)) < SquaredError(full, Fitted(all))
  {
    hide Value, Square, SquaredError, ConstantError, Sum, Block.Mean, MeanOf, Ample, Times, Lowered, Lack, MeansRise;
    hide Covers, SortedBy, BoundariesRise;
    var ys, w := full[..before], all[k].weight;
    var run, front := Tail(ys, w), Front(ys, w);
    UnsafeParts(all, full, k, before, p);
    var mu, lack := all[k].Mean(), Lack(run, p, all[k].Mean());
    var eps := lack / before as real;
    Gain(eps, before, p, |front|, lack);
    cut, c := run[p - 1].score, mu - eps;
    CutSplits(full, before, w, p);
    EarlierMeans(all, k);
    LoweringCost(all, k, front, cut, c, eps);
    LoweredPrefix(all, k, ys, p, cut, c, eps);
    var rest := full[before - w + p..];
    AboveTheCut(all, cut, c, rest);
    PiecesAddUp(front, run[..p], rest, Lowered(all, cut, c), Fitted(all), Times(Square(eps), |front|),
                Square(eps) * p as real - 2.0 * eps * lack);
  }
}
