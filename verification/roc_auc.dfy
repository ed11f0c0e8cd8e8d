/** ROC-AUC by averaged ranks (modeling/model_card.py) against its definition by pairs: a positive above
    a negative counts one, a tie counts half. */
module RocAuc {
  import opened Wrappers
  import opened Sorting
  import opened Isotonic
  import opened Totals

  datatype MetricError = OneClassOnly

  // ---- the definition by pairs ----

  function Win(positive: real, negative: real): real {
    if positive > negative then 1.0 else if positive == negative then 0.5 else 0.0
  }

  /** What a positive of score `p` earns against one sample. */
  function WinOver(p: real): Sample -> real {
    (y: Sample) => if y.outcome == 0 then Win(p, y.score) else 0.0
  }

  /** What one sample earns against `ys`. */
  function Earned(ys: seq<Sample>): Sample -> real {
    (x: Sample) => if x.outcome == 1 then SumOver(ys, WinOver(x.score)) else 0.0
  }

  /** What the positives of `xs` earn against the negatives of `ys`. */
  function PairScore(xs: seq<Sample>, ys: seq<Sample>): real {
    SumOver(xs, Earned(ys))
  }

  function IsPositive(): Sample -> real {
    (x: Sample) => if x.outcome == 1 then 1.0 else 0.0
  }

  function IsNegative(): Sample -> real {
    (x: Sample) => if x.outcome == 0 then 1.0 else 0.0
  }

  function Positives(ys: seq<Sample>): real {
    SumOver(ys, IsPositive())
  }

  function Negatives(ys: seq<Sample>): real {
    SumOver(ys, IsNegative())
  }

  lemma {:induction false} ClassesAddUp(ys: seq<Sample>)
    requires Binary(ys)
    ensures Positives(ys) + Negatives(ys) == |ys| as real
    ensures 0.0 <= Positives(ys) && 0.0 <= Negatives(ys)
    decreases |ys|
  {
    if ys != [] {
      ClassesAddUp(ys[..|ys| - 1]);
    }
  }

  lemma {:induction false} EarnedConcat(xs: seq<Sample>, a: seq<Sample>, b: seq<Sample>)
    ensures PairScore(xs, a + b) == PairScore(xs, a) + PairScore(xs, b)
    decreases |xs|
  {
    if xs != [] {
      EarnedConcat(xs[..|xs| - 1], a, b);
      SumOverConcat(a, b, WinOver(xs[|xs| - 1].score));
    }
  }

  lemma {:induction false} PairScoreConcat(a: seq<Sample>, b: seq<Sample>)
    ensures PairScore(a + b, a + b) == PairScore(a, a) + PairScore(a, b) + PairScore(b, a) + PairScore(b, b)
  {
    hide SumOver;
    SumOverConcat(a, b, Earned(a + b));
    EarnedConcat(a, a, b);
    EarnedConcat(b, a, b);
  }

  /** The pairs do not depend on the order of the samples. */
  lemma {:induction false} PairScoreOfOrdered(samples: seq<Sample>)
    ensures PairScore(Ordered(samples), Ordered(samples)) == PairScore(samples, samples)
  {
    hide SumOver, Sort;
    var ys := Ordered(samples);
    SortSumOver(SampleLe, samples, Earned(ys));
    forall i | 0 <= i < |samples| ensures Earned(ys)(samples[i]) == Earned(samples)(samples[i]) {
      SortSumOver(SampleLe, samples, WinOver(samples[i].score));
    }
    SameSumOver(samples, Earned(ys), Earned(samples));
  }

  /** Every pair scores the same. */
  lemma {:induction false} UniformPairs(xs: seq<Sample>, ys: seq<Sample>, c: real)
    requires forall i, j :: 0 <= i < |xs| && 0 <= j < |ys| ==> Win(xs[i].score, ys[j].score) == c
    ensures PairScore(xs, ys) == c * Negatives(ys) * Positives(xs)
  {
    hide SumOver, Win;
    forall i | 0 <= i < |xs| ensures Earned(ys)(xs[i]) == (c * Negatives(ys)) * IsPositive()(xs[i]) {
      SumOverScaled(ys, WinOver(xs[i].score), IsNegative(), c);
    }
    SumOverScaled(xs, Earned(ys), IsPositive(), c * Negatives(ys));
  }

  // ---- ranks ----

  /** The sum of the first `n` ranks. */
  function Triangle(n: real): real {
    n * (n + 1.0) / 2.0
  }

  lemma {:induction false} RankArithmetic(p: real, n: real, a: real, b: real)
    ensures (p + n + (a + b + 1.0) / 2.0) * a + Triangle(p) == 1.0 * n * a + 0.5 * b * a + Triangle(p + a)
  {}

  /** `middle` is a group of equal scores above everything in `front`. */
  ghost predicate GroupAbove(front: seq<Sample>, middle: seq<Sample>) {
    && (forall i, j :: 0 <= i < |front| && 0 <= j < |middle| ==> front[i].score < middle[j].score)
    && (forall i, j :: 0 <= i < |middle| && 0 <= j < |middle| ==> middle[i].score == middle[j].score)
  }

  /** One group of ties: its average rank times its positives is what its positives earn, plus the growth
      of the triangle number. */
  lemma {:induction false} GroupStep(front: seq<Sample>, middle: seq<Sample>)
    requires Binary(front) && Binary(middle) && GroupAbove(front, middle)
    ensures Positives(front + middle) == Positives(front) + Positives(middle)
    ensures PairScore(front, front) + Triangle(Positives(front))
      + (|front| as real + (|middle| as real + 1.0) / 2.0) * Positives(middle)
      == PairScore(front + middle, front + middle) + Triangle(Positives(front + middle))
  {
    hide SumOver, Positives, Negatives, PairScore, Triangle;
    PairScoreConcat(front, middle);
    UniformPairs(front, middle, 0.0);
    UniformPairs(middle, front, 1.0);
    UniformPairs(middle, middle, 0.5);
    ClassesAddUp(front);
    ClassesAddUp(middle);
    PositivesConcat(front, middle);
    RankArithmetic(Positives(front), Negatives(front), Positives(middle), Negatives(middle));
  }

  lemma {:induction false} PositivesConcat(a: seq<Sample>, b: seq<Sample>)
    ensures Positives(a + b) == Positives(a) + Positives(b)
  {
    SumOverConcat(a, b, IsPositive());
  }

  method SumLabels(samples: seq<Sample>) returns (total: int)
    requires Binary(samples)
    ensures total as real == Positives(samples)
  {
    total := 0;
    for i := 0 to |samples|
      invariant total as real == Positives(samples[..i])
    {
      assert samples[..i + 1][..i] == samples[..i];
      total := total + samples[i].outcome;
    }
    assert samples[..|samples|] == samples;
  }

  /** Every score before `i` lies below every score from `i` on. */
  ghost predicate CutAt(ranked: seq<Sample>, i: int)
    requires 0 <= i <= |ranked|
  {
    forall x, y :: 0 <= x < i <= y < |ranked| ==> ranked[x].score < ranked[y].score
  }

  lemma {:induction false} NextGroup(ranked: seq<Sample>, i: int, e: int)
    requires SortedBy(SampleLe, ranked) && 0 <= i < e <= |ranked| && CutAt(ranked, i)
    requires forall j :: i <= j < e ==> ranked[j].score == ranked[i].score
    requires e < |ranked| ==> ranked[e].score != ranked[i].score
    ensures CutAt(ranked, e) && GroupAbove(ranked[..i], ranked[i..e])
  {
    forall x, y | 0 <= x < e <= y < |ranked| ensures ranked[x].score < ranked[y].score {
      assert SampleLe(ranked[i], ranked[e]);
      assert e < y ==> SampleLe(ranked[e], ranked[y]);
    }
  }

  /** `_roc_auc`: one pass over the ranked samples, with averaged ranks for ties. */
  method AveragedRanks(ranked: seq<Sample>) returns (rankSum: real)
    requires Binary(ranked) && SortedBy(SampleLe, ranked)
    ensures rankSum == PairScore(ranked, ranked) + Triangle(Positives(ranked))
  {
    hide SumOver, SortedBy;
    rankSum := 0.0;
    var index := 0;
    EmptyRanks();
    while index < |ranked|
      invariant 0 <= index <= |ranked| && CutAt(ranked, index)
      invariant rankSum == PairScore(ranked[..index], ranked[..index]) + Triangle(Positives(ranked[..index]))
    {
      var end := index + 1;
      while end < |ranked| && ranked[end].score == ranked[index].score
        invariant index < end <= |ranked|
        invariant forall j :: index <= j < end ==> ranked[j].score == ranked[index].score
      {
        end := end + 1;
      }
      var averageRank := (index + 1 + end) as real / 2.0;
      var positives := SumLabels(ranked[index..end]);
      NextGroup(ranked, index, end);
      GroupStep(ranked[..index], ranked[index..end]);
      assert ranked[..index] + ranked[index..end] == ranked[..end];
      assert averageRank == index as real + ((end - index) as real + 1.0) / 2.0;
      rankSum := rankSum + averageRank * positives as real;
      index := end;
    }
    assert ranked[..|ranked|] == ranked;
  }

  lemma {:induction false} EmptyRanks()
    ensures forall s: seq<Sample> :: s == [] ==> PairScore(s, s) + Triangle(Positives(s)) == 0.0
  {}

  /** The area: the earned share of all positive-negative pairs. */
  function Area(samples: seq<Sample>): real
    requires Positives(samples) != 0.0 && Negatives(samples) != 0.0
  {
    PairScore(samples, samples) / (Positives(samples) * Negatives(samples))
  }

  method RocAuc(labels: seq<int>, probabilities: seq<real>) returns (r: Result<real, MetricError>)
    requires |labels| == |probabilities| && Binary(Zip(probabilities, labels))
    ensures var s := Zip(probabilities, labels);
      r == if Positives(s) == 0.0 || Negatives(s) == 0.0 then Failure(OneClassOnly) else Success(Area(s))
  {
    hide SumOver, Sort;
    var samples := Zip(probabilities, labels);
    var positiveCount := SumLabels(samples);
    var negativeCount := |labels| - positiveCount;
    ClassesAddUp(samples);
    if positiveCount == 0 || negativeCount == 0 {
      return Failure(OneClassOnly);
    }
    var ranked := Ordered(samples);
    RankedSamples(samples);
    var rankSum := AveragedRanks(ranked);
    var p, n := positiveCount as real, negativeCount as real;
    FromRanks(rankSum, samples, p, n);
    return Success((rankSum - p * (p + 1.0) / 2.0) / (p * n));
  }

  lemma {:induction false} FromRanks(rankSum: real, samples: seq<Sample>, p: real, n: real)
    requires p == Positives(samples) && n == Negatives(samples) && p != 0.0 && n != 0.0
    requires rankSum == PairScore(samples, samples) + Triangle(p)
    ensures p * n != 0.0 && (rankSum - p * (p + 1.0) / 2.0) / (p * n) == Area(samples)
  {
    hide PairScore, Positives, Negatives;
    assert rankSum - p * (p + 1.0) / 2.0 == PairScore(samples, samples);
  }

  lemma {:induction false} RankedSamples(samples: seq<Sample>)
    requires Binary(samples)
    ensures Binary(Ordered(samples)) && SortedBy(SampleLe, Ordered(samples))
    ensures Positives(Ordered(samples)) == Positives(samples)
    ensures PairScore(Ordered(samples), Ordered(samples)) == PairScore(samples, samples)
  {
    hide SumOver, Sort;
    SampleLeIsTotal();
    SortSorts(SampleLe, samples);
    SortedMembers(SampleLe, samples);
    forall i | 0 <= i < |samples| ensures Ordered(samples)[i].outcome == 0 || Ordered(samples)[i].outcome == 1 {
      assert Ordered(samples)[i] in samples;
    }
    SortSumOver(SampleLe, samples, IsPositive());
    PairScoreOfOrdered(samples);
  }

  // ---- what the area means ----

  lemma {:induction false} PairScoreBounds(samples: seq<Sample>)
    requires Binary(samples)
    ensures 0.0 <= PairScore(samples, samples) <= Positives(samples) * Negatives(samples)
  {
    hide SumOver;
    var none, most := Scaled(0.0), Scaled(Negatives(samples));
    forall i | 0 <= i < |samples| ensures none(samples[i]) <= Earned(samples)(samples[i]) <= most(samples[i]) {
      EarnedBounds(samples, samples[i].score);
    }
    SumOverBounds(samples, none, Earned(samples));
    SumOverBounds(samples, Earned(samples), most);
    SumOverScaled(samples, none, IsPositive(), 0.0);
    SumOverScaled(samples, most, IsPositive(), Negatives(samples));
  }

  function Scaled(c: real): Sample -> real {
    (x: Sample) => if x.outcome == 1 then c else 0.0
  }

  lemma {:induction false} EarnedBounds(ys: seq<Sample>, p: real)
    ensures 0.0 <= SumOver(ys, WinOver(p)) <= Negatives(ys)
    decreases |ys|
  {
    if ys != [] {
      EarnedBounds(ys[..|ys| - 1], p);
    }
  }

  lemma {:induction false} QuotientBounds(x: real, d: real)
    requires 0.0 <= x <= d && d > 0.0
    ensures 0.0 <= x / d <= 1.0
  {}

  lemma {:induction false} PositiveProduct(a: real, b: real)
    requires a > 0.0 && b > 0.0
    ensures a * b > 0.0
  {}

  /** The area is a number between zero and one, for every input with both classes. */
  lemma {:induction false} AreaIsAProbability(samples: seq<Sample>)
    requires Binary(samples) && Positives(samples) != 0.0 && Negatives(samples) != 0.0
    ensures 0.0 <= Area(samples) <= 1.0
  {
    hide SumOver, PairScore, Positives, Negatives;
    ClassesAddUp(samples);
    PairScoreBounds(samples);
    PositiveProduct(Positives(samples), Negatives(samples));
    QuotientBounds(PairScore(samples, samples), Positives(samples) * Negatives(samples));
  }

  lemma {:induction false} WinsAll(ys: seq<Sample>, p: real)
    requires forall i :: 0 <= i < |ys| && ys[i].outcome == 0 ==> ys[i].score < p
    ensures SumOver(ys, WinOver(p)) == Negatives(ys)
    decreases |ys|
  {
    if ys != [] {
      WinsAll(ys[..|ys| - 1], p);
    }
  }

  /** Scores that put every positive above every negative have the area one. */
  lemma {:induction false} PerfectArea(samples: seq<Sample>)
    requires Binary(samples) && Positives(samples) != 0.0 && Negatives(samples) != 0.0
    requires forall x, y :: x in samples && y in samples && x.outcome == 1 && y.outcome == 0 ==> x.score > y.score
    ensures Area(samples) == 1.0
  {
    hide SumOver;
    var most := Scaled(Negatives(samples));
    forall i | 0 <= i < |samples| ensures Earned(samples)(samples[i]) == most(samples[i]) {
      if samples[i].outcome == 1 {
        WinsAll(samples, samples[i].score);
      }
    }
    SameSumOver(samples, Earned(samples), most);
    SumOverScaled(samples, most, IsPositive(), Negatives(samples));
    ClassesAddUp(samples);
    PerfectQuotient(samples);
  }

  lemma {:induction false} PerfectQuotient(samples: seq<Sample>)
    requires Positives(samples) > 0.0 && Negatives(samples) > 0.0
    requires PairScore(samples, samples) == Negatives(samples) * Positives(samples)
    ensures Area(samples) == 1.0
  {
    hide PairScore, Positives, Negatives;
    PositiveProduct(Positives(samples), Negatives(samples));
    WholeQuotient(Negatives(samples), Positives(samples));
  }

  lemma {:induction false} WholeQuotient(a: real, b: real)
    requires b * a > 0.0
    ensures a * b / (b * a) == 1.0
  {}

  /** A class is missing exactly when no sample has its label. */
  lemma {:induction false} MissingClass(samples: seq<Sample>)
    requires Binary(samples)
    ensures Positives(samples) == 0.0 <==> forall i :: 0 <= i < |samples| ==> samples[i].outcome != 1
    ensures Negatives(samples) == 0.0 <==> forall i :: 0 <= i < |samples| ==> samples[i].outcome != 0
    decreases |samples|
  {
    if samples != [] {
      var front := samples[..|samples| - 1];
      MissingClass(front);
      ClassesAddUp(front);
      assert forall i :: 0 <= i < |front| ==> front[i] == samples[i];
    }
  }

  // ---- turning the scores around ----

  function Mirrored(samples: seq<Sample>): seq<Sample> {
    seq(|samples|, i requires 0 <= i < |samples| => Sample(-samples[i].score, samples[i].outcome))
  }

  lemma {:induction false} MirroredSum(ys: seq<Sample>, g: Sample -> real, h: Sample -> real)
    requires forall i :: 0 <= i < |ys| ==> g(Mirrored(ys)[i]) == h(ys[i])
    ensures SumOver(Mirrored(ys), g) == SumOver(ys, h)
    decreases |ys|
  {
    if ys != [] {
      var front := ys[..|ys| - 1];
      assert Mirrored(ys)[..|ys| - 1] == Mirrored(front);
      assert forall i :: 0 <= i < |front| ==> Mirrored(front)[i] == Mirrored(ys)[i];
      MirroredSum(front, g, h);
    }
  }

  /** What one positive earns and what it earns with all scores negated make up the negatives. */
  lemma {:induction false} MirroredWins(ys: seq<Sample>, p: real)
    ensures SumOver(Mirrored(ys), WinOver(-p)) + SumOver(ys, WinOver(p)) == Negatives(ys)
    decreases |ys|
  {
    if ys != [] {
      var front := ys[..|ys| - 1];
      assert Mirrored(ys)[..|ys| - 1] == Mirrored(front);
      MirroredWins(front, p);
    }
  }

  lemma {:induction false} ComplementSum(xs: seq<Sample>, g: Sample -> real, h: Sample -> real, n: real)
    requires forall i :: 0 <= i < |xs| ==> g(xs[i]) + h(xs[i]) == Scaled(n)(xs[i])
    ensures SumOver(xs, g) + SumOver(xs, h) == n * Positives(xs)
    decreases |xs|
  {
    if xs != [] {
      ComplementSum(xs[..|xs| - 1], g, h, n);
      var front, last := Positives(xs[..|xs| - 1]), IsPositive()(xs[|xs| - 1]);
      assert n * (front + last) == n * front + n * last;
    }
  }

  function Turned(ys: seq<Sample>): Sample -> real {
    (x: Sample) => Earned(Mirrored(ys))(Sample(-x.score, x.outcome))
  }

  lemma {:induction false} MirroredEarnings(samples: seq<Sample>)
    ensures PairScore(Mirrored(samples), Mirrored(samples)) == SumOver(samples, Turned(samples))
  {
    hide SumOver, Win;
    MirroredSum(samples, Earned(Mirrored(samples)), Turned(samples));
  }

  lemma {:induction false} MirroredPairs(samples: seq<Sample>)
    ensures PairScore(Mirrored(samples), Mirrored(samples)) + PairScore(samples, samples)
      == Positives(samples) * Negatives(samples)
  {
    hide SumOver, Win;
    MirroredEarnings(samples);
    forall i | 0 <= i < |samples|
      ensures Turned(samples)(samples[i]) + Earned(samples)(samples[i]) == Scaled(Negatives(samples))(samples[i])
    {
      MirroredWins(samples, samples[i].score);
    }
    ComplementSum(samples, Turned(samples), Earned(samples), Negatives(samples));
  }

  lemma {:induction false} MirroredClasses(samples: seq<Sample>)
    ensures Positives(Mirrored(samples)) == Positives(samples) && Negatives(Mirrored(samples)) == Negatives(samples)
  {
    MirroredSum(samples, IsPositive(), IsPositive());
    MirroredSum(samples, IsNegative(), IsNegative());
  }

  lemma {:induction false} Quotient(x: real, d: real) returns (q: real)
    requires d != 0.0
    ensures q == x / d && q * d == x
  {
    q := x / d;
  }

  lemma {:induction false} Unit(x: real, y: real, a: real, b: real, d: real)
    requires x + y == d && a * d == x && b * d == y && d != 0.0
    ensures a + b == 1.0
  {
    assert (a + b - 1.0) * d == a * d + b * d - d;
  }

  lemma {:induction false} ComplementQuotient(x: real, y: real, d: real)
    requires x + y == d && d != 0.0
    ensures x / d == 1.0 - y / d
  {
    var a := Quotient(x, d);
    var b := Quotient(y, d);
    Unit(x, y, a, b, d);
  }

  /** Negating every score turns the area into its complement, so a model that ranks backwards is as far
      below one half as its reverse is above. */
  lemma {:induction false} MirroredArea(samples: seq<Sample>)
    requires Binary(samples) && Positives(samples) != 0.0 && Negatives(samples) != 0.0
    ensures Positives(Mirrored(samples)) != 0.0 && Negatives(Mirrored(samples)) != 0.0
    ensures Area(Mirrored(samples)) == 1.0 - Area(samples)
  {
    hide SumOver, PairScore, Positives, Negatives, Mirrored;
    ClassesAddUp(samples);
    MirroredClasses(samples);
    MirroredPairs(samples);
    var pairs := Positives(samples) * Negatives(samples);
    PositiveProduct(Positives(samples), Negatives(samples));
    assert Area(Mirrored(samples)) == PairScore(Mirrored(samples), Mirrored(samples)) / pairs;
    ComplementQuotient(PairScore(Mirrored(samples), Mirrored(samples)), PairScore(samples, samples), pairs);
  }

  /** Any reordering of the input has the same area: only the pairs matter. */
  lemma {:induction false} AreaIgnoresOrder(a: seq<Sample>, b: seq<Sample>)
    requires multiset(a) == multiset(b) && Positives(a) != 0.0 && Negatives(a) != 0.0
    ensures Positives(b) != 0.0 && Negatives(b) != 0.0 && Area(a) == Area(b)
  {
    hide SumOver;
    SameMultisetSum(a, b, IsPositive());
    SameMultisetSum(a, b, IsNegative());
    SameMultisetSum(a, b, Earned(a));
    forall i | 0 <= i < |b| ensures Earned(a)(b[i]) == Earned(b)(b[i]) {
      SameMultisetSum(a, b, WinOver(b[i].score));
    }
    SameSumOver(b, Earned(a), Earned(b));
  }
}
