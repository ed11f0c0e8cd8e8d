/** What every isotonic fit looks like, ties included: consecutive runs of the ordered samples, with rising
    boundaries and means. */
module IsotonicStructure {
  import opened Sorting
  import opened Isotonic

  function Sum(ys: seq<Sample>): int {
    if ys == [] then 0 else Sum(ys[..|ys| - 1]) + ys[|ys| - 1].outcome
  }

  lemma {:induction false} SumConcat(a: seq<Sample>, b: seq<Sample>)
    ensures Sum(a + b) == Sum(a) + Sum(b)
  {
    if b == [] {
      assert a + b == a;
    } else {
      assert (a + b)[..|a + b| - 1] == a + b[..|b| - 1];
      SumConcat(a, b[..|b| - 1]);
    }
  }

  lemma {:induction false} SumBounds(ys: seq<Sample>)
    requires Binary(ys)
    ensures 0 <= Sum(ys) <= |ys|
  {
    if ys != [] {
      SumBounds(ys[..|ys| - 1]);
    }
  }

  /** The last block's run of samples, and everything before it. */
  function Tail(ys: seq<Sample>, w: int): seq<Sample>
    requires 0 <= w <= |ys|
  {
    ys[|ys| - w..]
  }

  function Front(ys: seq<Sample>, w: int): seq<Sample>
    requires 0 <= w <= |ys|
  {
    ys[..|ys| - w]
  }

  function Last(blocks: seq<Block>): Block
    requires blocks != []
  {
    blocks[|blocks| - 1]
  }

  function Init(blocks: seq<Block>): seq<Block>
    requires blocks != []
  {
    blocks[..|blocks| - 1]
  }

  /** The blocks are consecutive runs of `ys`; each has its run's label sum, ends at its run's last
      score, and starts above the block before it. */
  ghost predicate Covers(blocks: seq<Block>, ys: seq<Sample>)
    decreases |blocks|
  {
    if blocks == [] then ys == []
    else
      var b := Last(blocks);
      && 0 < b.weight <= |ys|
      && Sum(Tail(ys, b.weight)) == b.sum
      && ys[|ys| - 1].score == b.boundary
      && (|blocks| > 1 ==> blocks[|blocks| - 2].boundary < ys[|ys| - b.weight].score)
      && Covers(Init(blocks), Front(ys, b.weight))
  }

  ghost predicate MeansRise(blocks: seq<Block>)
    requires Weighted(blocks)
  {
    forall i, j :: 0 <= i < j < |blocks| ==> blocks[i].Mean() <= blocks[j].Mean()
  }

  ghost predicate BoundariesRise(blocks: seq<Block>) {
    forall i, j :: 0 <= i < j < |blocks| ==> blocks[i].boundary < blocks[j].boundary
  }

  // ---- pushing and pooling keep the runs ----

  lemma {:induction false} ExtendCovers(blocks: seq<Block>, ys: seq<Sample>, s: Sample)
    requires Weighted(blocks) && Covers(blocks, ys) && blocks != [] && Last(blocks).boundary == s.score
    ensures Covers(Push(blocks, s), ys + [s])
  {
    var all, w := ys + [s], Last(blocks).weight;
    var pushed := Push(blocks, s);
    assert Tail(all, w + 1) == Tail(ys, w) + [s];
    SumConcat(Tail(ys, w), [s]);
    assert Sum([s]) == s.outcome;
    assert Front(all, w + 1) == Front(ys, w);
    assert Init(pushed) == Init(blocks) && Last(pushed).weight == w + 1;
    assert all[|all| - (w + 1)] == ys[|ys| - w];
    assert |blocks| > 1 ==> pushed[|pushed| - 2] == blocks[|blocks| - 2];
  }

  lemma {:induction false} AppendCovers(blocks: seq<Block>, ys: seq<Sample>, s: Sample)
    requires Weighted(blocks) && Covers(blocks, ys) && (blocks != [] ==> Last(blocks).boundary < s.score)
    ensures Covers(Push(blocks, s), ys + [s])
  {
    var all, pushed := ys + [s], Push(blocks, s);
    assert pushed == blocks + [Block(s.score, s.outcome, 1)];
    assert Tail(all, 1) == [s] && Sum([s]) == s.outcome;
    assert Front(all, 1) == ys && Init(pushed) == blocks;
  }

  lemma {:induction false} PushCovers(blocks: seq<Block>, ys: seq<Sample>, s: Sample)
    requires Weighted(blocks) && Covers(blocks, ys)
    requires SortedBy(SampleLe, ys + [s])
    ensures Covers(Push(blocks, s), ys + [s])
  {
    if blocks != [] && Last(blocks).boundary == s.score {
      ExtendCovers(blocks, ys, s);
    } else {
      if blocks != [] {
        assert SampleLe((ys + [s])[|ys| - 1], (ys + [s])[|ys|]);
      }
      AppendCovers(blocks, ys, s);
    }
  }

  lemma {:induction false} PoolOnceCovers(blocks: seq<Block>, ys: seq<Sample>)
    requires Weighted(blocks) && |blocks| >= 2 && Covers(blocks, ys)
    ensures Covers(PoolOnce(blocks), ys)
  {
    var v := Last(blocks).weight;
    var left := Last(Init(blocks));
    assert left == blocks[|blocks| - 2];
    var u := left.weight;
    assert Tail(ys, u + v) == Tail(Front(ys, v), u) + Tail(ys, v);
    SumConcat(Tail(Front(ys, v), u), Tail(ys, v));
    assert Front(Front(ys, v), u) == Front(ys, u + v);
    assert Init(PoolOnce(blocks)) == Init(Init(blocks));
    if |blocks| > 2 {
      assert PoolOnce(blocks)[|blocks| - 3] == Init(blocks)[|Init(blocks)| - 2];
      assert ys[|ys| - (u + v)] == Front(ys, v)[|Front(ys, v)| - u];
    }
  }

  lemma {:induction false} PoolCovers(blocks: seq<Block>, ys: seq<Sample>)
    requires Weighted(blocks) && Covers(blocks, ys)
    ensures Covers(Pool(blocks), ys)
    decreases |blocks|
  {
    if Violates(blocks) {
      PoolOnceCovers(blocks, ys);
      PoolCovers(PoolOnce(blocks), ys);
    }
  }

  /** Pooling repairs the one place where the means may fall. */
  lemma {:induction false} PoolMeansRise(blocks: seq<Block>)
    requires Weighted(blocks) && (blocks != [] ==> MeansRise(Init(blocks)))
    ensures MeansRise(Pool(blocks))
    decreases |blocks|
  {
    if Violates(blocks) {
      assert Init(PoolOnce(blocks)) == Init(Init(blocks));
      PoolMeansRise(PoolOnce(blocks));
    } else if |blocks| >= 2 {
      assert Init(blocks)[|blocks| - 2] == blocks[|blocks| - 2];
      forall i, j | 0 <= i < j < |blocks| ensures blocks[i].Mean() <= blocks[j].Mean() {
        assert Init(blocks)[i] == blocks[i];
        if j < |blocks| - 1 {
          assert Init(blocks)[j] == blocks[j];
        }
      }
    }
  }

  lemma {:induction false} PushKeepsInit(blocks: seq<Block>, s: Sample)
    requires Weighted(blocks) && MeansRise(blocks)
    ensures Push(blocks, s) != [] && MeansRise(Init(Push(blocks, s)))
  {
    assert forall i :: 0 <= i < |Push(blocks, s)| - 1 ==> Init(Push(blocks, s))[i] == blocks[i];
  }

  lemma {:induction false} FitStructure(ys: seq<Sample>)
    requires SortedBy(SampleLe, ys)
    ensures Covers(Fit(ys), ys) && MeansRise(Fit(ys))
    decreases |ys|
  {
    hide Push, Pool, Block.Mean;
    if ys != [] {
      var front, s := ys[..|ys| - 1], ys[|ys| - 1];
      assert front + [s] == ys;
      FitStructure(front);
      var pushed := Push(Fit(front), s);
      PushCovers(Fit(front), front, s);
      PoolCovers(pushed, ys);
      PushKeepsInit(Fit(front), s);
      PoolMeansRise(pushed);
    }
  }

  // ---- what the runs imply ----

  lemma {:induction false} CoveredBoundaries(blocks: seq<Block>, ys: seq<Sample>)
    requires Covers(blocks, ys) && SortedBy(SampleLe, ys)
    ensures BoundariesRise(blocks)
    decreases |blocks|
  {
    if blocks != [] {
      var w := Last(blocks).weight;
      CoveredBoundaries(Init(blocks), Front(ys, w));
      assert SampleLe(ys[|ys| - w], ys[|ys| - 1]) || w == 1;
      forall i | 0 <= i < |blocks| - 1 ensures blocks[i].boundary < Last(blocks).boundary {
        assert Init(blocks)[i] == blocks[i];
        assert Init(blocks)[|blocks| - 2] == blocks[|blocks| - 2];
      }
      forall i, j | 0 <= i < j < |blocks| ensures blocks[i].boundary < blocks[j].boundary {
        if j < |blocks| - 1 {
          assert Init(blocks)[i] == blocks[i] && Init(blocks)[j] == blocks[j];
        }
      }
    }
  }

  lemma {:induction false} MeanBounds(b: Block)
    requires 0 <= b.sum <= b.weight && b.weight > 0
    ensures 0.0 <= b.Mean() <= 1.0
  {}

  lemma {:induction false} CoveredMeans(blocks: seq<Block>, ys: seq<Sample>)
    requires Weighted(blocks) && Covers(blocks, ys) && Binary(ys)
    ensures forall i :: 0 <= i < |blocks| ==> 0.0 <= blocks[i].Mean() <= 1.0
    decreases |blocks|
  {
    if blocks != [] {
      var w := Last(blocks).weight;
      CoveredMeans(Init(blocks), Front(ys, w));
      SumBounds(Tail(ys, w));
      MeanBounds(Last(blocks));
      forall i | 0 <= i < |blocks| ensures 0.0 <= blocks[i].Mean() <= 1.0 {
        if i < |blocks| - 1 {
          assert Init(blocks)[i] == blocks[i];
        }
      }
    }
  }

  function TotalWeight(blocks: seq<Block>): int {
    if blocks == [] then 0 else TotalWeight(Init(blocks)) + Last(blocks).weight
  }

  function TotalSum(blocks: seq<Block>): int {
    if blocks == [] then 0 else TotalSum(Init(blocks)) + Last(blocks).sum
  }

  lemma {:induction false} CoveredTotals(blocks: seq<Block>, ys: seq<Sample>)
    requires Covers(blocks, ys)
    ensures TotalWeight(blocks) == |ys| && TotalSum(blocks) == Sum(ys)
    decreases |blocks|
  {
    if blocks != [] {
      var w := Last(blocks).weight;
      var front, tail := Front(ys, w), Tail(ys, w);
      CoveredTotals(Init(blocks), front);
      SumConcat(front, tail);
      assert ys == front + tail;
    }
  }

  // ---- applying the fit ----

  /** The fitted value at a score, read off the blocks. */
  function Value(score: real, blocks: seq<Block>): real
    requires blocks != [] && Weighted(blocks)
  {
    if score <= blocks[0].boundary || |blocks| == 1 then blocks[0].Mean() else Value(score, blocks[1..])
  }

  lemma {:induction false} ApplyIsValue(score: real, blocks: seq<Block>)
    requires blocks != [] && Weighted(blocks)
    ensures Probability(score, Pairs(Parameters(blocks))) == Value(score, blocks)
    decreases |blocks|
  {
    hide Block.Mean;
    var pairs := Pairs(Parameters(blocks));
    assert pairs[0] == (blocks[0].boundary, blocks[0].Mean());
    if !(score <= blocks[0].boundary || |blocks| == 1) {
      var rest := Pairs(Parameters(blocks[1..]));
      forall i | 0 <= i < |rest| ensures pairs[1..][i] == rest[i] {
        assert blocks[1..][i] == blocks[i + 1];
      }
      assert pairs[1..] == rest;
      ApplyIsValue(score, blocks[1..]);
    }
  }

  /** The value at a score that falls into block `k`. */
  lemma {:induction false} ValueInBlock(score: real, blocks: seq<Block>, k: nat)
    requires Weighted(blocks) && BoundariesRise(blocks) && k < |blocks|
    requires score <= blocks[k].boundary && (k > 0 ==> blocks[k - 1].boundary < score)
    ensures Value(score, blocks) == blocks[k].Mean()
    decreases k
  {
    if k > 0 {
      assert blocks[0].boundary < score;
      ValueInBlock(score, blocks[1..], k - 1);
    }
  }

  lemma {:induction false} ValueIsSomeMean(score: real, blocks: seq<Block>)
    requires blocks != [] && Weighted(blocks)
    ensures exists k :: 0 <= k < |blocks| && Value(score, blocks) == blocks[k].Mean()
    decreases |blocks|
  {
    if score <= blocks[0].boundary || |blocks| == 1 {
      assert Value(score, blocks) == blocks[0].Mean();
    } else {
      ValueIsSomeMean(score, blocks[1..]);
      var k :| 0 <= k < |blocks[1..]| && Value(score, blocks[1..]) == blocks[1..][k].Mean();
      assert blocks[k + 1] == blocks[1..][k];
    }
  }

  /** Applying a fit is monotone in the score. */
  lemma {:induction false} ValueIsMonotone(a: real, b: real, blocks: seq<Block>)
    requires blocks != [] && Weighted(blocks) && MeansRise(blocks) && a <= b
    ensures Value(a, blocks) <= Value(b, blocks)
    decreases |blocks|
  {
    if !(b <= blocks[0].boundary || |blocks| == 1) {
      if a <= blocks[0].boundary {
        ValueIsSomeMean(b, blocks);
      } else {
        assert forall i :: 0 <= i < |blocks[1..]| ==> blocks[1..][i] == blocks[i + 1];
        ValueIsMonotone(a, b, blocks[1..]);
      }
    }
  }

  /** Every sample of the k-th run gets the k-th mean. */
  lemma {:induction false} RunValue(all: seq<Block>, k: nat, ys: seq<Sample>, i: nat)
    requires Weighted(all) && BoundariesRise(all) && k < |all|
    requires Covers(all[..k + 1], ys) && SortedBy(SampleLe, ys)
    requires |ys| - all[k].weight <= i < |ys|
    ensures Value(ys[i].score, all) == all[k].Mean()
  {
    var blocks := all[..k + 1];
    assert Last(blocks) == all[k];
    var first := |ys| - all[k].weight;
    assert first < i ==> SampleLe(ys[first], ys[i]);
    assert i < |ys| - 1 ==> SampleLe(ys[i], ys[|ys| - 1]);
    assert k > 0 ==> blocks[|blocks| - 2] == all[k - 1];
    ValueInBlock(ys[i].score, all, k);
  }

  // ---- the results on an arbitrary input ----

  function FitOf(samples: seq<Sample>): (blocks: seq<Block>)
    ensures Weighted(blocks)
  {
    Fit(Ordered(samples))
  }

  lemma {:induction false} InsertSum(x: Sample, s: seq<Sample>)
    ensures Sum(Insert(SampleLe, x, s)) == Sum(s) + x.outcome
    decreases |s|
  {
    assert Sum([x]) == x.outcome;
    if s == [] {
    } else if SampleLe(x, s[0]) {
      SumConcat([x], s);
    } else {
      InsertSum(x, s[1..]);
      SumConcat([s[0]], s[1..]);
      SumConcat([s[0]], Insert(SampleLe, x, s[1..]));
      assert [s[0]] + s[1..] == s;
    }
  }

  lemma {:induction false} OrderedSum(samples: seq<Sample>)
    ensures Sum(Ordered(samples)) == Sum(samples)
    decreases |samples|
  {
    if samples != [] {
      OrderedSum(samples[1..]);
      InsertSum(samples[0], Ordered(samples[1..]));
      SumConcat([samples[0]], samples[1..]);
      assert Sum([samples[0]]) == samples[0].outcome;
      assert [samples[0]] + samples[1..] == samples;
    }
  }

  lemma {:induction false} OrderedBinary(samples: seq<Sample>)
    requires Binary(samples)
    ensures Binary(Ordered(samples))
  {
    SortedMembers(SampleLe, samples);
    forall i | 0 <= i < |Ordered(samples)|
      ensures Ordered(samples)[i].outcome == 0 || Ordered(samples)[i].outcome == 1
    {
      assert Ordered(samples)[i] in samples;
    }
  }

  /** The shape of every fit: boundaries strictly increase, means are nondecreasing and between zero
      and one, and weights and label sums add up to those of the input. */
  lemma {:induction false} FitIsWellFormed(samples: seq<Sample>)
    requires Binary(samples)
    ensures var blocks := FitOf(samples);
      && BoundariesRise(blocks) && MeansRise(blocks)
      && (forall i :: 0 <= i < |blocks| ==> 0.0 <= blocks[i].Mean() <= 1.0)
      && TotalWeight(blocks) == |samples| && TotalSum(blocks) == Sum(samples)
      && (samples != [] ==> blocks != [])
  {
    var ys := Ordered(samples);
    SampleLeIsTotal();
    SortSorts(SampleLe, samples);
    FitStructure(ys);
    CoveredBoundaries(FitOf(samples), ys);
    OrderedBinary(samples);
    CoveredMeans(FitOf(samples), ys);
    CoveredTotals(FitOf(samples), ys);
    OrderedSum(samples);
  }

  lemma {:induction false} ParametersAreValid(blocks: seq<Block>)
    requires Weighted(blocks) && BoundariesRise(blocks) && blocks != []
    requires forall i :: 0 <= i < |blocks| ==> 0.0 <= blocks[i].Mean() <= 1.0
    ensures ValidParameters(Parameters(blocks)) <==> |blocks| <= 5000
  {
    hide Block.Mean;
    var p := Parameters(blocks);
    forall i | 0 <= i < |p| / 2 - 1 ensures p[2 * i] < p[2 * i + 2] {
      assert p[2 * i] == blocks[i].boundary && p[2 * i + 2] == blocks[i + 1].boundary;
    }
    forall i | 0 <= i < |p| / 2 ensures 0.0 <= p[2 * i + 1] <= 1.0 {
      assert p[2 * i + 1] == blocks[i].Mean();
    }
  }

  /** A parameter list is accepted exactly when it holds between one and 5000 pairs, with strictly rising boundaries
      and probabilities. */
  lemma {:induction false} AcceptedParameters(p: seq<real>)
    ensures ValidParameters(p) <==>
      && |p| % 2 == 0 && 1 <= |p| / 2 <= 5000
      && (forall i, j :: 0 <= i < j < |p| / 2 ==> p[2 * i] < p[2 * j])
      && (forall i :: 0 <= i < |p| / 2 ==> 0.0 <= p[2 * i + 1] <= 1.0)
  {
    if ValidParameters(p) {
      forall i, j | 0 <= i < j < |p| / 2 ensures p[2 * i] < p[2 * j] {
        BoundariesRiseOn(p, i, j);
      }
    } else if forall i, j :: 0 <= i < j < |p| / 2 ==> p[2 * i] < p[2 * j] {
      forall i | 0 <= i < |p| / 2 - 1 ensures p[2 * i] < p[2 * i + 2] {
        assert p[2 * i] < p[2 * (i + 1)];
      }
    }
  }

  lemma {:induction false} BoundariesRiseOn(p: seq<real>, i: int, j: int)
    requires 0 <= i < j < |p| / 2 && forall k :: 0 <= k < |p| / 2 - 1 ==> p[2 * k] < p[2 * k + 2]
    ensures p[2 * i] < p[2 * j]
    decreases j
  {
    assert p[2 * (j - 1)] < p[2 * (j - 1) + 2];
    if i < j - 1 {
      BoundariesRiseOn(p, i, j - 1);
    }
  }

  /** The model validation accepts a fit exactly when it fits into the parameter list: at most 5000
      blocks. */
  lemma {:induction false} FitIsValidUnlessTooLong(samples: seq<Sample>)
    requires Binary(samples) && samples != []
    ensures ValidParameters(Parameters(FitOf(samples))) <==> |FitOf(samples)| <= 5000
  {
    FitIsWellFormed(samples);
    ParametersAreValid(FitOf(samples));
  }

  lemma {:induction false} DistinctFit<T>(s: seq<T>, universe: set<T>)
    requires forall i, j :: 0 <= i < j < |s| ==> s[i] != s[j]
    requires forall i :: 0 <= i < |s| ==> s[i] in universe
    ensures |s| <= |universe|
    decreases |s|
  {
    if s != [] {
      var last := s[|s| - 1];
      DistinctFit(s[..|s| - 1], universe - {last});
    }
  }

  lemma {:induction false} BoundariesAreScores(blocks: seq<Block>, ys: seq<Sample>)
    requires Covers(blocks, ys)
    ensures forall k :: 0 <= k < |blocks| ==> exists i :: 0 <= i < |ys| && ys[i].score == blocks[k].boundary
    decreases |blocks|
  {
    if blocks != [] {
      var front := Front(ys, Last(blocks).weight);
      BoundariesAreScores(Init(blocks), front);
      forall k | 0 <= k < |blocks| ensures exists i :: 0 <= i < |ys| && ys[i].score == blocks[k].boundary {
        if k < |blocks| - 1 {
          assert Init(blocks)[k] == blocks[k];
          var i :| 0 <= i < |front| && front[i].score == blocks[k].boundary;
          assert ys[i] == front[i];
        } else {
          assert ys[|ys| - 1].score == blocks[k].boundary;
        }
      }
    }
  }

  function Scores(samples: seq<Sample>): set<real> {
    set s | s in samples :: s.score
  }

  /** A fit has at most as many blocks as there are different scores. */
  lemma {:induction false} FitIsNoLongerThanScores(samples: seq<Sample>)
    ensures |FitOf(samples)| <= |Scores(samples)|
  {
    hide Fit;
    var ys, blocks := Ordered(samples), FitOf(samples);
    SampleLeIsTotal();
    SortSorts(SampleLe, samples);
    SortedMembers(SampleLe, samples);
    FitStructure(ys);
    CoveredBoundaries(blocks, ys);
    BoundariesAreScores(blocks, ys);
    var boundaries := seq(|blocks|, k requires 0 <= k < |blocks| => blocks[k].boundary);
    forall k | 0 <= k < |boundaries| ensures boundaries[k] in Scores(samples) {
      var i :| 0 <= i < |ys| && ys[i].score == blocks[k].boundary;
      assert ys[i] in samples;
    }
    DistinctFit(boundaries, Scores(samples));
  }

  /** So up to 5000 different scores are always accepted. */
  lemma {:induction false} FewScoresAreValid(samples: seq<Sample>)
    requires Binary(samples) && samples != [] && |Scores(samples)| <= 5000
    ensures ValidParameters(Parameters(FitOf(samples)))
  {
    hide Fit, ValidParameters, Parameters;
    FitIsNoLongerThanScores(samples);
    FitIsValidUnlessTooLong(samples);
  }

  /** A sample with a new score and a label of at least the last block's mean stays on its own. */
  lemma {:induction false} PushedAlone(blocks: seq<Block>, s: Sample)
    requires Weighted(blocks)
    requires blocks != [] ==>
      Last(blocks).boundary < s.score && Last(blocks).weight == 1 && Last(blocks).sum <= s.outcome
    ensures Pool(Push(blocks, s)) == blocks + [Block(s.score, s.outcome, 1)]
  {
    var pushed := Push(blocks, s);
    assert pushed == blocks + [Block(s.score, s.outcome, 1)];
    if blocks != [] {
      assert pushed[|pushed| - 2] == Last(blocks);
      SingleMeans(Last(blocks), Last(pushed));
    }
  }

  lemma {:induction false} SingleMeans(a: Block, b: Block)
    requires a.weight == 1 && b.weight == 1 && a.sum <= b.sum
    ensures a.Mean() <= b.Mean()
  {}

  /** Strictly increasing scores with nondecreasing labels are never pooled. */
  lemma {:induction false} NothingPooled(ys: seq<Sample>)
    requires forall i, j :: 0 <= i < j < |ys| ==> ys[i].score < ys[j].score && ys[i].outcome <= ys[j].outcome
    ensures |Fit(ys)| == |ys|
    ensures forall i :: 0 <= i < |ys| ==> Fit(ys)[i] == Block(ys[i].score, ys[i].outcome, 1)
    decreases |ys|
  {
    hide Push, Pool, Block.Mean;
    if ys != [] {
      NothingPooled(ys[..|ys| - 1]);
      PushedAlone(Fit(ys[..|ys| - 1]), ys[|ys| - 1]);
    }
  }

  lemma {:induction false} SortedIsKept(ys: seq<Sample>)
    requires SortedBy(SampleLe, ys)
    ensures Ordered(ys) == ys
    decreases |ys|
  {
    if ys != [] {
      SortedIsKept(ys[1..]);
      assert |ys| > 1 ==> SampleLe(ys[0], ys[1]);
    }
  }

  /** The limit is real: 5001 different scores without a positive label make a fit that the model
      validation refuses. */
  lemma {:induction false} LongFitIsRefused()
    ensures exists samples :: Binary(samples) && |samples| == 5001 && !ValidParameters(Parameters(FitOf(samples)))
  {
    var samples := seq(5001, i requires 0 <= i < 5001 => Sample(i as real, 0));
    SortedIsKept(samples);
    NothingPooled(samples);
    FitIsValidUnlessTooLong(samples);
    assert Binary(samples) && |samples| == 5001 && !ValidParameters(Parameters(FitOf(samples)));
  }
}
