/** Isotonic calibration by pooling adjacent violators (modeling/calibration.py). Scores and means are
    exact reals; label sums and weights are integers. */
module Isotonic {
  import opened Wrappers
  import opened Sorting

  datatype Sample = Sample(score: real, outcome: int)

  /** A block of pooled samples: its largest score, the sum of its labels, and how many there are. */
  datatype Block = Block(boundary: real, sum: int, weight: int) {
    function Mean(): real
      requires weight != 0
    {
      sum as real / weight as real
    }
  }

  /** Labels are zero or one. */
  ghost predicate Binary(ys: seq<Sample>) {
    forall i :: 0 <= i < |ys| ==> ys[i].outcome == 0 || ys[i].outcome == 1
  }

  datatype CalibrationError = VectorMismatch | BadParameters

  const MAX_PARAMETERS := 10_000

  // ---- the order of `sorted(zip(scores, labels))` ----

  predicate SampleLe(a: Sample, b: Sample) {
    a.score < b.score || (a.score == b.score && a.outcome <= b.outcome)
  }

  lemma {:induction false} SampleLeIsTotal()
    ensures TotalPreorder(SampleLe)
  {}

  function Ordered(samples: seq<Sample>): seq<Sample> {
    Sort(SampleLe, samples)
  }

  // ---- one sample pushed, then pooled ----

  predicate Weighted(blocks: seq<Block>) {
    forall i :: 0 <= i < |blocks| ==> blocks[i].weight > 0
  }

  function Push(blocks: seq<Block>, s: Sample): (r: seq<Block>)
    requires Weighted(blocks)
    ensures Weighted(r)
  {
    var n := |blocks|;
    if n > 0 && blocks[n - 1].boundary == s.score then
      blocks[..n - 1] + [Block(s.score, blocks[n - 1].sum + s.outcome, blocks[n - 1].weight + 1)]
    else
      blocks + [Block(s.score, s.outcome, 1)]
  }

  function Merge(left: Block, right: Block): Block {
    Block(right.boundary, left.sum + right.sum, left.weight + right.weight)
  }

  predicate Violates(blocks: seq<Block>)
    requires Weighted(blocks)
  {
    |blocks| >= 2 && blocks[|blocks| - 2].Mean() > blocks[|blocks| - 1].Mean()
  }

  function PoolOnce(blocks: seq<Block>): (r: seq<Block>)
    requires Weighted(blocks) && |blocks| >= 2
    ensures Weighted(r) && |r| == |blocks| - 1
  {
    blocks[..|blocks| - 2] + [Merge(blocks[|blocks| - 2], blocks[|blocks| - 1])]
  }

  function Pool(blocks: seq<Block>): (r: seq<Block>)
    requires Weighted(blocks)
    ensures Weighted(r)
    decreases |blocks|
  {
    if Violates(blocks) then Pool(PoolOnce(blocks)) else blocks
  }

  /** The block stack after the given ordered samples. */
  function Fit(ordered: seq<Sample>): (blocks: seq<Block>)
    ensures Weighted(blocks)
    decreases |ordered|
  {
    if ordered == [] then []
    else Pool(Push(Fit(ordered[..|ordered| - 1]), ordered[|ordered| - 1]))
  }

  // ---- the calibration model ----

  function Parameters(blocks: seq<Block>): seq<real>
    requires Weighted(blocks)
  {
    seq(2 * |blocks|, k requires 0 <= k < 2 * |blocks| =>
      if k % 2 == 0 then blocks[k / 2].boundary else blocks[k / 2].Mean())
  }

  /** `CalibrationModel` validation of isotonic parameters, including the field's length limit. */
  predicate ValidParameters(p: seq<real>) {
    && |p| <= MAX_PARAMETERS
    && |p| >= 2 && |p| % 2 == 0
    && (forall i :: 0 <= i < |p| / 2 - 1 ==> p[2 * i] < p[2 * i + 2])
    && (forall i :: 0 <= i < |p| / 2 ==> 0.0 <= p[2 * i + 1] <= 1.0)
  }

  function Pairs(p: seq<real>): seq<(real, real)>
    requires |p| % 2 == 0
  {
    seq(|p| / 2, i requires 0 <= i < |p| / 2 => (p[2 * i], p[2 * i + 1]))
  }

  /** The value of the first boundary that is not below the score, else the last value. */
  function Probability(score: real, pairs: seq<(real, real)>): real
    requires pairs != []
  {
    if score <= pairs[0].0 || |pairs| == 1 then pairs[0].1 else Probability(score, pairs[1..])
  }

  function Apply(parameters: seq<real>, scores: seq<real>): seq<real>
    requires |parameters| % 2 == 0 && |parameters| >= 2
  {
    seq(|scores|, i requires 0 <= i < |scores| => Probability(scores[i], Pairs(parameters)))
  }

  method IsotonicProbability(score: real, pairs: seq<(real, real)>) returns (p: real)
    requires pairs != []
    ensures p == Probability(score, pairs)
  {
    for i := 0 to |pairs|
      invariant forall j :: 0 <= j < i ==> score > pairs[j].0
      invariant i < |pairs| ==> Probability(score, pairs) == Probability(score, pairs[i..])
      invariant i == |pairs| ==> Probability(score, pairs) == pairs[|pairs| - 1].1
    {
      if score <= pairs[i].0 {
        return pairs[i].1;
      }
    }
    return pairs[|pairs| - 1].1;
  }

  function Zip(scores: seq<real>, labels: seq<int>): seq<Sample>
    requires |scores| == |labels|
  {
    seq(|scores|, i requires 0 <= i < |scores| => Sample(scores[i], labels[i]))
  }

  /** The body of the fitting loop: extend or append the last block, then merge while the last two
      means decrease. */
  method AddSample(stack: seq<Block>, s: Sample) returns (blocks: seq<Block>)
    requires Weighted(stack)
    ensures blocks == Pool(Push(stack, s))
  {
    var n := |stack|;
    if n > 0 && stack[n - 1].boundary == s.score {
      blocks := stack[n - 1 := Block(s.score, stack[n - 1].sum + s.outcome, stack[n - 1].weight + 1)];
    } else {
      blocks := stack + [Block(s.score, s.outcome, 1)];
    }
    assert blocks == Push(stack, s);
    while |blocks| >= 2 && blocks[|blocks| - 2].Mean() > blocks[|blocks| - 1].Mean()
      invariant Weighted(blocks) && Pool(blocks) == Pool(Push(stack, s))
      decreases |blocks|
    {
      var right := blocks[|blocks| - 1];
      var left := blocks[|blocks| - 2];
      blocks := blocks[..|blocks| - 2] + [Block(right.boundary, left.sum + right.sum, left.weight + right.weight)];
    }
  }

  /** `_fit_isotonic`: the block stack over the ordered samples, flattened and validated. */
  method FitIsotonic(scores: seq<real>, labels: seq<int>) returns (r: Result<seq<real>, CalibrationError>)
    ensures |scores| != |labels| ==> r == Failure(VectorMismatch)
    ensures |scores| == |labels| ==>
      var p := Parameters(Fit(Ordered(Zip(scores, labels))));
      r == if ValidParameters(p) then Success(p) else Failure(BadParameters)
  {
    hide Push, Pool, Sort, ValidParameters;
    if |scores| != |labels| {
      return Failure(VectorMismatch);
    }
    var ordered := Ordered(Zip(scores, labels));
    var blocks: seq<Block> := [];
    for i := 0 to |ordered|
      invariant blocks == Fit(ordered[..i])
    {
      assert ordered[..i + 1][..i] == ordered[..i];
      blocks := AddSample(blocks, ordered[i]);
    }
    assert ordered[..|ordered|] == ordered;
    var parameters := Parameters(blocks);
    if ValidParameters(parameters) {
      return Success(parameters);
    }
    return Failure(BadParameters);
  }
}
