/** Conformal intervals (forecast/calibration.py): the least half-width that covers enough residuals. */
module Conformal {
  import opened Basics
  import opened Wrappers
  import opened Sorting

  datatype ConformalError = NoResiduals | BadCoverage

  datatype Point = Point(day: int, prediction: real, lower: real, upper: real)

  predicate Le(a: real, b: real) {
    a <= b
  }

  lemma {:induction false} LeIsTotal()
    ensures TotalPreorder(Le)
  {}

  function Magnitudes(residuals: seq<real>): seq<real> {
    seq(|residuals|, i requires 0 <= i < |residuals| => Abs(residuals[i]))
  }

  function Ceiling(x: real): int {
    -(-x).Floor
  }

  /** The number of residuals the interval should cover. */
  function Rank(n: nat, coverage: real): int {
    Ceiling((n + 1) as real * coverage)
  }

  lemma {:induction false} RankIsPositive(n: nat, coverage: real)
    requires 0.0 < coverage < 1.0
    ensures 1 <= Rank(n, coverage) <= n + 1
    ensures Rank(n, coverage) as real >= n as real * coverage
  {
    var x := (n + 1) as real * coverage;
    Between(n, coverage);
    assert (-x).Floor as real <= -x < (-x).Floor as real + 1.0;
  }

  lemma {:induction false} Between(n: nat, coverage: real)
    requires 0.0 < coverage < 1.0
    ensures 0.0 < (n + 1) as real * coverage < (n + 1) as real
    ensures n as real * coverage <= (n + 1) as real * coverage
  {}

  /** The order statistic: the magnitude at the rank, or the largest one. */
  function Width(residuals: seq<real>, coverage: real): real
    requires 0.0 < coverage < 1.0 && residuals != []
  {
    RankIsPositive(|residuals|, coverage);
    var scores := Sort(Le, Magnitudes(residuals));
    scores[Min(Rank(|residuals|, coverage), |scores|) - 1]
  }

  /** `_interval_width`; the target coverage lies strictly between zero and one. */
  function IntervalWidth(residuals: seq<real>, coverage: real): Result<real, ConformalError>
    requires 0.0 < coverage < 1.0
  {
    if residuals == [] then Failure(NoResiduals) else Success(Width(residuals, coverage))
  }

  function Widened(points: seq<Point>, width: real): seq<Point> {
    seq(|points|, i requires 0 <= i < |points| =>
      points[i].(lower := points[i].prediction - width, upper := points[i].prediction + width))
  }

  /** `calibrate`, with the check of the target coverage that the calibrator makes when it is built. */
  function Calibrate(points: seq<Point>, residuals: seq<real>, coverage: real): Result<seq<Point>, ConformalError> {
    if !(0.0 < coverage < 1.0) then Failure(BadCoverage)
    else
      var width := IntervalWidth(residuals, coverage);
      if width.Failure? then Failure(width.error) else Success(Widened(points, width.value))
  }

  // ---- counting ----

  /** How many magnitudes are at most `w`. */
  function Covered(scores: seq<real>, w: real): nat {
    if scores == [] then 0
    else Covered(scores[..|scores| - 1], w) + if scores[|scores| - 1] <= w then 1 else 0
  }

  lemma {:induction false} CoveredConcat(a: seq<real>, b: seq<real>, w: real)
    ensures Covered(a + b, w) == Covered(a, w) + Covered(b, w)
    decreases |b|
  {
    if b == [] {
      assert a + b == a;
    } else {
      assert (a + b)[..|a + b| - 1] == a + b[..|b| - 1];
      CoveredConcat(a, b[..|b| - 1], w);
    }
  }

  lemma {:induction false} InsertCovered(x: real, s: seq<real>, w: real)
    ensures Covered(Insert(Le, x, s), w) == Covered(s, w) + Covered([x], w)
    decreases |s|
  {
    hide Covered;
    if s == [] {
      CoveredConcat(s, [x], w);
      assert s + [x] == [x];
    } else if Le(x, s[0]) {
      CoveredConcat([x], s, w);
    } else {
      InsertCovered(x, s[1..], w);
      CoveredConcat([s[0]], s[1..], w);
      CoveredConcat([s[0]], Insert(Le, x, s[1..]), w);
      assert [s[0]] + s[1..] == s;
    }
  }

  lemma {:induction false} SortCovered(s: seq<real>, w: real)
    ensures Covered(Sort(Le, s), w) == Covered(s, w)
    decreases |s|
  {
    hide Covered;
    if s != [] {
      SortCovered(s[1..], w);
      InsertCovered(s[0], Sort(Le, s[1..]), w);
      CoveredConcat([s[0]], s[1..], w);
      assert [s[0]] + s[1..] == s;
    }
  }

  lemma {:induction false} AllCovered(s: seq<real>, w: real)
    requires forall i :: 0 <= i < |s| ==> s[i] <= w
    ensures Covered(s, w) == |s|
    decreases |s|
  {
    if s != [] {
      AllCovered(s[..|s| - 1], w);
    }
  }

  lemma {:induction false} NoneCovered(s: seq<real>, w: real)
    requires forall i :: 0 <= i < |s| ==> s[i] > w
    ensures Covered(s, w) == 0
    decreases |s|
  {
    if s != [] {
      NoneCovered(s[..|s| - 1], w);
    }
  }

  lemma {:induction false} CoveredBounds(s: seq<real>, w: real)
    ensures 0 <= Covered(s, w) <= |s|
    decreases |s|
  {
    if s != [] {
      CoveredBounds(s[..|s| - 1], w);
    }
  }

  /** In sorted order, `w` covers at least `k` exactly when it reaches the k-th. */
  lemma {:induction false} KthCovers(s: seq<real>, k: nat, w: real)
    requires SortedBy(Le, s) && 0 < k <= |s|
    ensures Covered(s, w) >= k <==> s[k - 1] <= w
  {
    if s[k - 1] <= w {
      forall i | 0 <= i < k ensures s[..k][i] <= w {
        assert i < k - 1 ==> Le(s[i], s[k - 1]);
      }
      AllCovered(s[..k], w);
      assert s == s[..k] + s[k..];
      CoveredConcat(s[..k], s[k..], w);
    } else {
      var rest := s[k - 1..];
      forall i | 0 <= i < |rest| ensures rest[i] > w {
        assert i > 0 ==> Le(s[k - 1], s[k - 1 + i]);
      }
      NoneCovered(rest, w);
      assert s == s[..k - 1] + s[k - 1..];
      CoveredConcat(s[..k - 1], s[k - 1..], w);
      CoveredBounds(s[..k - 1], w);
    }
  }

  /** The number of residuals of magnitude at most `w`. */
  function CoveredBy(residuals: seq<real>, w: real): nat {
    Covered(Magnitudes(residuals), w)
  }

  /** The width is the least real number that covers at least min(n, rank) of the residuals: a half-width
      covers that many exactly when it is not smaller. */
  lemma {:induction false} WidthIsLeast(residuals: seq<real>, coverage: real, w: real)
    requires 0.0 < coverage < 1.0 && residuals != []
    ensures CoveredBy(residuals, w) >= Min(|residuals|, Rank(|residuals|, coverage)) <==>
      w >= Width(residuals, coverage)
  {
    hide Covered, Sort, Rank;
    var scores := Sort(Le, Magnitudes(residuals));
    var k := Min(|residuals|, Rank(|residuals|, coverage));
    RankIsPositive(|residuals|, coverage);
    LeIsTotal();
    SortSorts(Le, Magnitudes(residuals));
    SortCovered(Magnitudes(residuals), w);
    KthCovers(scores, k, w);
  }

  lemma {:induction false} MagnitudesLength(residuals: seq<real>)
    ensures |Magnitudes(residuals)| == |residuals|
  {}

  lemma {:induction false} PartOfWhole(x: real, c: real)
    requires x >= 0.0 && c < 1.0
    ensures x * c <= x
  {
    assert x * (1.0 - c) >= 0.0;
    assert x * (1.0 - c) == x - x * c;
  }

  /** `count` out of `n` is at least the share `c`. */
  ghost predicate ReachesShare(count: nat, n: nat, c: real) {
    count as real >= n as real * c
  }

  lemma {:induction false} ShareOf(n: nat, rank: int, coverage: real)
    requires 0.0 < coverage < 1.0 && rank as real >= n as real * coverage
    ensures Min(n, rank) as real >= n as real * coverage
  {
    var x := n as real;
    var share := x * coverage;
    PartOfWhole(x, coverage);
    assert share <= x;
  }

  /** The sample coverage is at least the target, and with n+1 residuals in mind, rank many are covered
      exactly when there are that many. */
  lemma {:induction false} CoverageReached(residuals: seq<real>, coverage: real)
    requires 0.0 < coverage < 1.0 && residuals != []
    ensures var width := Width(residuals, coverage);
      && ReachesShare(CoveredBy(residuals, width), |residuals|, coverage)
      && (CoveredBy(residuals, width) >= Rank(|residuals|, coverage) <==> Rank(|residuals|, coverage) <= |residuals|)
  {
    hide Rank, Covered, Width, Magnitudes;
    WidthIsLeast(residuals, coverage, Width(residuals, coverage));
    RankIsPositive(|residuals|, coverage);
    ShareOf(|residuals|, Rank(|residuals|, coverage), coverage);
    CoveredBounds(Magnitudes(residuals), Width(residuals, coverage));
    MagnitudesLength(residuals);
  }

  // ---- intervals ----

  predicate Contains(p: Point, actual: real) {
    p.lower <= actual <= p.upper
  }

  /** How many of the actual values lie in their point's interval. */
  function Hits(points: seq<Point>, actuals: seq<real>): nat
    requires |points| == |actuals|
  {
    if points == [] then 0
    else
      Hits(points[..|points| - 1], actuals[..|points| - 1])
        + if Contains(points[|points| - 1], actuals[|points| - 1]) then 1 else 0
  }

  function Residuals(points: seq<Point>, actuals: seq<real>): seq<real>
    requires |points| == |actuals|
  {
    seq(|points|, i requires 0 <= i < |points| => actuals[i] - points[i].prediction)
  }

  lemma {:induction false} HitsAreCovered(points: seq<Point>, actuals: seq<real>, width: real)
    requires |points| == |actuals|
    ensures Hits(Widened(points, width), actuals) == CoveredBy(Residuals(points, actuals), width)
    decreases |points|
  {
    if points != [] {
      var n := |points| - 1;
      HitsAreCovered(points[..n], actuals[..n], width);
      assert Widened(points, width)[..n] == Widened(points[..n], width);
      assert Magnitudes(Residuals(points, actuals))[..n] == Magnitudes(Residuals(points[..n], actuals[..n]));
    }
  }

  lemma {:induction false} WidthIsNonnegative(residuals: seq<real>, coverage: real)
    requires 0.0 < coverage < 1.0 && residuals != []
    ensures Width(residuals, coverage) >= 0.0
  {
    hide Sort, Rank;
    RankIsPositive(|residuals|, coverage);
    var scores := Sort(Le, Magnitudes(residuals));
    SortedMembers(Le, Magnitudes(residuals));
    var width := Width(residuals, coverage);
    assert width in scores;
    var i :| 0 <= i < |residuals| && Magnitudes(residuals)[i] == width;
  }

  /** Calibrated with their own residuals, the intervals contain their predictions and at least the target
      share of the actual values. */
  lemma {:induction false} CalibratedIntervalsCover(points: seq<Point>, actuals: seq<real>, coverage: real)
    requires |points| == |actuals|
    ensures Calibrate(points, Residuals(points, actuals), coverage).Success? <==> points != [] && 0.0 < coverage < 1.0
    ensures points != [] && 0.0 < coverage < 1.0 ==>
      var calibrated := Calibrate(points, Residuals(points, actuals), coverage).value;
      && |calibrated| == |points| && ReachesShare(Hits(calibrated, actuals), |points|, coverage)
      && forall i :: 0 <= i < |points| ==> Contains(calibrated[i], points[i].prediction)
  {
    if points != [] && 0.0 < coverage < 1.0 {
      hide CoveredBy, Hits, Width, Rank, ReachesShare;
      var residuals := Residuals(points, actuals);
      CoverageReached(residuals, coverage);
      WidthIsNonnegative(residuals, coverage);
      HitsAreCovered(points, actuals, Width(residuals, coverage));
    }
  }

  // ---- the width by the residuals alone ----

  /** The residuals that lie within `w` of zero. */
  ghost function Within(residuals: seq<real>, w: real): set<int> {
    set i | 0 <= i < |residuals| && -w <= residuals[i] <= w
  }

  lemma {:induction false} CoveredIsWithin(residuals: seq<real>, w: real)
    ensures CoveredBy(residuals, w) == |Within(residuals, w)|
    decreases |residuals|
  {
    if residuals == [] {
      assert Within(residuals, w) == {};
    } else {
      var n := |residuals| - 1;
      CoveredIsWithin(residuals[..n], w);
      assert Magnitudes(residuals)[..n] == Magnitudes(residuals[..n]);
      var before, last := Within(residuals[..n], w), if -w <= residuals[n] <= w then {n} else {};
      assert Within(residuals, w) == before + last && before !! last;
    }
  }

  lemma {:induction false} RankIsCeiling(n: nat, coverage: real, k: int)
    ensures k >= Rank(n, coverage) <==> k as real >= (n + 1) as real * coverage
  {
    var x := (n + 1) as real * coverage;
    assert (-x).Floor as real <= -x < (-x).Floor as real + 1.0;
  }

  /** A half-width is at least the computed one exactly when all residuals lie within it, or as many as the target
      share of one residual more than there are. */
  lemma {:induction false} WidthMeetsTheTarget(residuals: seq<real>, coverage: real, w: real)
    requires 0.0 < coverage < 1.0 && residuals != []
    ensures w >= Width(residuals, coverage) <==>
      || |Within(residuals, w)| == |residuals|
      || |Within(residuals, w)| as real >= (|residuals| + 1) as real * coverage
  {
    hide Width, Within, CoveredBy, Rank, Covered;
    WidthIsLeast(residuals, coverage, w);
    CoveredIsWithin(residuals, w);
    RankIsCeiling(|residuals|, coverage, |Within(residuals, w)|);
    CoveredAtMostAll(residuals, w);
  }

  lemma {:induction false} CoveredAtMostAll(residuals: seq<real>, w: real)
    ensures CoveredBy(residuals, w) <= |residuals|
  {
    CoveredBounds(Magnitudes(residuals), w);
  }

  /** Only the bounds of a point change, to the width on both sides of its prediction; without residuals, or with a
      target that is no proper share, there is an error. */
  lemma {:induction false} CalibrateWidens(points: seq<Point>, residuals: seq<real>, coverage: real)
    ensures var r := Calibrate(points, residuals, coverage);
      && (coverage <= 0.0 || coverage >= 1.0 ==> r == Failure(BadCoverage))
      && (0.0 < coverage < 1.0 && residuals == [] ==> r == Failure(NoResiduals))
      && (0.0 < coverage < 1.0 && residuals != [] ==>
            && r.Success? && |r.value| == |points|
            && forall i :: 0 <= i < |points| ==>
                 var x, w := points[i].prediction, Width(residuals, coverage);
                 r.value[i] == Point(points[i].day, x, x - w, x + w))
  {
    hide Width;
  }
}
