/** Splitting observations by time (modeling/training.py) into training, calibration and holdout periods. */
module TemporalSplit {
  import opened Basics
  import opened Wrappers
  import opened Sorting

  datatype Observation = Observation(at: int, row: int)

  datatype Groups = Groups(training: seq<Observation>, validation: seq<Observation>, holdout: seq<Observation>)

  datatype SplitError = BadFractions | TooFewPeriods | NoTrainingPeriod | TooFewCalibrationPeriods

  const MINIMUM_PERIODS := 3
  const MINIMUM_CALIBRATION_PERIODS := 2

  // ---- periods: the sorted set of observation times ----

  function InsertTime(t: int, times: seq<int>): seq<int> {
    if times == [] || t < times[0] then [t] + times
    else if t == times[0] then times
    else [times[0]] + InsertTime(t, times[1..])
  }

  function Periods(rows: seq<Observation>): seq<int> {
    if rows == [] then [] else InsertTime(rows[0].at, Periods(rows[1..]))
  }

  ghost predicate Increasing(times: seq<int>) {
    forall i, j :: 0 <= i < j < |times| ==> times[i] < times[j]
  }

  lemma {:induction false} InsertTimeIncreases(t: int, times: seq<int>)
    requires Increasing(times)
    ensures Increasing(InsertTime(t, times))
    ensures forall x :: x in InsertTime(t, times) <==> x == t || x in times
    decreases |times|
  {
    if times != [] && t > times[0] {
      InsertTimeIncreases(t, times[1..]);
      assert times == [times[0]] + times[1..];
      var rest := InsertTime(t, times[1..]);
      forall j | 0 <= j < |rest| ensures times[0] < rest[j] {
        assert rest[j] in rest;
      }
    } else if times != [] {
      assert times == [times[0]] + times[1..];
    }
  }

  lemma {:induction false} PeriodsAreTimes(rows: seq<Observation>)
    ensures Increasing(Periods(rows))
    ensures forall x :: x in Periods(rows) <==> exists r :: r in rows && r.at == x
    decreases |rows|
  {
    if rows != [] {
      PeriodsAreTimes(rows[1..]);
      InsertTimeIncreases(rows[0].at, Periods(rows[1..]));
      assert rows == [rows[0]] + rows[1..];
      forall x ensures x in Periods(rows) <==> exists r :: r in rows && r.at == x {
        if x == rows[0].at {
          assert rows[0] in rows;
        }
      }
    }
  }

  // ---- splitting ----

  /** Python's `round`: to the nearest integer, ties to even. */
  function Round(x: real): int {
    var f := x.Floor;
    var rest := x - f as real;
    if rest < 0.5 || (rest == 0.5 && f % 2 == 0) then f else f + 1
  }

  predicate AtLe(a: Observation, b: Observation) {
    a.at <= b.at
  }

  function UpTo(rows: seq<Observation>, t: int): seq<Observation> {
    if rows == [] then []
    else if rows[0].at <= t then [rows[0]] + UpTo(rows[1..], t)
    else UpTo(rows[1..], t)
  }

  function Beyond(rows: seq<Observation>, t: int): seq<Observation> {
    if rows == [] then []
    else if rows[0].at > t then [rows[0]] + Beyond(rows[1..], t)
    else Beyond(rows[1..], t)
  }

  function ValidationPeriods(n: nat, fraction: real): int {
    Max(1, Round(n as real * fraction))
  }

  function TrainingPeriods(n: nat, validation: real, holdout: real): int {
    n - ValidationPeriods(n, holdout) - ValidationPeriods(n, validation)
  }

  predicate GoodFractions(validation: real, holdout: real) {
    0.0 < validation < 1.0 && 0.0 < holdout < 1.0 && validation + holdout < 1.0
  }

  /** `temporal_split` */
  function Split(rows: seq<Observation>, validation: real, holdout: real): Result<Groups, SplitError> {
    var periods := Periods(rows);
    if !GoodFractions(validation, holdout) then Failure(BadFractions)
    else if |periods| < MINIMUM_PERIODS then Failure(TooFewPeriods)
    else
      var training := TrainingPeriods(|periods|, validation, holdout);
      if training < 1 then Failure(NoTrainingPeriod)
      else
        var trainingEnd := periods[training - 1];
        var validationEnd := periods[training + ValidationPeriods(|periods|, validation) - 1];
        var ordered := Sort(AtLe, rows);
        Success(Groups(UpTo(ordered, trainingEnd), UpTo(Beyond(ordered, trainingEnd), validationEnd),
                       Beyond(ordered, validationEnd)))
  }

  /** `_split_validation` */
  function SplitValidation(rows: seq<Observation>): Result<(seq<Observation>, seq<Observation>), SplitError> {
    var periods := Periods(rows);
    if |periods| < MINIMUM_CALIBRATION_PERIODS then Failure(TooFewCalibrationPeriods)
    else
      var boundary := periods[|periods| / 2 - 1];
      Success((UpTo(rows, boundary), Beyond(rows, boundary)))
  }

  // ---- groups ----

  ghost predicate AllBefore(a: seq<Observation>, b: seq<Observation>) {
    forall x, y :: x in a && y in b ==> x.at < y.at
  }

  lemma {:induction false} UpToMembers(rows: seq<Observation>, t: int)
    ensures forall r :: r in UpTo(rows, t) <==> r in rows && r.at <= t
    decreases |rows|
  {
    if rows != [] {
      UpToMembers(rows[1..], t);
      assert rows == [rows[0]] + rows[1..];
    }
  }

  lemma {:induction false} BeyondMembers(rows: seq<Observation>, t: int)
    ensures forall r :: r in Beyond(rows, t) <==> r in rows && r.at > t
    decreases |rows|
  {
    if rows != [] {
      BeyondMembers(rows[1..], t);
      assert rows == [rows[0]] + rows[1..];
    }
  }

  lemma {:induction false} CutKeepsAll(rows: seq<Observation>, t: int)
    ensures multiset(UpTo(rows, t)) + multiset(Beyond(rows, t)) == multiset(rows)
    decreases |rows|
  {
    if rows != [] {
      CutKeepsAll(rows[1..], t);
      assert rows == [rows[0]] + rows[1..];
    }
  }

  /** What lies beyond the later bound lies beyond the earlier one. */
  lemma {:induction false} BeyondTwice(rows: seq<Observation>, a: int, b: int)
    requires a <= b
    ensures Beyond(Beyond(rows, a), b) == Beyond(rows, b)
    decreases |rows|
  {
    if rows != [] {
      BeyondTwice(rows[1..], a, b);
      if rows[0].at > a {
        var rest := Beyond(rows[1..], a);
        assert ([rows[0]] + rest)[1..] == rest;
      }
    }
  }

  /** A period with an observation. */
  lemma {:induction false} PeriodHasRow(rows: seq<Observation>, i: int)
    requires 0 <= i < |Periods(rows)|
    ensures exists r :: r in rows && r.at == Periods(rows)[i]
  {
    PeriodsAreTimes(rows);
    assert Periods(rows)[i] in Periods(rows);
  }

  lemma {:induction false} ThreeGroups(ordered: seq<Observation>, a: int, b: int)
    requires a < b
    ensures var x, y, z := UpTo(ordered, a), UpTo(Beyond(ordered, a), b), Beyond(ordered, b);
      && multiset(x) + multiset(y) + multiset(z) == multiset(ordered)
      && AllBefore(x, y) && AllBefore(y, z) && AllBefore(x, z)
      && (forall r :: r in x <==> r in ordered && r.at <= a)
      && (forall r :: r in y <==> r in ordered && a < r.at <= b)
      && (forall r :: r in z <==> r in ordered && b < r.at)
  {
    hide UpTo, Beyond;
    CutKeepsAll(ordered, a);
    CutKeepsAll(Beyond(ordered, a), b);
    BeyondTwice(ordered, a, b);
    UpToMembers(ordered, a);
    BeyondMembers(ordered, a);
    UpToMembers(Beyond(ordered, a), b);
    BeyondMembers(ordered, b);
  }

  lemma {:induction false} SplitBounds(rows: seq<Observation>, validation: real, holdout: real)
    requires Split(rows, validation, holdout).Success?
    ensures var periods := Periods(rows);
      var k := TrainingPeriods(|periods|, validation, holdout);
      var m := k + ValidationPeriods(|periods|, validation);
      && 1 <= k < m < |periods| && periods[k - 1] < periods[m - 1] < periods[m]
  {
    hide Round, Periods, Sort;
    PeriodsAreTimes(rows);
  }

  /** The groups of a successful split are nonempty, hold every observation as often as the input does,
      and follow one another strictly in time. */
  lemma {:induction false} SplitHasNoLeak(rows: seq<Observation>, validation: real, holdout: real)
    requires Split(rows, validation, holdout).Success?
    ensures var s := Split(rows, validation, holdout).value;
      && s.training != [] && s.validation != [] && s.holdout != []
      && multiset(s.training) + multiset(s.validation) + multiset(s.holdout) == multiset(rows)
      && AllBefore(s.training, s.validation) && AllBefore(s.validation, s.holdout)
      && AllBefore(s.training, s.holdout)
  {
    hide Round, Periods, Sort, UpTo, Beyond, AllBefore;
    var periods, ordered := Periods(rows), Sort(AtLe, rows);
    var k := TrainingPeriods(|periods|, validation, holdout);
    var m := k + ValidationPeriods(|periods|, validation);
    SplitBounds(rows, validation, holdout);
    hide TrainingPeriods, ValidationPeriods;
    SortedMembers(AtLe, rows);
    SortKeepsElements(AtLe, rows);
    ThreeGroups(ordered, periods[k - 1], periods[m - 1]);
    PeriodHasRow(rows, k - 1);
    PeriodHasRow(rows, m - 1);
    PeriodHasRow(rows, m);
  }

  /** The two calibration groups. */
  lemma {:induction false} CalibrationHasNoLeak(rows: seq<Observation>)
    ensures SplitValidation(rows).Success? <==> |Periods(rows)| >= 2
    ensures SplitValidation(rows).Failure? ==> SplitValidation(rows).error == TooFewCalibrationPeriods
    ensures SplitValidation(rows).Success? ==>
      var (fit, evaluation) := SplitValidation(rows).value;
      && fit != [] && evaluation != []
      && multiset(fit) + multiset(evaluation) == multiset(rows)
      && AllBefore(fit, evaluation)
  {
    hide Periods;
    var periods := Periods(rows);
    if |periods| >= 2 {
      var h := |periods| / 2;
      PeriodsAreTimes(rows);
      var boundary := periods[h - 1];
      UpToMembers(rows, boundary);
      BeyondMembers(rows, boundary);
      CutKeepsAll(rows, boundary);
      PeriodHasRow(rows, h - 1);
      PeriodHasRow(rows, h);
      var x :| x in rows && x.at == boundary;
      var y :| y in rows && y.at == periods[h];
      assert x in UpTo(rows, boundary) && y in Beyond(rows, boundary);
    }
  }

  // ---- how many periods ----

  lemma {:induction false} FifthRounds(n: nat)
    ensures n < 8 ==> ValidationPeriods(n, 0.2) == 1
    ensures n >= 8 ==> ValidationPeriods(n, 0.2) >= 2
    ensures n >= 3 ==> -2 <= 5 * ValidationPeriods(n, 0.2) - n <= 2
  {
    var x := n as real * 0.2;
    var f := x.Floor;
    assert f as real <= x < f as real + 1.0;
    assert 5 * f <= n < 5 * f + 5;
    assert Round(x) == if n - 5 * f <= 2 then f else f + 1;
  }

  /** With the default fractions the split succeeds exactly for three or more different times. */
  lemma {:induction false} DefaultSplitSucceeds(rows: seq<Observation>)
    ensures Split(rows, 0.2, 0.2).Success? <==> |Periods(rows)| >= 3
  {
    hide ValidationPeriods, Sort, Periods;
    FifthRounds(|Periods(rows)|);
  }

  lemma {:induction false} HeadIsLeast(times: seq<int>)
    requires Increasing(times) && times != []
    ensures forall x :: x in times ==> times[0] <= x
    ensures forall x :: x in times[1..] <==> x in times && x != times[0]
  {
    assert times == [times[0]] + times[1..];
  }

  /** Increasing sequences with the same members are equal. */
  lemma {:induction false} IncreasingUnique(a: seq<int>, b: seq<int>)
    requires Increasing(a) && Increasing(b) && forall x :: x in a <==> x in b
    ensures a == b
    decreases |a|
  {
    assert b != [] ==> b[0] in b;
    if a != [] {
      assert a[0] in a;
      HeadIsLeast(a);
      HeadIsLeast(b);
      IncreasingUnique(a[1..], b[1..]);
    }
  }

  /** The observations of consecutive periods. */
  ghost predicate CoversPeriods(rows: seq<Observation>, group: seq<Observation>, k: int, m: int)
    requires 0 <= k <= m <= |Periods(rows)|
  {
    forall r :: r in group <==> r in rows && r.at in Periods(rows)[k..m]
  }

  lemma {:induction false} PeriodsOfGroup(rows: seq<Observation>, group: seq<Observation>, k: int, m: int)
    requires 0 <= k <= m <= |Periods(rows)| && CoversPeriods(rows, group, k, m)
    ensures Periods(group) == Periods(rows)[k..m]
  {
    hide Periods;
    var periods := Periods(rows);
    PeriodsAreTimes(rows);
    PeriodsAreTimes(group);
    forall x ensures x in Periods(group) <==> x in periods[k..m] {
      if x in periods[k..m] {
        assert x in periods;
        var r :| r in rows && r.at == x;
        assert r in group;
      }
    }
    IncreasingUnique(Periods(group), periods[k..m]);
  }

  /** In increasing order a time lies in a stretch exactly when it lies between its ends. */
  lemma {:induction false} InStretch(times: seq<int>, k: int, m: int, x: int)
    requires Increasing(times) && 0 <= k < m <= |times| && x in times
    ensures x in times[k..m] <==> times[k] <= x <= times[m - 1]
  {
    var i :| 0 <= i < |times| && times[i] == x;
    if k <= i < m {
      assert times[k..m][i - k] == x;
    }
  }

  lemma {:induction false} StretchOfRows(rows: seq<Observation>, group: seq<Observation>, k: int, m: int)
    requires 0 <= k < m <= |Periods(rows)|
    requires forall r :: r in group <==> r in rows && Periods(rows)[k] <= r.at <= Periods(rows)[m - 1]
    ensures Periods(group) == Periods(rows)[k..m]
  {
    hide Periods;
    PeriodsAreTimes(rows);
    forall r | r in rows ensures r in group <==> r.at in Periods(rows)[k..m] {
      assert r.at in Periods(rows);
      InStretch(Periods(rows), k, m, r.at);
    }
    PeriodsOfGroup(rows, group, k, m);
  }

  lemma {:induction false} NoTimeBetween(rows: seq<Observation>, i: int, r: Observation)
    requires r in rows && 0 <= i < |Periods(rows)| - 1
    ensures r.at > Periods(rows)[i] <==> r.at >= Periods(rows)[i + 1]
    ensures Periods(rows)[0] <= r.at <= Periods(rows)[|Periods(rows)| - 1]
  {
    hide Periods;
    PeriodsAreTimes(rows);
    assert r.at in Periods(rows);
    var j :| 0 <= j < |Periods(rows)| && Periods(rows)[j] == r.at;
  }

  /** Training covers the first periods, validation the next ones and holdout the rest. */
  lemma {:induction false} PeriodsOfGroups(rows: seq<Observation>, validation: real, holdout: real)
    requires Split(rows, validation, holdout).Success?
    ensures var s, n := Split(rows, validation, holdout).value, |Periods(rows)|;
      var k := TrainingPeriods(n, validation, holdout);
      var m := k + ValidationPeriods(n, validation);
      && Periods(s.training) == Periods(rows)[..k]
      && Periods(s.validation) == Periods(rows)[k..m]
      && Periods(s.holdout) == Periods(rows)[m..]
  {
    hide Round, Sort, Periods, UpTo, Beyond, AllBefore;
    var s, periods, ordered := Split(rows, validation, holdout).value, Periods(rows), Sort(AtLe, rows);
    var n, k := |periods|, TrainingPeriods(|periods|, validation, holdout);
    var m := k + ValidationPeriods(n, validation);
    SplitBounds(rows, validation, holdout);
    hide TrainingPeriods, ValidationPeriods;
    SortedMembers(AtLe, rows);
    ThreeGroups(ordered, periods[k - 1], periods[m - 1]);
    forall r | r in rows
      ensures r.at > periods[k - 1] <==> r.at >= periods[k]
      ensures r.at > periods[m - 1] <==> r.at >= periods[m]
      ensures periods[0] <= r.at <= periods[n - 1]
    {
      NoTimeBetween(rows, k - 1, r);
      NoTimeBetween(rows, m - 1, r);
    }
    StretchOfRows(rows, s.training, 0, k);
    StretchOfRows(rows, s.validation, k, m);
    StretchOfRows(rows, s.holdout, m, n);
    assert periods[0..k] == periods[..k] && periods[m..n] == periods[m..];
  }

  /** The calibration groups are the earlier half of the periods, rounded down, and the later one. */
  lemma {:induction false} CalibrationHalves(rows: seq<Observation>)
    requires SplitValidation(rows).Success?
    ensures var (fit, evaluation) := SplitValidation(rows).value;
      var h := |Periods(rows)| / 2;
      Periods(fit) == Periods(rows)[..h] && Periods(evaluation) == Periods(rows)[h..]
  {
    hide Periods;
    var periods := Periods(rows);
    var n, h := |periods|, |periods| / 2;
    var (fit, evaluation) := SplitValidation(rows).value;
    UpToMembers(rows, periods[h - 1]);
    BeyondMembers(rows, periods[h - 1]);
    forall r | r in rows
      ensures r.at > periods[h - 1] <==> r.at >= periods[h]
      ensures periods[0] <= r.at <= periods[n - 1]
    {
      NoTimeBetween(rows, h - 1, r);
    }
    StretchOfRows(rows, fit, 0, h);
    StretchOfRows(rows, evaluation, h, n);
    assert periods[0..h] == periods[..h] && periods[h..n] == periods[h..];
  }

  /** With the default fractions validation and holdout each take a fifth of the periods, rounded to the
      nearest whole number, and training the rest. */
  lemma {:induction false} DefaultShares(rows: seq<Observation>)
    requires Split(rows, 0.2, 0.2).Success?
    ensures var s, n := Split(rows, 0.2, 0.2).value, |Periods(rows)|;
      && -2 <= 5 * |Periods(s.validation)| - n <= 2
      && |Periods(s.holdout)| == |Periods(s.validation)|
      && |Periods(s.training)| + 2 * |Periods(s.validation)| == n
  {
    hide Sort, Periods, Round, ValidationPeriods;
    PeriodsOfGroups(rows, 0.2, 0.2);
    FifthRounds(|Periods(rows)|);
  }

  /** The four groups the training run uses. */
  datatype FourGroups = FourGroups(
    training: seq<Observation>, fit: seq<Observation>, evaluation: seq<Observation>, holdout: seq<Observation>)

  /** The splits of `train_lightgbm`: default fractions, then the validation group in two. */
  function TrainingGroups(rows: seq<Observation>): Result<FourGroups, SplitError> {
    var split := Split(rows, 0.2, 0.2);
    if split.Failure? then Failure(split.error)
    else
      var halves := SplitValidation(split.value.validation);
      if halves.Failure? then Failure(halves.error)
      else Success(FourGroups(split.value.training, halves.value.0, halves.value.1, split.value.holdout))
  }

  /** Training, calibration fit, calibration evaluation and holdout: nonempty, together the input as a
      multiset, each strictly before the next. */
  lemma {:induction false} FourGroupsHaveNoLeak(rows: seq<Observation>)
    requires TrainingGroups(rows).Success?
    ensures var g := TrainingGroups(rows).value;
      && g.training != [] && g.fit != [] && g.evaluation != [] && g.holdout != []
      && multiset(g.training) + multiset(g.fit) + multiset(g.evaluation) + multiset(g.holdout) == multiset(rows)
      && AllBefore(g.training, g.fit) && AllBefore(g.fit, g.evaluation) && AllBefore(g.evaluation, g.holdout)
  {
    hide Split, SplitValidation;
    SplitHasNoLeak(rows, 0.2, 0.2);
    var s := Split(rows, 0.2, 0.2).value;
    CalibrationHasNoLeak(s.validation);
    var g := TrainingGroups(rows).value;
    PartsAreMembers(g.fit, g.evaluation, s.validation);
  }

  lemma {:induction false} PartsAreMembers(a: seq<Observation>, b: seq<Observation>, all: seq<Observation>)
    requires multiset(a) + multiset(b) == multiset(all)
    ensures forall x :: x in a || x in b ==> x in all
  {
    forall x | x in a || x in b ensures x in all {
      assert x in multiset(a) + multiset(b);
    }
  }

  /** The training run has its four groups exactly for eight or more different times. */
  lemma {:induction false} TrainingNeedsEightPeriods(rows: seq<Observation>)
    ensures TrainingGroups(rows).Success? <==> |Periods(rows)| >= 8
  {
    hide Sort, Periods, Round, ValidationPeriods;
    DefaultSplitSucceeds(rows);
    if |Periods(rows)| >= 3 {
      FifthRounds(|Periods(rows)|);
      PeriodsOfGroups(rows, 0.2, 0.2);
      CalibrationHasNoLeak(Split(rows, 0.2, 0.2).value.validation);
    }
  }

  // ---- sizes and errors, by the number of different times ----

  /** `v` is the whole number nearest to the fraction of `n`, the even one halfway, and at least one. */
  ghost predicate IsShare(v: int, n: nat, fraction: real) {
    var x := n as real * fraction;
    && v >= 1
    && (x <= 0.5 ==> v == 1)
    && (x > 0.5 ==> -0.5 <= x - v as real <= 0.5)
    && (x > 0.5 && (x - v as real == 0.5 || x - v as real == -0.5) ==> v % 2 == 0)
  }

  lemma {:induction false} RoundIsNearest(x: real)
    ensures -0.5 <= x - Round(x) as real <= 0.5
    ensures x - Round(x) as real == 0.5 || x - Round(x) as real == -0.5 ==> Round(x) % 2 == 0
  {}

  lemma {:induction false} PeriodsAreAShare(n: nat, fraction: real)
    ensures IsShare(ValidationPeriods(n, fraction), n, fraction)
  {
    hide Round;
    RoundIsNearest(n as real * fraction);
  }

  /** Validation and holdout each take their fraction of the periods, rounded to the nearest whole number but at
      least one, and training takes the rest. */
  lemma {:induction false} SharesAreNearest(rows: seq<Observation>, validation: real, holdout: real)
    requires Split(rows, validation, holdout).Success?
    ensures var s, n := Split(rows, validation, holdout).value, |Periods(rows)|;
      && IsShare(|Periods(s.validation)|, n, validation)
      && IsShare(|Periods(s.holdout)|, n, holdout)
      && |Periods(s.training)| + |Periods(s.validation)| + |Periods(s.holdout)| == n
  {
    hide Sort, Periods, Round, ValidationPeriods, IsShare;
    var n := |Periods(rows)|;
    PeriodsOfGroups(rows, validation, holdout);
    SplitBounds(rows, validation, holdout);
    PeriodsAreAShare(n, validation);
    PeriodsAreAShare(n, holdout);
  }

  /** The errors of a split, in the order they are found. */
  lemma {:induction false} SplitFailsIff(rows: seq<Observation>, validation: real, holdout: real)
    ensures var r, n := Split(rows, validation, holdout), |Periods(rows)|;
      var good := 0.0 < validation < 1.0 && 0.0 < holdout < 1.0 && validation + holdout < 1.0;
      && (r == Failure(BadFractions) <==> !good)
      && (r == Failure(TooFewPeriods) <==> good && n < 3)
      && (r == Failure(NoTrainingPeriod) <==>
            good && n >= 3 && exists v, h :: IsShare(v, n, validation) && IsShare(h, n, holdout) && v + h >= n)
      && (r.Failure? ==> r.error == BadFractions || r.error == TooFewPeriods || r.error == NoTrainingPeriod)
  {
    hide Sort, Periods, Round, ValidationPeriods, IsShare;
    var n := |Periods(rows)|;
    PeriodsAreAShare(n, validation);
    PeriodsAreAShare(n, holdout);
    forall v, h | IsShare(v, n, validation) && IsShare(h, n, holdout)
      ensures v == ValidationPeriods(n, validation) && h == ValidationPeriods(n, holdout)
    {
      OneShare(v, ValidationPeriods(n, validation), n, validation);
      OneShare(h, ValidationPeriods(n, holdout), n, holdout);
    }
  }

  lemma {:induction false} OneShare(v: int, u: int, n: nat, fraction: real)
    requires IsShare(v, n, fraction) && IsShare(u, n, fraction)
    ensures v == u
  {}

  /** The four groups of the training run: a fifth of the periods held out, another fifth halved for calibration, and
      the rest for training. */
  lemma {:induction false} FourShares(rows: seq<Observation>)
    ensures |Periods(rows)| < 3 ==> TrainingGroups(rows) == Failure(TooFewPeriods)
    ensures 3 <= |Periods(rows)| < 8 ==> TrainingGroups(rows) == Failure(TooFewCalibrationPeriods)
    ensures TrainingGroups(rows).Success? ==>
      var g, n := TrainingGroups(rows).value, |Periods(rows)|;
      var fit, evaluation, holdout := |Periods(g.fit)|, |Periods(g.evaluation)|, |Periods(g.holdout)|;
      && -2 <= 5 * holdout - n <= 2 && fit + evaluation == holdout && fit == holdout / 2
      && |Periods(g.training)| + 2 * holdout == n
  {
    hide Sort, Periods, Round, ValidationPeriods;
    TrainingNeedsEightPeriods(rows);
    DefaultSplitSucceeds(rows);
    if |Periods(rows)| >= 3 {
      DefaultShares(rows);
      var validation := Split(rows, 0.2, 0.2).value.validation;
      CalibrationHasNoLeak(validation);
      if |Periods(validation)| >= 2 {
        CalibrationHalves(validation);
      }
    }
  }
}
