/** How many blocks a fit has, and so when its parameters are accepted, by the input alone. */
module IsotonicLength {
  import opened Basics
  import opened Sorting
  import opened Isotonic
  import opened IsotonicStructure
  import opened IsotonicOptimality
  import opened IsotonicTheorem
  import opened IsotonicBoundaries
  import opened IsotonicSurvivors
  import opened IsotonicTies

  /** Where the blocks start, the first one and those from the `m`-th on left out. */
  function StartsUpTo(blocks: seq<Block>, m: int): set<int>
    requires m <= |blocks|
  {
    set k | 0 < k < m :: Pos(blocks, k)
  }

  lemma {:induction false} CountStarts(blocks: seq<Block>, m: int)
    requires Weighted(blocks) && 0 < m <= |blocks|
    ensures |StartsUpTo(blocks, m)| == m - 1
    decreases m
  {
    hide Pos;
    if m == 1 {
      assert StartsUpTo(blocks, m) == {};
    } else {
      CountStarts(blocks, m - 1);
      assert StartsUpTo(blocks, m) == StartsUpTo(blocks, m - 1) + {Pos(blocks, m - 1)};
      forall k | 0 < k < m - 1 ensures Pos(blocks, k) != Pos(blocks, m - 1) {
        PosRises(blocks, k, m - 1);
      }
    }
  }

  /** The starts of the fit's blocks are the rises that nothing outweighs. */
  lemma {:induction false} StartsAreKept(ys: seq<Sample>)
    requires SortedBy(SampleLe, ys)
    ensures StartsUpTo(Fit(ys), |Fit(ys)|) == Kept(ys)
  {
    hide Fit, Pos, Covers, Outweighed, Rises;
    var blocks := Fit(ys);
    FitStructure(ys);
    PrefixCovers(blocks, |blocks|, ys);
    StartsAtZero(blocks);
    forall p | p in Kept(ys) ensures p in StartsUpTo(blocks, |blocks|) {
      BoundariesAreKept(ys, p);
      var k :| 0 <= k <= |blocks| && Pos(blocks, k) == p;
      assert k != 0 && k != |blocks|;
    }
    forall k | 0 < k < |blocks| ensures Pos(blocks, k) in Kept(ys) {
      PosRises(blocks, 0, k);
      PosRises(blocks, k, |blocks|);
      assert IsBoundary(blocks, Pos(blocks, k));
      BoundariesAreKept(ys, Pos(blocks, k));
    }
  }

  /** A fit has one block more than there are rises that nothing outweighs. */
  lemma {:induction false} FitLength(samples: seq<Sample>)
    requires samples != []
    ensures |FitOf(samples)| == 1 + |Kept(Ordered(samples))|
  {
    hide Fit, Sort, Kept;
    SortedFit(samples);
    StartsAreKept(Ordered(samples));
    CountStarts(FitOf(samples), |FitOf(samples)|);
  }

  /** The model validation accepts a fit exactly when fewer than 5000 rises of the ordered samples are not
      outweighed. */
  lemma {:induction false} FitIsValidIff(samples: seq<Sample>)
    requires Binary(samples) && samples != []
    ensures ValidParameters(Parameters(FitOf(samples))) <==> |Kept(Ordered(samples))| < 5000
  {
    hide Fit, Sort, Kept, ValidParameters, Parameters;
    FitLength(samples);
    FitIsValidUnlessTooLong(samples);
  }

  /** Without samples there is nothing to store, and the validation refuses that too. */
  lemma {:induction false} EmptyFitIsRefused()
    ensures !ValidParameters(Parameters(FitOf([])))
  {
    assert Parameters(FitOf([])) == [];
  }

  // ---- harmless ties ----

  /** The rises that nothing pulls over, whatever the blocks before them. */
  ghost function Unpulled(ys: seq<Sample>): set<int> {
    set p | 0 < p < |ys| && Rises(ys, p) && !Pulled(ys, p)
  }

  lemma {:induction false} UnpulledAreKept(ys: seq<Sample>)
    ensures Unpulled(ys) <= Kept(ys)
  {
    hide Outweighed, Pulled;
    forall p | p in Unpulled(ys) ensures p in Kept(ys) {
      if Outweighed(ys, p, |ys|) {
        OutweighedIsPulled(ys, p, |ys|);
      }
    }
  }

  lemma {:induction false} KeptIsUnpulled(samples: seq<Sample>, p: int)
    requires PoolsAreSafe(samples) && p in Kept(Ordered(samples))
    ensures !Pulled(Ordered(samples), p)
  {
    hide Fit, Sort, Pos, Covers, SafelyPooled, Outweighed, Rises, Pulled, RightIsHigh;
    var ys, blocks := Ordered(samples), FitOf(samples);
    SortedFit(samples);
    FitRightIsHigh(ys);
    BoundariesAreKept(ys, p);
    PrefixCovers(blocks, |blocks|, ys);
    StartsAtZero(blocks);
    var k :| 0 <= k <= |blocks| && Pos(blocks, k) == p;
    SurvivorIsNotPulled(blocks, ys, k);
  }

  /** With harmless ties nothing but the means on both sides of a rise decides. */
  lemma {:induction false} HarmlessTiesKeepUnpulled(samples: seq<Sample>)
    requires samples != [] && HarmlessTies(samples)
    ensures Kept(Ordered(samples)) == Unpulled(Ordered(samples))
  {
    hide Fit, Sort, LeastSquares, HarmlessTies, PoolsAreSafe, Pulled, Outweighed, Rises;
    FitIsOptimalIff(samples);
    SafePoolsAreOptimalIff(samples);
    UnpulledAreKept(Ordered(samples));
    forall p | p in Kept(Ordered(samples)) ensures p in Unpulled(Ordered(samples)) {
      KeptIsUnpulled(samples, p);
    }
  }

  /** Where the ties are harmless, a fit is accepted exactly when fewer than 5000 rises are not pulled over. */
  lemma {:induction false} HarmlessFitIsValidIff(samples: seq<Sample>)
    requires Binary(samples) && samples != [] && HarmlessTies(samples)
    ensures |FitOf(samples)| == 1 + |Unpulled(Ordered(samples))|
    ensures ValidParameters(Parameters(FitOf(samples))) <==> |Unpulled(Ordered(samples))| < 5000
  {
    hide Fit, Sort, Kept, Unpulled, HarmlessTies, ValidParameters, Parameters;
    HarmlessTiesKeepUnpulled(samples);
    FitLength(samples);
    FitIsValidIff(samples);
  }

  /** Samples without a score that carries both labels have harmless ties. */
  lemma {:induction false} OneLabelIsHarmless(samples: seq<Sample>)
    requires Binary(samples) && samples != [] && NoMixedTies(samples)
    ensures HarmlessTies(samples)
  {
    hide Fit, Sort, HarmlessTies, LeastSquares;
    FitIsOptimal(samples);
    FitIsOptimalIff(samples);
  }

  /** Whatever the ties, 5000 rises that are not pulled over make the validation refuse the fit. */
  lemma {:induction false} ManyRisesAreRefused(samples: seq<Sample>)
    requires Binary(samples) && samples != [] && |Unpulled(Ordered(samples))| >= 5000
    ensures !ValidParameters(Parameters(FitOf(samples)))
  {
    hide Fit, Sort, Kept, Unpulled, ValidParameters, Parameters;
    UnpulledAreKept(Ordered(samples));
    SubsetSize(Unpulled(Ordered(samples)), Kept(Ordered(samples)));
    FitIsValidIff(samples);
  }

  // ---- harmful ties ----

  /** The two ones at the score 1 pull the rise to the score 2 over, but the zeros before them are in the same
      block, whose mean of one half is not above that of the last two samples. */
  function HeavyTies(): seq<Sample> {
    [Sample(0.0, 0), Sample(0.0, 0), Sample(0.0, 1), Sample(1.0, 0), Sample(1.0, 1), Sample(1.0, 1),
     Sample(2.0, 1), Sample(3.0, 0)]
  }

  lemma {:induction false} PartStep(ys: seq<Sample>, i: int, j: int)
    requires 0 <= i <= j < |ys|
    ensures Part(ys, i, j + 1) == Part(ys, i, j) + ys[j].outcome
  {
    assert ys[i..j + 1][..j - i] == ys[i..j];
  }

  lemma {:induction false} HeavyParts()
    ensures var t := HeavyTies();
      && Part(t, 0, 3) == 1 && Part(t, 3, 4) == 0 && Part(t, 3, 6) == 2 && Part(t, 0, 6) == 3
      && Part(t, 6, 7) == 1 && Part(t, 6, 8) == 1
  {
    hide Part;
    var t := HeavyTies();
    NoPart(t, 0);
    NoPart(t, 3);
    NoPart(t, 6);
    PartStep(t, 0, 0);
    PartStep(t, 0, 1);
    PartStep(t, 0, 2);
    PartStep(t, 3, 3);
    PartStep(t, 3, 4);
    PartStep(t, 3, 5);
    PartStep(t, 6, 6);
    PartStep(t, 6, 7);
    PartsAdd(t, 0, 3, 6);
  }

  /** With harmful ties a rise can stay although it is pulled over. */
  lemma {:induction false} PulledRisesCanStay()
    ensures Binary(HeavyTies()) && Ordered(HeavyTies()) == HeavyTies()
    ensures 6 in Kept(HeavyTies()) && 6 !in Unpulled(HeavyTies())
  {
    hide Part, Sort, Start;
    var t := HeavyTies();
    SortedIsKept(t);
    HeavyParts();
    HeavyStarts(t);
    assert StartsGroup(t, 3) && Falls(t, 3, 6, 8);
  }

  lemma {:induction false} HeavyStarts(t: seq<Sample>)
    requires t == HeavyTies()
    ensures Start(t, 6) == 0
  {
    hide Part, StartFrom;
    HeavyParts();
    StartIsLatest(t, 3, 2, 0);
    assert Falls(t, Start(t, 3), 3, 4);
    assert Outweighed(t, 3, 6);
    StartIsLatest(t, 6, 5, 0);
  }
}
