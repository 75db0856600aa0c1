/**
 What a decision of the search says (`adaptive.py`, `_choose_v1`): why a rate is confirmed or an interval split, and
 what each reason to stop rules out, in terms of the tested rates, their statuses and the budgets.
 */
module AdaptiveChoice {
  import opened Options
  import opened PlanOutcomes
  import opened AdaptiveSearch
  import opened AdaptiveHistory

  /** Neighbouring tested rates with different outcomes and a rate between them. */
  ghost predicate Open(p: Search, h: History, i: nat)
    requires AllRecorded(h)
  {
    var t := Tested(h);
    && i + 1 < |t| && t[i] + 1 < t[i + 1]
    && Differ(StatusOf(p, h, t[i]), StatusOf(p, h, t[i + 1]))
  }

  ghost predicate Splittable(p: Search, h: History, i: nat)
    requires AllRecorded(h)
  {
    var t := Tested(h);
    Open(p, h, i) && Depth(h, t[i]) < p.limits.maxDepth && Depth(h, t[i + 1]) < p.limits.maxDepth
  }

  /** No provisional rate lies above every eligible one. */
  ghost predicate NothingPromising(p: Search, h: History)
    requires AllRecorded(h)
  {
    forall r: nat :: r in Tested(h) && StatusOf(p, h, r) == Provisional ==>
      exists s :: s in Tested(h) && StatusOf(p, h, s) == Eligible && r <= s
  }

  ghost predicate AboveEligible(p: Search, h: History, rate: nat)
    requires AllRecorded(h)
  {
    forall s :: s in Tested(h) && StatusOf(p, h, s) == Eligible ==> s < rate
  }

  /** The batch fits the three budgets on top of everything reserved before; payload is rounded up once. */
  predicate Fits(p: Search, h: History, rates: seq<nat>) {
    && UsedTrials(h) + |Specs(p, rates)| <= p.policy.maxTrials
    && UsedActive(p, h) + ActiveOf(p, Specs(p, rates)) <= p.maxActive
    && UsedBits(p, h) + BitsOf(p, Specs(p, rates)) <= 8 * p.maxPayload
  }

  /** The budget a refused batch would have broken. */
  predicate Breaks(p: Search, h: History, rates: seq<nat>, reason: End) {
    match reason
    case TrialCountLimit => UsedTrials(h) + |Specs(p, rates)| > p.policy.maxTrials
    case ActiveTimeLimit => UsedActive(p, h) + ActiveOf(p, Specs(p, rates)) > p.maxActive
    case PayloadLimit => UsedBits(p, h) + BitsOf(p, Specs(p, rates)) > 8 * p.maxPayload
    case _ => false
  }

  /** A batch is reserved exactly when it fits all three budgets, and a refusal names one that it would break. */
  lemma ReservationMeans(p: Search, h: History, rates: seq<nat>, reason: Reason, depth: nat)
    ensures MakeBatch(p, h, rates, reason, depth).Ok? <==> Fits(p, h, rates)
    ensures var r := MakeBatch(p, h, rates, reason, depth);
      if r.Ok? then r.value.rates == rates && r.value.reason == reason && r.value.depth == depth
      else r.error in {TrialCountLimit, ActiveTimeLimit, PayloadLimit} && Breaks(p, h, rates, r.error)
  {
    hide Specs, ActiveOf, BitsOf, UsedActive, UsedBits, UsedTrials;
    SpecsCount(p, rates);
  }

  lemma PromisingMeans(p: Search, h: History)
    requires AllRecorded(h) && forall r :: r in Tested(h) ==> r > 0
    ensures var t := Tested(h); var r := Promising(p, h, t);
      && (r.None? ==> NothingPromising(p, h))
      && (r.Some? ==>
            && StatusOf(p, h, t[r.value]) == Provisional && AboveEligible(p, h, t[r.value])
            && forall s :: s in t && StatusOf(p, h, s) == Provisional ==> s <= t[r.value])
  {
    hide StatusOf, Tested;
    var t := Tested(h);
    TestedIsSorted(h);
    var r := Promising(p, h, t);
    EligibleIsBelow(p, h);
    forall s | s in t && StatusOf(p, h, s) == Provisional && s > HighestEligible(p, h, t) ensures r.Some? && s <= t[r.value] {
      var i :| 0 <= i < |t| && t[i] == s;
      if i < r.value { assert t[i] < t[r.value]; }
    }
    if r.None? {
      forall s: nat | s in t && StatusOf(p, h, s) == Provisional
        ensures exists e :: e in t && StatusOf(p, h, e) == Eligible && s <= e
      {
        assert HighestEligible(p, h, t) >= s > 0;
      }
    }
  }

  lemma EligibleIsBelow(p: Search, h: History)
    requires AllRecorded(h)
    ensures var t := Tested(h); var top := HighestEligible(p, h, t);
      && (forall s :: s in t && StatusOf(p, h, s) == Eligible ==> s <= top)
      && (top > 0 ==> top in t && StatusOf(p, h, top) == Eligible)
  {
    hide StatusOf, Tested;
    var t := Tested(h);
    TestedIsSorted(h);
    forall s | s in t && StatusOf(p, h, s) == Eligible ensures s <= HighestEligible(p, h, t) {
      var i :| 0 <= i < |t| && t[i] == s;
      if i < LastEligible(p, h, t).value { assert t[i] < t[LastEligible(p, h, t).value]; }
    }
  }

  lemma RefinableMeans(p: Search, h: History, i: nat)
    requires AllRecorded(h) && i + 1 < |Tested(h)|
    ensures IntegerInterval(p, h, Tested(h), i) <==> Open(p, h, i)
    ensures Refinable(p, h, Tested(h), i) <==> Splittable(p, h, i)
  {
    hide StatusOf, Tested, Depth, Differing, Differ;
    DifferingMeans(p, h, Tested(h), i);
  }

  // ---- What is run next ---------------------------------------------------------------------

  /** Confirm the highest provisional rate, which lies above every eligible one. */
  ghost predicate Confirms(p: Search, h: History, rates: seq<nat>, depth: nat)
    requires AllRecorded(h)
  {
    exists rate: nat ::
      && rates == [rate] && depth == Depth(h, rate) && rate in Tested(h)
      && StatusOf(p, h, rate) == Provisional && AboveEligible(p, h, rate)
      && forall s :: s in Tested(h) && StatusOf(p, h, s) == Provisional ==> s <= rate
  }

  /** Split the topmost open interval that may still be split, with nothing left to confirm. */
  ghost predicate Splits(p: Search, h: History, rates: seq<nat>, depth: nat)
    requires AllRecorded(h)
  {
    && NothingPromising(p, h) && |Tested(h)| < p.limits.maxDistinct
    && exists i: nat ::
      && Splittable(p, h, i) && (forall j: nat :: Splittable(p, h, j) ==> j <= i)
      && rates == [(Tested(h)[i] + Tested(h)[i + 1]) / 2]
      && depth > Depth(h, Tested(h)[i]) && depth > Depth(h, Tested(h)[i + 1])
      && (depth == Depth(h, Tested(h)[i]) + 1 || depth == Depth(h, Tested(h)[i + 1]) + 1)
  }

  ghost predicate Wanted(p: Search, h: History, rates: seq<nat>, depth: nat)
    requires AllRecorded(h)
  {
    Confirms(p, h, rates, depth) || Splits(p, h, rates, depth)
  }

  ghost predicate Stopped(h: History) { exists k :: 0 <= k < |h| && h[k].stopped }

  /** What running a batch says. */
  ghost predicate RunsFor(p: Search, h: History, b: Batch)
    requires AllRecorded(h)
  {
    && !Stopped(h) && Fits(p, h, b.rates)
    && (b.reason == Confirm ==> Confirms(p, h, b.rates, b.depth))
    && (b.reason == Refine ==> Splits(p, h, b.rates, b.depth))
    && b.reason != InitialGrid
  }

  /** What a reason to stop says. */
  ghost predicate EndsFor(p: Search, h: History, reason: End)
    requires AllRecorded(h)
  {
    var t := Tested(h);
    match reason
    case ExecutionStopped => Stopped(h)
    case DepthLimit =>
      NothingPromising(p, h) && (forall i: nat :: !Splittable(p, h, i)) && exists i: nat :: Open(p, h, i)
    case GridExhausted => NothingPromising(p, h) && forall i: nat :: !Open(p, h, i)
    case NoDifferingOutcomes =>
      NothingPromising(p, h) && forall i: nat :: i + 1 < |t| ==> !Differ(StatusOf(p, h, t[i]), StatusOf(p, h, t[i + 1]))
    case DistinctRateLimit => NothingPromising(p, h) && |t| >= p.limits.maxDistinct && exists i: nat :: Splittable(p, h, i)
    case _ => exists rates: seq<nat>, depth: nat :: Wanted(p, h, rates, depth) && Breaks(p, h, rates, reason)
  }

  ghost predicate Grounded(p: Search, h: History, decision: Decision)
    requires AllRecorded(h)
  {
    if decision.Next? then RunsFor(p, h, decision.batch) else EndsFor(p, h, decision.reason)
  }

  /** Every decision after the first batch has the grounds its reason names. */
  lemma DecisionMeans(p: Search, h: History)
    requires Prepared(p) && Conforming(p, h) && h != []
    ensures AllRecorded(h) && Grounded(p, h, Choose(p, h))
  {
    hide Prepared, Conforming, StatusOf, Tested, Depth, Differ, Differing, MakeBatch, Fits, Breaks, NothingPromising,
      Splittable, Open;
    ConformingIsRecorded(p, h);
    TestedWithinLimits(p, h);
    AtLeastOne(p);
    PromisingMeans(p, h);
    var t := Tested(h);
    match Promising(p, h, t)
    case Some(i) =>
      assert t[i] in t;
      ReservationMeans(p, h, [t[i]], Confirm, Depth(h, t[i]));
      assert Wanted(p, h, [t[i]], Depth(h, t[i]));
    case None => SplitOrEnd(p, h);
  }

  lemma SplitOrEnd(p: Search, h: History)
    requires h != [] && AllRecorded(h) && Promising(p, h, Tested(h)).None? && NothingPromising(p, h)
    ensures Grounded(p, h, Choose(p, h))
  {
    hide StatusOf, Tested, Depth, Differ, Differing, MakeBatch, Fits, Breaks, NothingPromising, Promising, IntegerInterval,
      Refinable, Open, Splittable, LastRefinable, Splits;
    var t := Tested(h);
    NeighboursMean(p, h);
    OnlyNeighbours(p, h);
    match LastRefinable(p, h, t)
    case None =>
    case Some(i) =>
      var mid := (t[i] + t[i + 1]) / 2;
      ReservationMeans(p, h, [mid], Refine, PairDepth(h, t, i) + 1);
      if |t| < p.limits.maxDistinct {
        SplitsTopmost(p, h, i);
        assert Wanted(p, h, [mid], PairDepth(h, t, i) + 1);
      }
  }

  lemma SplitsTopmost(p: Search, h: History, i: nat)
    requires AllRecorded(h) && NothingPromising(p, h) && |Tested(h)| < p.limits.maxDistinct
    requires Splittable(p, h, i) && forall j: nat :: Splittable(p, h, j) ==> j <= i
    ensures i + 1 < |Tested(h)| && Splits(p, h, [(Tested(h)[i] + Tested(h)[i + 1]) / 2], PairDepth(h, Tested(h), i) + 1)
  {
    hide StatusOf, Tested, Depth, Differ, NothingPromising;
  }

  lemma NeighboursMean(p: Search, h: History)
    requires AllRecorded(h)
    ensures var t := Tested(h);
      forall i: nat :: i + 1 < |t| ==>
        && (IntegerInterval(p, h, t, i) <==> Open(p, h, i))
        && (Refinable(p, h, t, i) <==> Splittable(p, h, i))
        && (Differing(p, h, t, i) <==> Differ(StatusOf(p, h, t[i]), StatusOf(p, h, t[i + 1])))
  {
    hide StatusOf, Tested, Depth, Differ, Differing, IntegerInterval, Refinable, Open, Splittable;
    var t := Tested(h);
    forall i: nat | i + 1 < |t|
      ensures IntegerInterval(p, h, t, i) <==> Open(p, h, i)
      ensures Refinable(p, h, t, i) <==> Splittable(p, h, i)
      ensures Differing(p, h, t, i) <==> Differ(StatusOf(p, h, t[i]), StatusOf(p, h, t[i + 1]))
    {
      RefinableMeans(p, h, i);
      DifferingMeans(p, h, t, i);
    }
  }

  lemma OnlyNeighbours(p: Search, h: History)
    requires AllRecorded(h)
    ensures forall i: nat :: Open(p, h, i) || Splittable(p, h, i) ==> i + 1 < |Tested(h)|
  {
    hide StatusOf, Tested, Depth, Differ;
  }

  // ---- Depths -------------------------------------------------------------------------------

  /** Batch `k` tests the rate for the first time. */
  ghost predicate Introduces(h: History, k: nat, rate: nat) {
    k < |h| && h[k].batch.reason != Confirm && rate in h[k].batch.rates
  }

  /** A rate enters once, and its depth is for good that of the batch which introduced it. */
  lemma {:induction false} DepthMeans(p: Search, h: History, rate: nat, k: nat)
    requires Prepared(p) && Conforming(p, h) && Introduces(h, k, rate)
    ensures Depth(h, rate) == h[k].batch.depth
    ensures forall j: nat :: Introduces(h, j, rate) ==> j == k
  {
    hide Choose, StatusOf, Prepared, Conforming, Tested;
    var g, last := h[..|h| - 1], h[|h| - 1];
    PrefixConforms(p, h);
    ConformingIsRecorded(p, g);
    StepCounts(p, g, last, rate);
    TestedIsSorted(g);
    assert forall j :: 0 <= j < |g| ==> g[j] == h[j];
    if k < |g| {
      assert Introduces(g, k, rate);
      DepthMeans(p, g, rate, k);
      assert forall j: nat :: j < |g| && Introduces(h, j, rate) ==> Introduces(g, j, rate);
    }
  }
}
