/**
 The verdict of an assessment (`_median` and `_decision_v1` of `assessments.py`), which the archive validator applies
 again to the retained measurements. Rates are reals.
 */
module Verdicts {
  import opened Options

  datatype Outcome = Pass | Fail | Inconclusive

  datatype Remark =
    | InsufficientTrials | InsufficientBaselines | IncompatibleMethodology | NoCriterion | ToleranceWithoutBaseline
    | CriteriaSatisfied | BelowRequired | MeasurementUnavailable | ZeroBaseline

  /** Inclusive criteria; the relative tolerance lies between zero and one. */
  datatype Criteria = Criteria(
    minimumTrials: nat, minimumBaselines: nat, minimumBps: Option<real>, absoluteTolerance: real, relativeTolerance: real)

  datatype Verdict = Verdict(
    outcome: Outcome, current: Option<real>, baseline: Option<real>, threshold: Option<real>, relative: Option<real>,
    remarks: seq<Remark>)

  // ---- The median ---------------------------------------------------------------------------

  function Insert(x: real, s: seq<real>): seq<real> {
    if s == [] || x <= s[0] then [x] + s else [s[0]] + Insert(x, s[1..])
  }

  function Sort(s: seq<real>): seq<real> { if s == [] then [] else Insert(s[0], Sort(s[1..])) }

  predicate Ascending(s: seq<real>) { forall i, j :: 0 <= i < j < |s| ==> s[i] <= s[j] }

  function AtMost(s: seq<real>, m: real): nat { if s == [] then 0 else (if s[0] <= m then 1 else 0) + AtMost(s[1..], m) }

  function AtLeast(s: seq<real>, m: real): nat { if s == [] then 0 else (if s[0] >= m then 1 else 0) + AtLeast(s[1..], m) }

  lemma {:induction false} InsertCounts(x: real, s: seq<real>, m: real)
    ensures AtMost(Insert(x, s), m) == AtMost(s, m) + if x <= m then 1 else 0
    ensures AtLeast(Insert(x, s), m) == AtLeast(s, m) + if x >= m then 1 else 0
    ensures |Insert(x, s)| == |s| + 1
  {
    if s == [] || x <= s[0] {
      assert ([x] + s)[1..] == s;
    } else {
      InsertCounts(x, s[1..], m);
      assert ([s[0]] + Insert(x, s[1..]))[1..] == Insert(x, s[1..]);
    }
  }

  lemma {:induction false} InsertSorts(x: real, s: seq<real>)
    requires Ascending(s)
    ensures Ascending(Insert(x, s)) && Insert(x, s) != []
    ensures Insert(x, s)[0] == if s == [] || x <= s[0] then x else s[0]
  {
    if s != [] && x > s[0] { InsertSorts(x, s[1..]); }
  }

  /** Sorting keeps how many values lie on either side of any bound. */
  lemma {:induction false} SortCounts(s: seq<real>, m: real)
    ensures |Sort(s)| == |s| && AtMost(Sort(s), m) == AtMost(s, m) && AtLeast(Sort(s), m) == AtLeast(s, m)
  {
    if s != [] {
      SortCounts(s[1..], m);
      InsertCounts(s[0], Sort(s[1..]), m);
    }
  }

  lemma {:induction false} SortSorts(s: seq<real>)
    ensures Ascending(Sort(s)) && |Sort(s)| == |s|
  {
    if s != [] {
      SortSorts(s[1..]);
      InsertSorts(s[0], Sort(s[1..]));
      InsertCounts(s[0], Sort(s[1..]), 0.0);
    }
  }

  lemma {:induction false} PrefixCounts(s: seq<real>, k: nat, m: real)
    requires k <= |s| && forall i :: 0 <= i < k ==> s[i] <= m
    ensures AtMost(s, m) >= k
  {
    if k > 0 { PrefixCounts(s[1..], k - 1, m); }
  }

  lemma {:induction false} SuffixCounts(s: seq<real>, k: nat, m: real)
    requires k <= |s| && forall i :: |s| - k <= i < |s| ==> s[i] >= m
    ensures AtLeast(s, m) >= k
  {
    if k > 0 { SuffixCounts(s[1..], if k < |s| then k else k - 1, m); }
  }

  /** `_median`. */
  function Median(values: seq<real>): (m: Option<real>)
    ensures m.None? <==> values == []
  {
    if values == [] then None
    else
      SortSorts(values);
      Some(Middle(Sort(values)))
  }

  function Middle(ordered: seq<real>): real
    requires ordered != []
  {
    var middle := |ordered| / 2;
    if |ordered| % 2 == 1 then ordered[middle]
    else ordered[middle - 1] + (ordered[middle] - ordered[middle - 1]) / 2.0
  }

  lemma MiddleDivides(s: seq<real>, k: nat)
    requires Ascending(s) && s != [] && k == (|s| + 1) / 2
    ensures forall i :: 0 <= i < k ==> s[i] <= Middle(s)
    ensures forall i :: |s| - k <= i < |s| ==> s[i] >= Middle(s)
  {
    var middle := |s| / 2;
    if |s| % 2 == 1 {
      assert k == middle + 1;
    } else {
      assert k == middle && s[middle - 1] <= s[middle];
      assert s[middle - 1] <= Middle(s) <= s[middle];
    }
  }

  /** At least half of the values are no larger than the median, and at least half are no smaller. */
  lemma MedianHalves(values: seq<real>)
    requires values != []
    ensures 2 * AtMost(values, Median(values).value) >= |values| && 2 * AtLeast(values, Median(values).value) >= |values|
  {
    hide Sort, AtMost, AtLeast, Ascending, Middle;
    SortSorts(values);
    var m := Median(values).value;
    SortCounts(values, m);
    MiddleDivides(Sort(values), (|values| + 1) / 2);
    PrefixCounts(Sort(values), (|values| + 1) / 2, m);
    SuffixCounts(Sort(values), (|values| + 1) / 2, m);
  }

  // ---- The decision -------------------------------------------------------------------------

  function Larger(a: real, b: real): real { if a >= b then a else b }

  /** The strictest demanded rate, tolerated downwards but never below zero. */
  function Threshold(c: Criteria, baseline: Option<real>): Option<real> {
    var relative := if baseline.Some? then Some(baseline.value * (1.0 - c.relativeTolerance)) else None;
    if c.minimumBps.None? && relative.None? then None
    else
      var strictest :=
        if relative.None? then c.minimumBps.value
        else if c.minimumBps.None? then relative.value
        else Larger(c.minimumBps.value, relative.value);
      Some(Larger(0.0, strictest - c.absoluteTolerance))
  }

  /** Why nothing can be decided. */
  function Obstacles(c: Criteria, trials: nat, baselines: nat, requested: bool, compatible: bool): seq<Remark> {
    (if trials < c.minimumTrials then [InsufficientTrials] else [])
    + (if requested && baselines < c.minimumBaselines then [InsufficientBaselines] else [])
    + (if !compatible then [IncompatibleMethodology] else [])
    + (if !requested && c.minimumBps.None? then [NoCriterion] else [])
    + if !requested && c.relativeTolerance != 0.0 then [ToleranceWithoutBaseline] else []
  }

  /** `_decision_v1`. */
  function Decide(c: Criteria, measured: seq<real>, baselines: seq<real>, requested: bool, compatible: bool): Verdict {
    var current, baseline := Median(measured), Median(baselines);
    var threshold := Threshold(c, if requested then baseline else None);
    var relative :=
      if current.Some? && baseline.Some? && baseline.value > 0.0 then Some((current.value - baseline.value) / baseline.value)
      else None;
    var obstacles := Obstacles(c, |measured|, |baselines|, requested, compatible);
    var (outcome, remarks) :=
      if obstacles != [] then (Inconclusive, obstacles)
      else if current.Some? && threshold.Some? then
        if current.value >= threshold.value then (Pass, [CriteriaSatisfied]) else (Fail, [BelowRequired])
      else (Inconclusive, [MeasurementUnavailable]);
    Verdict(outcome, current, baseline, threshold, relative, remarks + if baseline == Some(0.0) then [ZeroBaseline] else [])
  }

  /** The median meets every criterion that is set, within the absolute tolerance. */
  predicate Meets(c: Criteria, m: real, baseline: Option<real>) {
    && m >= 0.0
    && (c.minimumBps.Some? ==> m >= c.minimumBps.value - c.absoluteTolerance)
    && (baseline.Some? ==> m >= baseline.value * (1.0 - c.relativeTolerance) - c.absoluteTolerance)
  }

  /** Compatible evidence, enough of it, and a criterion that can be applied. */
  predicate Decidable(c: Criteria, measured: seq<real>, baselines: seq<real>, requested: bool, compatible: bool) {
    && compatible && |measured| >= c.minimumTrials && measured != []
    && if requested then |baselines| >= c.minimumBaselines && (c.minimumBps.Some? || baselines != [])
       else c.minimumBps.Some? && c.relativeTolerance == 0.0
  }

  /** A pass means decidable evidence and a median that meets every criterion set. */
  lemma PassMeans(c: Criteria, measured: seq<real>, baselines: seq<real>, requested: bool, compatible: bool)
    ensures Decide(c, measured, baselines, requested, compatible).outcome == Pass <==>
      && Decidable(c, measured, baselines, requested, compatible)
      && Meets(c, Median(measured).value, if requested then Median(baselines) else None)
  {
    hide Median;
  }

  /** A failure means decidable evidence and a median that misses some criterion set; everything else is inconclusive. */
  lemma FailMeans(c: Criteria, measured: seq<real>, baselines: seq<real>, requested: bool, compatible: bool)
    ensures Decide(c, measured, baselines, requested, compatible).outcome == Fail <==>
      && Decidable(c, measured, baselines, requested, compatible)
      && !Meets(c, Median(measured).value, if requested then Median(baselines) else None)
    ensures Decide(c, measured, baselines, requested, compatible).outcome == Inconclusive <==>
      !Decidable(c, measured, baselines, requested, compatible)
  {
    hide Median;
  }

  /** The figures reported: both medians, the least rate that meets the criteria, and the change from the baseline. */
  lemma FiguresMean(c: Criteria, measured: seq<real>, baselines: seq<real>, requested: bool, compatible: bool)
    ensures var v := Decide(c, measured, baselines, requested, compatible);
      var against := if requested then Median(baselines) else None;
      && v.current == Median(measured) && v.baseline == Median(baselines)
      && (v.threshold.Some? <==> c.minimumBps.Some? || against.Some?)
      && (v.threshold.Some? ==> forall m: real :: m >= v.threshold.value <==> Meets(c, m, against))
      && (v.relative.Some? <==> measured != [] && baselines != [] && Median(baselines).value > 0.0)
      && (v.relative.Some? ==> Median(baselines).value * (1.0 + v.relative.value) == Median(measured).value)
  {
    hide Median;
    var v := Decide(c, measured, baselines, requested, compatible);
    if v.relative.Some? { RelativeChange(Median(measured).value, Median(baselines).value); }
  }

  lemma RelativeChange(current: real, baseline: real)
    requires baseline > 0.0
    ensures baseline * (1.0 + (current - baseline) / baseline) == current
  {
    assert (current - baseline) / baseline * baseline == current - baseline;
  }

  /** Every remark is made exactly when it is true. */
  predicate RemarkHolds(r: Remark, c: Criteria, measured: seq<real>, baselines: seq<real>, requested: bool, compatible: bool) {
    match r
    case InsufficientTrials => |measured| < c.minimumTrials
    case InsufficientBaselines => requested && |baselines| < c.minimumBaselines
    case IncompatibleMethodology => !compatible
    case NoCriterion => !requested && c.minimumBps.None?
    case ToleranceWithoutBaseline => !requested && c.relativeTolerance != 0.0
    case ZeroBaseline => baselines != [] && Median(baselines).value == 0.0
    case CriteriaSatisfied =>
      Decidable(c, measured, baselines, requested, compatible)
      && Meets(c, Median(measured).value, if requested then Median(baselines) else None)
    case BelowRequired =>
      Decidable(c, measured, baselines, requested, compatible)
      && !Meets(c, Median(measured).value, if requested then Median(baselines) else None)
    case MeasurementUnavailable =>
      // No obstacle, and yet nothing measured or nothing to measure against: only where no trial or baseline is demanded.
      && |measured| >= c.minimumTrials && compatible
      && (if requested then |baselines| >= c.minimumBaselines else c.minimumBps.Some? && c.relativeTolerance == 0.0)
      && (measured == [] || (requested && baselines == [] && c.minimumBps.None?))
  }

  lemma RemarksMean(c: Criteria, measured: seq<real>, baselines: seq<real>, requested: bool, compatible: bool, r: Remark)
    ensures r in Decide(c, measured, baselines, requested, compatible).remarks
      <==> RemarkHolds(r, c, measured, baselines, requested, compatible)
  {
    hide Median;
    ObstaclesMean(c, |measured|, |baselines|, requested, compatible, r);
    PassMeans(c, measured, baselines, requested, compatible);
    FailMeans(c, measured, baselines, requested, compatible);
  }

  lemma ObstaclesMean(c: Criteria, trials: nat, baselines: nat, requested: bool, compatible: bool, r: Remark)
    ensures var found := Obstacles(c, trials, baselines, requested, compatible);
      && (r in found <==>
          || (r == InsufficientTrials && trials < c.minimumTrials)
          || (r == InsufficientBaselines && requested && baselines < c.minimumBaselines)
          || (r == IncompatibleMethodology && !compatible)
          || (r == NoCriterion && !requested && c.minimumBps.None?)
          || (r == ToleranceWithoutBaseline && !requested && c.relativeTolerance != 0.0))
      && (found == [] <==>
          trials >= c.minimumTrials && (requested ==> baselines >= c.minimumBaselines) && compatible
          && (requested || (c.minimumBps.Some? && c.relativeTolerance == 0.0)))
  {}
}
