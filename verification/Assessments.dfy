/**
 Assessing retained trials (`assessments.py`) against the report validator that re-derives every selection
 (`reports.py`): endpoint summaries agree, and every trial and baseline is counted exactly once.
 */
module Assessments {
  import opened Options
  import opened PlanOutcomes
  import opened JsonFrames
  import opened Fingerprints
  import opened Compatibility
  import opened Verdicts

  datatype Direction = ClientToServer | ServerToClient
  datatype Endpoint = Sender | Receiver

  datatype Stats = Stats(
    direction: Option<Direction>, endpoint: Option<Endpoint>, bytes: Option<nat>, seconds: Option<real>, omitted: bool)

  datatype Flow = Flow(direction: Direction, sender: Option<Stats>, receiver: Option<Stats>)

  datatype Artifact = Artifact(ok: bool, failed: bool, flows: seq<Flow>, provenance: Provenance)

  datatype Policy = Policy(direction: Direction, endpoint: Endpoint, criteria: Criteria)

  predicate CompletedOk(a: Artifact) {
    a.ok && !a.failed && a.provenance.execution.Some? && a.provenance.execution.value.status == Succeeded
  }

  datatype Summary = Summary(flow: nat, bytes: nat, seconds: real, rate: real)

  // ---- One endpoint summary, twice ----------------------------------------------------------

  function StatsAt(f: Flow, e: Endpoint): Option<Stats> { if e == Sender then f.sender else f.receiver }

  /** The only flow of a direction, if there is exactly one. */
  function OnlyFlow(flows: seq<Flow>, d: Direction): Option<nat> {
    if CountFlows(flows, d) == 1 then Some(FirstFlow(flows, d)) else None
  }

  function CountFlows(flows: seq<Flow>, d: Direction): nat {
    if flows == [] then 0 else (if flows[0].direction == d then 1 else 0) + CountFlows(flows[1..], d)
  }

  function FirstFlow(flows: seq<Flow>, d: Direction): (i: nat)
    requires CountFlows(flows, d) > 0
    ensures i < |flows| && flows[i].direction == d
  {
    if flows[0].direction == d then 0 else 1 + FirstFlow(flows[1..], d)
  }

  predicate Conflicting(s: Stats, p: Policy) {
    (s.direction.Some? && s.direction.value != p.direction) || (s.endpoint.Some? && s.endpoint.value != p.endpoint)
  }

  predicate Measurable(s: Stats) { s.bytes.Some? && s.seconds.Some? && s.seconds.value > 0.0 && !s.omitted }

  function SummaryOf(i: nat, s: Stats): Summary
    requires Measurable(s)
  {
    Summary(i, s.bytes.value, s.seconds.value, 8.0 * (s.bytes.value as real) / s.seconds.value)
  }

  datatype Reading = Malformed | Insufficient | Usable(summary: Summary)

  /** `summary_throughput`: provenance and ranges are checked before the measurement is judged. */
  function SummaryThroughput(a: Artifact, p: Policy): Reading {
    if !(a.ok && !a.failed && (a.provenance.execution.None? || CompletedOk(a))) then Insufficient
    else
      match OnlyFlow(a.flows, p.direction)
      case None => Insufficient
      case Some(i) =>
        match StatsAt(a.flows[i], p.endpoint)
        case None => Insufficient
        case Some(s) =>
          if Conflicting(s, p) then Malformed
          else if s.seconds.Some? && s.seconds.value < 0.0 then Malformed
          else if Measurable(s) then Usable(SummaryOf(i, s))
          else Insufficient
  }

  /** `_summary_selection_v1`: metadata is required, and eligibility is judged before provenance. */
  function SelectV1(a: Artifact, p: Policy): Reading {
    if !CompletedOk(a) then Insufficient
    else
      match OnlyFlow(a.flows, p.direction)
      case None => Insufficient
      case Some(i) =>
        match StatsAt(a.flows[i], p.endpoint)
        case None => Insufficient
        case Some(s) =>
          if !Measurable(s) then Insufficient
          else if Conflicting(s, p) then Malformed
          else Usable(SummaryOf(i, s))
  }

  /** A successful result with one flow in the direction whose endpoint summary can be measured. */
  predicate HasMeasurement(a: Artifact, p: Policy) {
    a.ok && !a.failed && match OnlyFlow(a.flows, p.direction)
      case None => false
      case Some(i) => StatsAt(a.flows[i], p.endpoint).Some? && Measurable(StatsAt(a.flows[i], p.endpoint).value)
  }

  /** Unless the live side refuses the summary, the two agree exactly where execution metadata is present or not needed. */
  lemma SummariesAgree(a: Artifact, p: Policy)
    requires SummaryThroughput(a, p) != Malformed
    ensures SummaryThroughput(a, p) == SelectV1(a, p) <==> a.provenance.execution.Some? || !HasMeasurement(a, p)
  {
    hide OnlyFlow, FirstFlow;
  }

  /** `summary_throughput` also measures a bare result without metadata, which no report ever retains. */
  lemma BareResultsDiffer()
    ensures exists a: Artifact, p: Policy :: SummaryThroughput(a, p).Usable? && SelectV1(a, p) == Insufficient
  {
    var s := Stats(None, None, Some(1), Some(1.0), false);
    var a := Artifact(true, false, [Flow(ClientToServer, Some(s), None)], Provenance(Null, None, Null));
    var p := Policy(ClientToServer, Sender, Criteria(1, 1, None, 0.0, 0.0));
    assert a.flows[1..] == [];
    assert CountFlows(a.flows, ClientToServer) == 1 + CountFlows(a.flows[1..], ClientToServer);
    assert OnlyFlow(a.flows, ClientToServer) == Some(0);
    assert SummaryThroughput(a, p).Usable?;
  }

  // ---- Reports ------------------------------------------------------------------------------

  datatype TrialRecord = TrialRecord(id: string, warmup: bool, status: Status, artifact: Option<Artifact>)

  datatype Id = Trial(name: string) | Baseline(index: nat)

  datatype Measurement = Measurement(id: Id, summary: Summary)

  datatype Reason = WarmupRun | ExecutionStatus(status: Status) | InsufficientSummary

  datatype Exclusion = Exclusion(id: Id, reason: Reason)

  /** The evidence, the criteria, and who was measured or excluded. */
  datatype Selection = Selection(
    trials: seq<TrialRecord>, baselines: Option<seq<Artifact>>, policy: Policy, comparison: ComparisonPolicy,
    measurements: seq<Measurement>, baselineMeasurements: seq<Measurement>, exclusions: seq<Exclusion>)

  datatype Report = Report(selection: Selection, compatibility: Analysis<Id>, verdict: Verdict)

  /** A v1 execution history: unique trials, and a canonical artifact behind every completed one. */
  predicate RecordOk(t: TrialRecord) {
    && (t.artifact.Some? ==> Canonical(t.artifact.value))
    && (t.status == Completed ==> t.artifact.Some?)
  }

  /** No artifact is retained without execution metadata. */
  predicate Canonical(a: Artifact) { a.provenance.execution.Some? }

  ghost predicate EvidenceOk(trials: seq<TrialRecord>, baselines: Option<seq<Artifact>>) {
    && (forall i :: 0 <= i < |trials| ==> RecordOk(trials[i]))
    && (forall i, j :: 0 <= i < j < |trials| ==> trials[i].id != trials[j].id)
    && (baselines.Some? ==> forall i :: 0 <= i < |baselines.value| ==> Canonical(baselines.value[i]))
  }

  function BaselinesOf(baselines: Option<seq<Artifact>>): seq<Artifact> { if baselines.Some? then baselines.value else [] }

  /** What an identifier of the report refers to. */
  datatype Source = OfTrial(trial: TrialRecord) | OfBaseline(artifact: Artifact)

  function FindTrial(trials: seq<TrialRecord>, name: string): Option<TrialRecord> {
    if trials == [] then None else if trials[0].id == name then Some(trials[0]) else FindTrial(trials[1..], name)
  }

  function SourceOf(trials: seq<TrialRecord>, baselines: Option<seq<Artifact>>, id: Id): Option<Source> {
    match id
    case Trial(name) =>
      (match FindTrial(trials, name) case Some(t) => Some(OfTrial(t)) case None => None)
    case Baseline(i) => if i < |BaselinesOf(baselines)| then Some(OfBaseline(BaselinesOf(baselines)[i])) else None
  }

  function ArtifactOf(s: Source): Option<Artifact> {
    match s
    case OfTrial(t) => t.artifact
    case OfBaseline(a) => Some(a)
  }

  /** Why a source may not be measured, before its summary is looked at. */
  function Barred(s: Source): Option<Reason> {
    match s
    case OfTrial(t) =>
      if t.warmup then Some(WarmupRun) else if t.status != Completed then Some(ExecutionStatus(t.status)) else None
    case OfBaseline(_) => None
  }

  predicate MeasurementOk(s: Option<Source>, p: Policy, m: Measurement) {
    && s.Some? && Barred(s.value).None? && ArtifactOf(s.value).Some?
    && SelectV1(ArtifactOf(s.value).value, p) == Usable(m.summary)
  }

  predicate ExclusionOk(s: Option<Source>, p: Policy, e: Exclusion) {
    && s.Some?
    && match Barred(s.value)
       case Some(reason) => e.reason == reason
       case None =>
         e.reason == InsufficientSummary && ArtifactOf(s.value).Some? && SelectV1(ArtifactOf(s.value).value, p) == Insufficient
  }

  /** The results behind measured identifiers, in order. */
  function Subjects(trials: seq<TrialRecord>, baselines: Option<seq<Artifact>>, ms: seq<Measurement>): seq<Subject<Id>> {
    if ms == [] then []
    else
      var id := ms[|ms| - 1].id;
      var source := SourceOf(trials, baselines, id);
      Subjects(trials, baselines, ms[..|ms| - 1])
      + if source.Some? && ArtifactOf(source.value).Some? then [Subject(id, ArtifactOf(source.value).value.provenance)] else []
  }

  function Rates(ms: seq<Measurement>): seq<real> { seq(|ms|, i requires 0 <= i < |ms| => ms[i].summary.rate) }

  function MeasuredIds(ms: seq<Measurement>): seq<Id> { seq(|ms|, i requires 0 <= i < |ms| => ms[i].id) }

  function ExcludedIds(es: seq<Exclusion>): seq<Id> { seq(|es|, i requires 0 <= i < |es| => es[i].id) }

  predicate Distinct(ids: seq<Id>) { forall i, j :: 0 <= i < j < |ids| ==> ids[i] != ids[j] }

  function AsSet(ids: seq<Id>): set<Id> { set id | id in ids }

  /** Every trial and baseline of the report. */
  function AllIds(trials: seq<TrialRecord>, baselines: Option<seq<Artifact>>): set<Id> {
    (set i | 0 <= i < |trials| :: Trial(trials[i].id)) + (set i | 0 <= i < |BaselinesOf(baselines)| :: Baseline(i))
  }

  ghost predicate CountedOnce(ms: seq<Id>, bs: seq<Id>, es: seq<Id>, all: set<Id>) {
    && Distinct(ms) && Distinct(bs) && Distinct(es)
    && AsSet(ms) !! AsSet(bs) && AsSet(ms) !! AsSet(es) && AsSet(bs) !! AsSet(es)
    && AsSet(ms) + AsSet(bs) + AsSet(es) == all
  }

  ghost predicate MeasurementsOk(r: Selection, ms: seq<Measurement>, baseline: bool) {
    forall i :: 0 <= i < |ms| ==>
      ms[i].id.Baseline? == baseline && MeasurementOk(SourceOf(r.trials, r.baselines, ms[i].id), r.policy, ms[i])
  }

  ghost predicate ExclusionsOk(r: Selection, es: seq<Exclusion>) {
    forall i :: 0 <= i < |es| ==> ExclusionOk(SourceOf(r.trials, r.baselines, es[i].id), r.policy, es[i])
  }

  function Selected(r: Selection): seq<Subject<Id>> {
    Subjects(r.trials, r.baselines, r.measurements + r.baselineMeasurements)
  }

  function VerdictOf(r: Selection, compatible: bool): Verdict {
    Decide(r.policy.criteria, Rates(r.measurements), Rates(r.baselineMeasurements), r.baselines.Some?, compatible)
  }

  /** Everything the validator re-derives: who was measured, who was not and why, compatibility, and the verdict. */
  ghost predicate ReportAccepted(report: Report) {
    var r := report.selection;
    && MeasurementsOk(r, r.measurements, false) && MeasurementsOk(r, r.baselineMeasurements, true)
    && ExclusionsOk(r, r.exclusions)
    && CountedOnce(MeasuredIds(r.measurements), MeasuredIds(r.baselineMeasurements), ExcludedIds(r.exclusions),
                   AllIds(r.trials, r.baselines))
    && report.compatibility.policy == r.comparison
    && ArchiveAccepts(report.compatibility, Selected(r))
    && report.verdict == VerdictOf(r, report.compatibility.compatible)
  }

  // ---- The validator ------------------------------------------------------------------------

  /** One population: every entry identifies fresh, eligible evidence and repeats its summary. */
  method ValidateMeasurements(r: Selection, ms: seq<Measurement>, baseline: bool, seen: set<Id>)
    returns (ok: bool, after: set<Id>)
    ensures ok <==> MeasurementsOk(r, ms, baseline) && Distinct(MeasuredIds(ms)) && AsSet(MeasuredIds(ms)) !! seen
    ensures ok ==> after == seen + AsSet(MeasuredIds(ms))
  {
    hide SourceOf, MeasurementOk;
    after := seen;
    var ids := MeasuredIds(ms);
    for i := 0 to |ms|
      invariant forall j :: 0 <= j < i ==>
        ms[j].id.Baseline? == baseline && MeasurementOk(SourceOf(r.trials, r.baselines, ms[j].id), r.policy, ms[j])
      invariant Distinct(ids[..i]) && AsSet(ids[..i]) !! seen && after == seen + AsSet(ids[..i])
    {
      var id := ms[i].id;
      if id in after {
        NotFresh(ids, i, seen);
        return false, after;
      }
      if id.Baseline? != baseline || !MeasurementOk(SourceOf(r.trials, r.baselines, id), r.policy, ms[i]) {
        return false, after;
      }
      FreshNext(ids, i);
      after := after + {id};
    }
    assert ids[..|ms|] == ids;
    return true, after;
  }

  lemma NotFresh(ids: seq<Id>, i: nat, seen: set<Id>)
    requires i < |ids| && ids[i] in seen + AsSet(ids[..i])
    ensures !(Distinct(ids) && AsSet(ids) !! seen)
  {
    if ids[i] !in seen {
      var j :| 0 <= j < i && ids[j] == ids[i];
    } else {
      assert ids[i] in AsSet(ids);
    }
  }

  lemma FreshNext(ids: seq<Id>, i: nat)
    requires i < |ids| && Distinct(ids[..i]) && ids[i] !in ids[..i]
    ensures Distinct(ids[..i + 1]) && AsSet(ids[..i + 1]) == AsSet(ids[..i]) + {ids[i]}
  {
    assert ids[..i + 1] == ids[..i] + [ids[i]];
  }

  method ValidateExclusions(r: Selection, seen: set<Id>) returns (ok: bool, after: set<Id>)
    ensures ok <==> ExclusionsOk(r, r.exclusions) && Distinct(ExcludedIds(r.exclusions)) && AsSet(ExcludedIds(r.exclusions)) !! seen
    ensures ok ==> after == seen + AsSet(ExcludedIds(r.exclusions))
  {
    hide SourceOf, ExclusionOk;
    after := seen;
    var es := r.exclusions;
    var ids := ExcludedIds(es);
    for i := 0 to |es|
      invariant forall j :: 0 <= j < i ==> ExclusionOk(SourceOf(r.trials, r.baselines, es[j].id), r.policy, es[j])
      invariant Distinct(ids[..i]) && AsSet(ids[..i]) !! seen && after == seen + AsSet(ids[..i])
    {
      if es[i].id in after {
        NotFresh(ids, i, seen);
        return false, after;
      }
      if !ExclusionOk(SourceOf(r.trials, r.baselines, es[i].id), r.policy, es[i]) { return false, after; }
      FreshNext(ids, i);
      after := after + {es[i].id};
    }
    assert ids[..|es|] == ids;
    return true, after;
  }

  /** `_validate_report` after the plan history has been validated. */
  method ValidateReport(report: Report) returns (ok: bool)
    ensures ok <==> ReportAccepted(report)
  {
    hide MeasurementsOk, ExclusionsOk, Distinct, ArchiveAccepts, AllIds, AsSet, MeasuredIds, ExcludedIds, VerdictOf, Selected,
      CountedOnce;
    var r, c := report.selection, report.compatibility;
    if c.policy != r.comparison { return false; }
    if c.compatible && c.quality == InsufficientData {
      InsufficientIsRefused(c, Selected(r));
      return false;
    }
    var m, one := ValidateMeasurements(r, r.measurements, false, {});
    if !m { CountedMeans(r); return false; }
    var b, two := ValidateMeasurements(r, r.baselineMeasurements, true, one);
    if !b { CountedMeans(r); return false; }
    if c.fingerprints.Keys != two {
      if ArchiveAccepts(c, Selected(r)) { PrintsNameSelected(r, c); }
      return false;
    }
    var v := ValidateCompatibilityV1(c, Selected(r));
    if !v { return false; }
    var e, three := ValidateExclusions(r, two);
    if !e { CountedMeans(r); return false; }
    CountedMeans(r);
    return three == AllIds(r.trials, r.baselines) && report.verdict == VerdictOf(r, c.compatible);
  }

  lemma CountedMeans(r: Selection)
    ensures var ms, bs, es := MeasuredIds(r.measurements), MeasuredIds(r.baselineMeasurements), ExcludedIds(r.exclusions);
      CountedOnce(ms, bs, es, AllIds(r.trials, r.baselines)) <==>
        && Distinct(ms) && AsSet(ms) !! {} && Distinct(bs) && AsSet(bs) !! {} + AsSet(ms)
        && Distinct(es) && AsSet(es) !! {} + AsSet(ms) + AsSet(bs)
        && {} + AsSet(ms) + AsSet(bs) + AsSet(es) == AllIds(r.trials, r.baselines)
  {
    hide Distinct, AllIds, AsSet, MeasuredIds, ExcludedIds;
  }

  lemma InsufficientIsRefused(c: Analysis<Id>, selected: seq<Subject<Id>>)
    requires c.compatible && c.quality == InsufficientData
    ensures !ArchiveAccepts(c, selected)
  {
    hide Dimensions, AllArchived, Shaped, ArchivedPrints, Keyed, CompatibleEvidence;
  }

  /** The fingerprints of a confirmed analysis are those of the selected measurements. */
  lemma PrintsNameSelected(r: Selection, c: Analysis<Id>)
    requires MeasurementsOk(r, r.measurements, false) && MeasurementsOk(r, r.baselineMeasurements, true)
    requires ArchiveAccepts(c, Selected(r))
    ensures c.fingerprints.Keys == AsSet(MeasuredIds(r.measurements)) + AsSet(MeasuredIds(r.baselineMeasurements))
  {
    hide MeasurementOk, SourceOf, Decides, Dimensions, AllArchived, Shaped, Keyed;
    var ms := r.measurements + r.baselineMeasurements;
    SubjectsAreMeasured(r, ms);
    KeysOfPrints(Selected(r), ArchivedPrints(Selected(r), Dimensions(Selected(r), c.policy)));
    assert MeasuredIds(ms) == MeasuredIds(r.measurements) + MeasuredIds(r.baselineMeasurements);
    forall id ensures id in c.fingerprints.Keys <==> id in MeasuredIds(ms) {
      IdsOfSubjects(Selected(r), MeasuredIds(ms), id);
    }
  }

  lemma IdsOfSubjects(xs: seq<Subject<Id>>, ids: seq<Id>, id: Id)
    requires |xs| == |ids| && forall i :: 0 <= i < |xs| ==> xs[i].id == ids[i]
    ensures (exists i :: 0 <= i < |xs| && xs[i].id == id) <==> id in ids
  {}

  lemma {:induction false} KeysOfPrints(xs: seq<Subject<Id>>, prints: seq<Fingerprint>)
    requires |xs| == |prints|
    ensures forall id :: id in Keyed(xs, prints) <==> exists i :: 0 <= i < |xs| && xs[i].id == id
  {
    if xs != [] {
      var n := |xs| - 1;
      KeysOfPrints(xs[..n], prints[..n]);
    }
  }

  /** Measured identifiers all have results, so their subjects follow them one by one. */
  lemma {:induction false} SubjectsAreMeasured(r: Selection, ms: seq<Measurement>)
    requires forall i :: 0 <= i < |ms| ==> MeasurementOk(SourceOf(r.trials, r.baselines, ms[i].id), r.policy, ms[i])
    ensures var xs := Subjects(r.trials, r.baselines, ms);
      |xs| == |ms| && forall i :: 0 <= i < |ms| ==> xs[i].id == ms[i].id
  {
    hide SelectV1, SourceOf;
    if ms != [] { SubjectsAreMeasured(r, ms[..|ms| - 1]); }
  }

  // ---- The assessment -----------------------------------------------------------------------

  /** What has been classified so far, each identifier once. */
  ghost predicate Tallied(r: Selection, done: set<Id>) {
    && MeasurementsOk(r, r.measurements, false) && MeasurementsOk(r, r.baselineMeasurements, true)
    && ExclusionsOk(r, r.exclusions)
    && CountedOnce(MeasuredIds(r.measurements), MeasuredIds(r.baselineMeasurements), ExcludedIds(r.exclusions), done)
  }

  lemma IdsGrow(ids: seq<Id>, id: Id)
    requires Distinct(ids) && id !in ids
    ensures Distinct(ids + [id]) && AsSet(ids + [id]) == AsSet(ids) + {id}
  {}

  lemma AddMeasurement(r: Selection, done: set<Id>, m: Measurement)
    requires Tallied(r, done) && m.id !in done && m.id.Trial?
    requires MeasurementOk(SourceOf(r.trials, r.baselines, m.id), r.policy, m)
    ensures Tallied(r.(measurements := r.measurements + [m]), done + {m.id})
  {
    hide MeasurementOk, ExclusionOk, SourceOf;
    IdsGrow(MeasuredIds(r.measurements), m.id);
    assert MeasuredIds(r.measurements + [m]) == MeasuredIds(r.measurements) + [m.id];
  }

  lemma AddBaseline(r: Selection, done: set<Id>, m: Measurement)
    requires Tallied(r, done) && m.id !in done && m.id.Baseline?
    requires MeasurementOk(SourceOf(r.trials, r.baselines, m.id), r.policy, m)
    ensures Tallied(r.(baselineMeasurements := r.baselineMeasurements + [m]), done + {m.id})
  {
    hide MeasurementOk, ExclusionOk, SourceOf;
    IdsGrow(MeasuredIds(r.baselineMeasurements), m.id);
    assert MeasuredIds(r.baselineMeasurements + [m]) == MeasuredIds(r.baselineMeasurements) + [m.id];
  }

  lemma AddExclusion(r: Selection, done: set<Id>, e: Exclusion)
    requires Tallied(r, done) && e.id !in done && ExclusionOk(SourceOf(r.trials, r.baselines, e.id), r.policy, e)
    ensures Tallied(r.(exclusions := r.exclusions + [e]), done + {e.id})
  {
    hide MeasurementOk, ExclusionOk, SourceOf;
    IdsGrow(ExcludedIds(r.exclusions), e.id);
    assert ExcludedIds(r.exclusions + [e]) == ExcludedIds(r.exclusions) + [e.id];
  }

  lemma {:induction false} FindIsUnique(trials: seq<TrialRecord>, i: nat)
    requires i < |trials| && forall j, k :: 0 <= j < k < |trials| ==> trials[j].id != trials[k].id
    ensures FindTrial(trials, trials[i].id) == Some(trials[i])
  {
    if i > 0 {
      FindIsUnique(trials[1..], i - 1);
      assert trials[0].id != trials[i].id;
    }
  }

  /** A canonical artifact's live summary is what the archive selects. */
  lemma CanonicalAgrees(a: Artifact, p: Policy)
    requires Canonical(a) && SummaryThroughput(a, p) != Malformed
    ensures SelectV1(a, p) == SummaryThroughput(a, p)
  {
    SummariesAgree(a, p);
  }

  /** Some artifact that has to be analysed is refused as malformed. */
  ghost predicate Refuses(trials: seq<TrialRecord>, baselines: Option<seq<Artifact>>, p: Policy) {
    || (exists i :: 0 <= i < |trials| && Barred(OfTrial(trials[i])).None? && trials[i].artifact.Some?
          && SummaryThroughput(trials[i].artifact.value, p) == Malformed)
    || (exists i :: 0 <= i < |BaselinesOf(baselines)| && SummaryThroughput(BaselinesOf(baselines)[i], p) == Malformed)
  }

  /** The eligible results among the first `n` trials. */
  function TrialSubjects(trials: seq<TrialRecord>, p: Policy, n: nat): seq<Subject<Id>>
    requires n <= |trials|
  {
    if n == 0 then []
    else
      var t := trials[n - 1];
      TrialSubjects(trials, p, n - 1)
      + if Barred(OfTrial(t)).None? && t.artifact.Some? && SummaryThroughput(t.artifact.value, p).Usable?
        then [Subject(Trial(t.id), t.artifact.value.provenance)] else []
  }

  function BaselineSubjects(baselines: seq<Artifact>, p: Policy, n: nat): seq<Subject<Id>>
    requires n <= |baselines|
  {
    if n == 0 then []
    else
      BaselineSubjects(baselines, p, n - 1)
      + if SummaryThroughput(baselines[n - 1], p).Usable? then [Subject(Baseline(n - 1), baselines[n - 1].provenance)] else []
  }

  /** What has to be compared: every measured, completed trial and every baseline with a usable summary. */
  function Eligible(trials: seq<TrialRecord>, baselines: Option<seq<Artifact>>, p: Policy): seq<Subject<Id>> {
    TrialSubjects(trials, p, |trials|) + BaselineSubjects(BaselinesOf(baselines), p, |BaselinesOf(baselines)|)
  }

  function TrialIds(trials: seq<TrialRecord>, n: nat): set<Id>
    requires n <= |trials|
  {
    set i | 0 <= i < n :: Trial(trials[i].id)
  }

  function BaselineIds(n: nat): set<Id> { set i | 0 <= i < n :: Baseline(i) }

  /** The measurements so far are those of the eligible ones among the first `n` trials. */
  predicate TrialsChosen(r: Selection, n: nat) {
    n <= |r.trials| && Subjects(r.trials, r.baselines, r.measurements) == TrialSubjects(r.trials, r.policy, n)
  }

  predicate BaselinesChosen(r: Selection, n: nat) {
    && n <= |BaselinesOf(r.baselines)|
    && Selected(r) == TrialSubjects(r.trials, r.policy, |r.trials|) + BaselineSubjects(BaselinesOf(r.baselines), r.policy, n)
  }

  /** One more measured identifier. */
  lemma OneMoreSubject(trials: seq<TrialRecord>, baselines: Option<seq<Artifact>>, ms: seq<Measurement>, m: Measurement)
    requires SourceOf(trials, baselines, m.id).Some? && ArtifactOf(SourceOf(trials, baselines, m.id).value).Some?
    ensures Subjects(trials, baselines, ms + [m]) == Subjects(trials, baselines, ms)
      + [Subject(m.id, ArtifactOf(SourceOf(trials, baselines, m.id).value).value.provenance)]
  {
    hide SourceOf;
    assert (ms + [m])[..|ms|] == ms && (ms + [m])[|ms|] == m;
  }

  /** Classify one trial. */
  method AssessTrial(r: Selection, i: nat) returns (s: Option<Selection>)
    requires i < |r.trials| && EvidenceOk(r.trials, r.baselines) && Tallied(r, TrialIds(r.trials, i))
    ensures s.None? == (Barred(OfTrial(r.trials[i])).None? && r.trials[i].artifact.Some?
                        && SummaryThroughput(r.trials[i].artifact.value, r.policy) == Malformed)
    ensures s.Some? ==> Tallied(s.value, TrialIds(r.trials, i + 1)) && SameEvidence(r, s.value)
    ensures s.Some? ==> s.value.baselineMeasurements == r.baselineMeasurements
    ensures s.Some? && TrialsChosen(r, i) ==> TrialsChosen(s.value, i + 1)
  {
    hide Tallied, SummaryThroughput, SelectV1, Canonical;
    var t := r.trials[i];
    var id := Trial(t.id);
    FindIsUnique(r.trials, i);
    assert RecordOk(t);
    assert TrialIds(r.trials, i + 1) == TrialIds(r.trials, i) + {id};
    if t.warmup {
      AddExclusion(r, TrialIds(r.trials, i), Exclusion(id, WarmupRun));
      return Some(r.(exclusions := r.exclusions + [Exclusion(id, WarmupRun)]));
    }
    if t.status != Completed || t.artifact.None? {
      AddExclusion(r, TrialIds(r.trials, i), Exclusion(id, ExecutionStatus(t.status)));
      return Some(r.(exclusions := r.exclusions + [Exclusion(id, ExecutionStatus(t.status))]));
    }
    match SummaryThroughput(t.artifact.value, r.policy)
    case Malformed => return None;
    case Insufficient =>
      CanonicalAgrees(t.artifact.value, r.policy);
      AddExclusion(r, TrialIds(r.trials, i), Exclusion(id, InsufficientSummary));
      return Some(r.(exclusions := r.exclusions + [Exclusion(id, InsufficientSummary)]));
    case Usable(summary) =>
      CanonicalAgrees(t.artifact.value, r.policy);
      AddMeasurement(r, TrialIds(r.trials, i), Measurement(id, summary));
      OneMoreSubject(r.trials, r.baselines, r.measurements, Measurement(id, summary));
      return Some(r.(measurements := r.measurements + [Measurement(id, summary)]));
  }

  predicate SameEvidence(r: Selection, s: Selection) {
    && s.trials == r.trials && s.baselines == r.baselines && s.policy == r.policy && s.comparison == r.comparison
  }

  method AssessBaseline(r: Selection, i: nat) returns (s: Option<Selection>)
    requires i < |BaselinesOf(r.baselines)| && EvidenceOk(r.trials, r.baselines)
    requires Tallied(r, TrialIds(r.trials, |r.trials|) + BaselineIds(i))
    ensures s.None? <==> SummaryThroughput(BaselinesOf(r.baselines)[i], r.policy) == Malformed
    ensures s.Some? ==> Tallied(s.value, TrialIds(r.trials, |r.trials|) + BaselineIds(i + 1)) && SameEvidence(r, s.value)
    ensures s.Some? && BaselinesChosen(r, i) ==> BaselinesChosen(s.value, i + 1)
  {
    hide Tallied, SummaryThroughput, SelectV1, Canonical;
    var a := BaselinesOf(r.baselines)[i];
    var id := Baseline(i);
    ghost var done := TrialIds(r.trials, |r.trials|) + BaselineIds(i);
    assert TrialIds(r.trials, |r.trials|) + BaselineIds(i + 1) == done + {id};
    match SummaryThroughput(a, r.policy)
    case Malformed => return None;
    case Insufficient =>
      CanonicalAgrees(a, r.policy);
      AddExclusion(r, done, Exclusion(id, InsufficientSummary));
      return Some(r.(exclusions := r.exclusions + [Exclusion(id, InsufficientSummary)]));
    case Usable(summary) =>
      CanonicalAgrees(a, r.policy);
      AddBaseline(r, done, Measurement(id, summary));
      OneMoreSubject(r.trials, r.baselines, r.measurements + r.baselineMeasurements, Measurement(id, summary));
      assert r.measurements + (r.baselineMeasurements + [Measurement(id, summary)])
        == r.measurements + r.baselineMeasurements + [Measurement(id, summary)];
      return Some(r.(baselineMeasurements := r.baselineMeasurements + [Measurement(id, summary)]));
  }

  /**
   `assess_plan`: unless some summary or fingerprint is refused as malformed, the report it builds passes the validator
   that re-derives it, with every trial and baseline counted exactly once.
   */
  method AssessPlan(trials: seq<TrialRecord>, baselines: Option<seq<Artifact>>, policy: Policy, comparison: ComparisonPolicy)
    returns (report: Option<Report>)
    requires EvidenceOk(trials, baselines)
    ensures report.None? <==> Refuses(trials, baselines, policy) || LiveRefuses(Eligible(trials, baselines, policy), comparison)
    ensures report.Some? ==>
      && ReportAccepted(report.value) && Selected(report.value.selection) == Eligible(trials, baselines, policy)
      && report.value.selection.trials == trials && report.value.selection.baselines == baselines
      && report.value.selection.policy == policy && report.value.selection.comparison == comparison
  {
    hide Tallied, EvidenceOk, SummaryThroughput, Eligible, LiveAnalysis, LiveRefuses, ArchiveAccepts, Selected, VerdictOf;
    var r := Select(trials, baselines, policy, comparison);
    if r.None? { return None; }
    var c := CheckCompatibility(Selected(r.value), comparison);
    if c.None? { return None; }
    AnalysisKeepsPolicy(Selected(r.value), comparison, c.value);
    ArchiveAcceptsLiveOnly(Selected(r.value), comparison, c.value, c.value);
    var final := Report(r.value, c.value, VerdictOf(r.value, c.value.compatible));
    AllTallied(final);
    return Some(final);
  }

  /** Classify every trial and baseline. */
  method Select(trials: seq<TrialRecord>, baselines: Option<seq<Artifact>>, policy: Policy, comparison: ComparisonPolicy)
    returns (s: Option<Selection>)
    requires EvidenceOk(trials, baselines)
    ensures s.None? <==> Refuses(trials, baselines, policy)
    ensures s.Some? ==>
      && Tallied(s.value, TrialIds(trials, |trials|) + BaselineIds(|BaselinesOf(baselines)|))
      && s.value.trials == trials && s.value.baselines == baselines
      && s.value.policy == policy && s.value.comparison == comparison
      && Selected(s.value) == Eligible(trials, baselines, policy)
  {
    hide Tallied, EvidenceOk, SummaryThroughput, TrialSubjects, BaselineSubjects, Subjects;
    var r := Selection(trials, baselines, policy, comparison, [], [], []);
    ghost var start := r;
    NothingTallied(r);
    NothingSelected(r);
    for i: nat := 0 to |trials|
      invariant SameEvidence(start, r) && r.baselineMeasurements == [] && Tallied(r, TrialIds(trials, i))
      invariant TrialsChosen(r, i)
      invariant forall j :: 0 <= j < i && Barred(OfTrial(trials[j])).None? && trials[j].artifact.Some? ==>
        SummaryThroughput(trials[j].artifact.value, policy) != Malformed
    {
      var next := AssessTrial(r, i);
      if next.None? { return None; }
      r := next.value;
    }
    assert BaselineIds(0) == {} && TrialIds(trials, |trials|) + {} == TrialIds(trials, |trials|);
    assert r.measurements + [] == r.measurements;
    for i: nat := 0 to |BaselinesOf(baselines)|
      invariant SameEvidence(start, r) && Tallied(r, TrialIds(trials, |trials|) + BaselineIds(i))
      invariant BaselinesChosen(r, i)
      invariant forall j :: 0 <= j < i ==> SummaryThroughput(BaselinesOf(baselines)[j], policy) != Malformed
    {
      var next := AssessBaseline(r, i);
      if next.None? { return None; }
      r := next.value;
    }
    return Some(r);
  }

  lemma NothingTallied(r: Selection)
    requires r.measurements == [] && r.baselineMeasurements == [] && r.exclusions == []
    ensures Tallied(r, TrialIds(r.trials, 0))
  {}

  lemma NothingSelected(r: Selection)
    requires r.measurements == [] && r.baselineMeasurements == []
    ensures Subjects(r.trials, r.baselines, []) == TrialSubjects(r.trials, r.policy, 0) == []
    ensures BaselineSubjects(BaselinesOf(r.baselines), r.policy, 0) == []
  {}

  lemma AllTallied(report: Report)
    requires var r := report.selection;
      && Tallied(r, TrialIds(r.trials, |r.trials|) + BaselineIds(|BaselinesOf(r.baselines)|))
      && report.compatibility.policy == r.comparison && ArchiveAccepts(report.compatibility, Selected(r))
      && report.verdict == VerdictOf(r, report.compatibility.compatible)
    ensures ReportAccepted(report)
  {
    hide MeasurementOk, ExclusionOk, SourceOf, ArchiveAccepts, Distinct, AsSet, Selected, VerdictOf;
    var r := report.selection;
    assert TrialIds(r.trials, |r.trials|) + BaselineIds(|BaselinesOf(r.baselines)|) == AllIds(r.trials, r.baselines);
  }
}
