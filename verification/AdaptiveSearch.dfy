/**
 Bounded UDP exploration (`adaptive.py`): observations, per-rate summaries and the deterministic choice of
 the next batch under the search's depth, cardinality and cumulative budget limits.
 */
module AdaptiveSearch {
  import opened Options
  import opened PlanOutcomes
  import opened Intent

  datatype Limits = Limits(
    minRate: nat, maxRate: nat, maxDistinct: nat, maxDepth: nat,
    lossPercent: real, minimumValid: nat, senderFraction: real, confirmations: nat)

  datatype TrialPolicy = TrialPolicy(repetitions: nat, warmups: nat, maxTrials: nat, stopOnError: bool, pause: Pause)

  /** Declared pauses are never negative. */
  type Pause = x: real | x >= 0.0 witness 0.0

  datatype Search = Search(
    config: Config, initial: seq<nat>, policy: TrialPolicy, maxActive: nat, maxPayload: nat, limits: Limits)

  /** One declared run of a batch. */
  datatype Spec = Spec(rate: nat, measured: bool, repetition: nat)

  /** What an artifact says: settings and method as requested, endpoint rates and receiver counts if trusted. */
  datatype Measurement = Measurement(
    settingsMatch: bool, methodMatches: bool, senderBps: Option<real>, receiverBps: Option<real>,
    packets: Option<int>, lost: Option<int>)

  datatype Evidence = Evidence(status: Status, artifact: Option<Measurement>)

  datatype Observation = Observation(rate: nat, measured: bool, valid: bool, acceptable: bool)

  datatype Reason = InitialGrid | Confirm | Refine

  datatype Batch = Batch(index: nat, rates: seq<nat>, reason: Reason, depth: nat, specs: seq<Spec>)

  /** A recorded batch, with the time spent pausing between its trials and the cooldown before it. */
  datatype BatchResult = BatchResult(batch: Batch, trials: seq<Evidence>, stopped: bool, paused: real, cooldown: real)

  type History = seq<BatchResult>

  datatype End =
    | ExecutionStopped | DepthLimit | GridExhausted | NoDifferingOutcomes | DistinctRateLimit
    | TrialCountLimit | ActiveTimeLimit | PayloadLimit

  datatype Decision = Next(batch: Batch) | Stop(reason: End)

  // ---- Batches and their reservation --------------------------------------------------------

  function Cell(p: Search, rate: nat): seq<Spec> {
    seq(p.policy.warmups, i requires 0 <= i < p.policy.warmups => Spec(rate, false, i))
    + seq(p.policy.repetitions, i requires 0 <= i < p.policy.repetitions => Spec(rate, true, i))
  }

  function Specs(p: Search, rates: seq<nat>): seq<Spec> {
    if rates == [] then [] else Cell(p, rates[0]) + Specs(p, rates[1..])
  }

  function SpecBits(p: Search, spec: Spec): nat {
    match PayloadBits(p.config, Some(Aggregate(spec.rate)))
    case Some(bits) => bits
    case None => 0
  }

  function BitsOf(p: Search, specs: seq<Spec>): nat {
    if specs == [] then 0 else SpecBits(p, specs[0]) + BitsOf(p, specs[1..])
  }

  function ActiveOf(p: Search, specs: seq<Spec>): nat {
    if specs == [] then 0 else ActiveSeconds(p.config) + ActiveOf(p, specs[1..])
  }

  function UsedTrials(h: History): nat {
    if h == [] then 0 else UsedTrials(h[..|h| - 1]) + |h[|h| - 1].batch.specs|
  }

  function UsedActive(p: Search, h: History): nat {
    if h == [] then 0 else UsedActive(p, h[..|h| - 1]) + ActiveOf(p, h[|h| - 1].batch.specs)
  }

  function UsedBits(p: Search, h: History): nat {
    if h == [] then 0 else UsedBits(p, h[..|h| - 1]) + BitsOf(p, h[|h| - 1].batch.specs)
  }

  /** `_batch_v1`: the batch alone, then on top of everything reserved before, must stay within the budgets. */
  function MakeBatch(p: Search, h: History, rates: seq<nat>, reason: Reason, depth: nat): (r: Result<Batch, End>)
    ensures r.Err? ==> r.error in {TrialCountLimit, ActiveTimeLimit, PayloadLimit}
  {
    var specs := Specs(p, rates);
    var active, bits := ActiveOf(p, specs), BitsOf(p, specs);
    if UsedTrials(h) + (p.policy.repetitions + p.policy.warmups) * |rates| > p.policy.maxTrials then Err(TrialCountLimit)
    else if active > p.maxActive then Err(ActiveTimeLimit)
    else if (bits + 7) / 8 > p.maxPayload then Err(PayloadLimit)
    else if UsedActive(p, h) + active > p.maxActive then Err(ActiveTimeLimit)
    else if (UsedBits(p, h) + bits + 7) / 8 > p.maxPayload then Err(PayloadLimit)
    else Ok(Batch(|h|, rates, reason, depth, specs))
  }

  // ---- Observations -------------------------------------------------------------------------

  predicate CountsKnown(m: Measurement) {
    m.packets.Some? && m.lost.Some? && m.packets.value > 0 && 0 <= m.lost.value <= m.packets.value
  }

  /** No reason against the observation was found. */
  predicate Usable(p: Search, spec: Spec, e: Evidence) {
    && spec.measured
    && e.status == Completed
    && e.artifact.Some?
    && var m := e.artifact.value;
      && m.settingsMatch && m.methodMatches
      && m.senderBps.Some? && m.receiverBps.Some?
      && (spec.rate > 0 ==> m.senderBps.value / (spec.rate as real) >= p.limits.senderFraction)
      && CountsKnown(m)
  }

  function LossPercent(m: Measurement): real
    requires CountsKnown(m)
  {
    100.0 * (m.lost.value as real) / (m.packets.value as real)
  }

  function Observe(p: Search, spec: Spec, e: Evidence): Observation {
    var valid := Usable(p, spec, e);
    Observation(
      spec.rate, spec.measured, valid, valid && LossPercent(e.artifact.value) <= p.limits.lossPercent)
  }

  /** One observation per trial of the batch. */
  function Observed(p: Search, specs: seq<Spec>, trials: seq<Evidence>): seq<Observation>
    requires |specs| == |trials|
  {
    if specs == [] then [] else [Observe(p, specs[0], trials[0])] + Observed(p, specs[1..], trials[1..])
  }

  predicate Recorded(item: BatchResult) { |item.trials| == |item.batch.specs| }

  predicate AllRecorded(h: History) { forall k :: 0 <= k < |h| ==> Recorded(h[k]) }

  function AllObserved(p: Search, h: History): seq<Observation>
    requires AllRecorded(h)
  {
    if h == [] then []
    else
      assert Recorded(h[|h| - 1]);
      AllObserved(p, h[..|h| - 1]) + Observed(p, h[|h| - 1].batch.specs, h[|h| - 1].trials)
  }

  /** The measured observations of one rate. */
  function MeasuredAt(obs: seq<Observation>, rate: nat): seq<Observation> {
    if obs == [] then []
    else (if obs[0].rate == rate && obs[0].measured then [obs[0]] else []) + MeasuredAt(obs[1..], rate)
  }

  function ValidCount(obs: seq<Observation>): nat {
    if obs == [] then 0 else (if obs[0].valid then 1 else 0) + ValidCount(obs[1..])
  }

  predicate IsConfirmation(b: Batch, rate: nat) { b.reason == Confirm && rate in b.rates }

  function Confirmations(h: History, rate: nat): nat {
    if h == [] then 0
    else Confirmations(h[..|h| - 1], rate) + if IsConfirmation(h[|h| - 1].batch, rate) then 1 else 0
  }

  /** The depth at which a rate entered the search. */
  function Depth(h: History, rate: nat): nat {
    if h == [] then 0
    else
      var b := h[|h| - 1].batch;
      if b.reason != Confirm && rate in b.rates then b.depth else Depth(h[..|h| - 1], rate)
  }

  datatype RateStatus = Eligible | Provisional | Rejected | Inconclusive

  function Judge(p: Search, measured: seq<Observation>, confirmations: nat): RateStatus {
    if exists o :: o in measured && o.valid && !o.acceptable then Rejected
    else if !(measured != [] && forall o :: o in measured ==> o.valid) || ValidCount(measured) < p.limits.minimumValid then Inconclusive
    else if confirmations < p.limits.confirmations then Provisional
    else Eligible
  }

  function StatusOf(p: Search, h: History, rate: nat): RateStatus
    requires AllRecorded(h)
  {
    Judge(p, MeasuredAt(AllObserved(p, h), rate), Confirmations(h, rate))
  }

  // ---- The tested rates, in order -----------------------------------------------------------

  predicate Ascending(s: seq<nat>) { forall i, j :: 0 <= i < j < |s| ==> s[i] < s[j] }

  /** Insert into an ascending sequence, once. */
  function Insert(s: seq<nat>, rate: nat): seq<nat> {
    if s == [] || rate < s[0] then [rate] + s
    else if rate == s[0] then s
    else [s[0]] + Insert(s[1..], rate)
  }

  function InsertAll(s: seq<nat>, rates: seq<nat>): seq<nat>
    decreases rates
  {
    if rates == [] then s else InsertAll(Insert(s, rates[0]), rates[1..])
  }

  /** Every tested rate once, ascending. */
  function Tested(h: History): seq<nat> {
    if h == [] then [] else InsertAll(Tested(h[..|h| - 1]), h[|h| - 1].batch.rates)
  }

  // ---- The choice ---------------------------------------------------------------------------

  /** The last of the first `n` indices that passes. */
  function LastIndex(n: nat, passes: nat -> bool): (r: Option<nat>)
    ensures r.Some? ==> r.value < n && passes(r.value) && forall j: nat :: r.value < j < n ==> !passes(j)
    ensures r.None? ==> forall j: nat :: j < n ==> !passes(j)
  {
    if n == 0 then None else if passes(n - 1) then Some(n - 1) else LastIndex(n - 1, passes)
  }

  function Looks(s: RateStatus): RateStatus { if s == Eligible then Provisional else s }

  /** Adjacent tested rates `t[i]` and `t[i + 1]` came out differently. */
  predicate Differing(p: Search, h: History, t: seq<nat>, i: nat)
    requires AllRecorded(h) && i + 1 < |t|
  {
    Looks(StatusOf(p, h, t[i])) != Looks(StatusOf(p, h, t[i + 1]))
  }

  function Larger(a: nat, b: nat): nat { if a < b then b else a }

  function PairDepth(h: History, t: seq<nat>, i: nat): nat
    requires i + 1 < |t|
  {
    Larger(Depth(h, t[i]), Depth(h, t[i + 1]))
  }

  predicate IntegerInterval(p: Search, h: History, t: seq<nat>, i: nat)
    requires AllRecorded(h) && i + 1 < |t|
  {
    Differing(p, h, t, i) && t[i] + 1 < t[i + 1]
  }

  predicate Refinable(p: Search, h: History, t: seq<nat>, i: nat)
    requires AllRecorded(h) && i + 1 < |t|
  {
    IntegerInterval(p, h, t, i) && PairDepth(h, t, i) < p.limits.maxDepth
  }

  function LastEligible(p: Search, h: History, t: seq<nat>): (r: Option<nat>)
    requires AllRecorded(h)
    ensures r.Some? ==> r.value < |t| && StatusOf(p, h, t[r.value]) == Eligible
    ensures forall i :: 0 <= i < |t| && StatusOf(p, h, t[i]) == Eligible ==> r.Some? && i <= r.value
  {
    var eligible := (i: nat) => i < |t| && StatusOf(p, h, t[i]) == Eligible;
    assert forall i: nat :: i < |t| && StatusOf(p, h, t[i]) == Eligible ==> eligible(i);
    LastIndex(|t|, eligible)
  }

  function HighestEligible(p: Search, h: History, t: seq<nat>): nat
    requires AllRecorded(h)
  {
    match LastEligible(p, h, t)
    case None => 0
    case Some(i) => t[i]
  }

  /** The highest provisional rate above every eligible one. */
  function Promising(p: Search, h: History, t: seq<nat>): (r: Option<nat>)
    requires AllRecorded(h)
    ensures r.Some? ==> r.value < |t| && StatusOf(p, h, t[r.value]) == Provisional && t[r.value] > HighestEligible(p, h, t)
    ensures forall i :: 0 <= i < |t| && StatusOf(p, h, t[i]) == Provisional && t[i] > HighestEligible(p, h, t) ==>
      r.Some? && i <= r.value
  {
    var floor := HighestEligible(p, h, t);
    var promising := (i: nat) => i < |t| && StatusOf(p, h, t[i]) == Provisional && t[i] > floor;
    assert forall i: nat :: i < |t| && StatusOf(p, h, t[i]) == Provisional && t[i] > floor ==> promising(i);
    LastIndex(|t|, promising)
  }

  /** The topmost interval that differs, contains an integer and may still be split. */
  function LastRefinable(p: Search, h: History, t: seq<nat>): (r: Option<nat>)
    requires AllRecorded(h)
    ensures r.Some? ==> r.value + 1 < |t| && Refinable(p, h, t, r.value)
    ensures forall i: nat :: i + 1 < |t| && Refinable(p, h, t, i) ==> r.Some? && i <= r.value
  {
    var refinable := (i: nat) => i + 1 < |t| && Refinable(p, h, t, i);
    assert forall i: nat :: i + 1 < |t| && Refinable(p, h, t, i) ==> refinable(i);
    LastIndex(|t|, refinable)
  }

  function NothingToRefine(p: Search, h: History, t: seq<nat>): End
    requires AllRecorded(h)
  {
    if exists i: nat :: i + 1 < |t| && IntegerInterval(p, h, t, i) then DepthLimit
    else if exists i: nat :: i + 1 < |t| && Differing(p, h, t, i) then GridExhausted
    else NoDifferingOutcomes
  }

  function Reserve(p: Search, h: History, rates: seq<nat>, reason: Reason, depth: nat): Decision {
    match MakeBatch(p, h, rates, reason, depth)
    case Ok(batch) => Next(batch)
    case Err(limit) => Stop(limit)
  }

  /** `_choose_v1`. */
  function Choose(p: Search, h: History): Decision
    requires AllRecorded(h)
  {
    if h == [] then Reserve(p, h, p.initial, InitialGrid, 0)
    else if exists k :: 0 <= k < |h| && h[k].stopped then Stop(ExecutionStopped)
    else
      var t := Tested(h);
      match Promising(p, h, t)
      case Some(i) => Reserve(p, h, [t[i]], Confirm, Depth(h, t[i]))
      case None =>
        match LastRefinable(p, h, t)
        case None => Stop(NothingToRefine(p, h, t))
        case Some(i) =>
          if |t| >= p.limits.maxDistinct then Stop(DistinctRateLimit)
          else Reserve(p, h, [(t[i] + t[i + 1]) / 2], Refine, PairDepth(h, t, i) + 1)
  }

  // ---- Preparation --------------------------------------------------------------------------

  predicate LimitsOk(l: Limits) {
    && 1 <= l.minRate <= l.maxRate <= MAX_RATE
    && l.maxDistinct >= 1 && l.minimumValid >= 1 && l.confirmations >= 1
    && 0.0 <= l.lossPercent <= 100.0 && 0.0 < l.senderFraction <= 1.0
  }

  /** `_prepare_v1`: the whole initial grid is admitted before anything runs. */
  predicate Prepared(p: Search) {
    && LimitsOk(p.limits)
    && p.config.protocol == Udp && !p.config.bidirectional && p.config.duration > 0 && p.config.rate.None?
    && p.limits.minimumValid <= p.policy.repetitions
    && 1 <= |p.initial| <= p.limits.maxDistinct
    && |p.initial| * (p.policy.repetitions + p.policy.warmups) <= p.policy.maxTrials
    && (forall i :: 0 <= i < |p.initial| ==>
          p.limits.minRate <= p.initial[i] <= p.limits.maxRate && ResolveRate(p.config, Some(Aggregate(p.initial[i]))).Ok?)
    && (forall i, j :: 0 <= i < j < |p.initial| ==> p.initial[i] != p.initial[j])
    && p.limits.minRate in p.initial && p.limits.maxRate in p.initial
    && MakeBatch(p, [], p.initial, InitialGrid, 0).Ok?
  }

  /** Every batch of the history is the one the search would have chosen, with one record per trial. */
  ghost predicate Conforming(p: Search, h: History) {
    && AllRecorded(h)
    && forall k :: 0 <= k < |h| ==> ChosenAt(p, h, k)
  }

  ghost predicate ChosenAt(p: Search, h: History, k: nat)
    requires AllRecorded(h) && k < |h|
  {
    Choose(p, h[..k]) == Next(h[k].batch)
  }
}
