/**
 The independent checker of sequential histories (`plan_reports.py`). `HistoryAccepted` says what it accepts;
 `ValidateHistory` is the checker, proved to decide exactly that.
 */
module SequentialReports {
  import opened Options
  import opened JsonFrames
  import opened PlanOutcomes
  import opened PartialEvents
  import opened ConcurrentPlan

  datatype PlanRecord = PlanRecord(
    spec: TrialSpec,
    status: Status,
    artifact: Option<NativeStatus>,
    exception: Option<Text>,
    reason: Option<StopReason>,
    startedAt: Option<real>,
    completedAt: Option<real>,
    elapsed: Option<real>,
    evidence: bool,
    diagnostics: seq<Text>,
    cleanupConfirmed: bool,
    events: seq<NativeEvent>,
    observed: int,
    dropped: int)

  datatype PlanExecution = PlanExecution(
    plan: Plan,
    trials: seq<PlanRecord>,
    elapsed: real,
    pauses: real,
    stopReason: Option<StopReason>,
    timeout: Option<real>)

  /** Recorded work of all trials. */
  function TotalElapsed(trials: seq<PlanRecord>): real {
    if trials == [] then 0.0
    else
      TotalElapsed(trials[..|trials| - 1])
      + (if trials[|trials| - 1].elapsed.Some? then trials[|trials| - 1].elapsed.value else 0.0)
  }

  predicate Executed(r: PlanRecord) { r.status != NotRun }

  predicate NotRunAccepted(r: PlanRecord, stopReason: Option<StopReason>) {
    && r.reason.Some? && r.reason == stopReason
    && r.cleanupConfirmed && r.diagnostics == []
    && r.artifact.None? && r.exception.None? && r.startedAt.None? && r.completedAt.None? && r.elapsed.None?
    && !r.evidence
  }

  predicate TimingAccepted(r: PlanRecord) {
    && r.elapsed.Some? && r.startedAt.Some? && r.completedAt.Some? && r.elapsed.value >= 0.0
    && r.cleanupConfirmed == (r.status != CleanupFailed)
  }

  /** The plan stop reasons an interrupted status may name. */
  predicate Names(s: Status, reason: Option<StopReason>) {
    match s
    case Cancelled => reason == Some(CancelStop)
    case TimedOut => reason == Some(TimeoutStop)
    case CleanupFailed => reason in {Some(CleanupStop), Some(CancelStop), Some(TimeoutStop)}
    case _ => true
  }

  predicate InterruptionAccepted(r: PlanRecord, stopReason: Option<StopReason>) {
    && Names(r.status, stopReason) && r.reason == stopReason
    && r.artifact.None? && !r.evidence
    && (r.status == CleanupFailed ==> r.exception.Some?)
  }

  predicate ExceptionAccepted(r: PlanRecord) {
    r.artifact.None? && r.exception.Some? && (r.evidence ==> r.diagnostics != [])
  }

  predicate NativeAccepted(r: PlanRecord) {
    r.artifact.Some? && FromNative(r.artifact.value) == r.status && r.exception.None? && !r.evidence
  }

  ghost predicate TextAccepted(r: PlanRecord) {
    && (r.exception.Some? ==> NonBlank(r.exception.value))
    && (forall i :: 0 <= i < |r.diagnostics| ==> NonBlank(r.diagnostics[i]))
    && EvidenceAccepted(r.status, r.events, r.observed, r.dropped)
  }

  predicate OutcomeAccepted(r: PlanRecord, stopReason: Option<StopReason>) {
    if r.status == NotRun then NotRunAccepted(r, stopReason)
    else
      && TimingAccepted(r)
      && if Interrupted(r.status) then InterruptionAccepted(r, stopReason)
         else if r.status == Exception then ExceptionAccepted(r)
         else NativeAccepted(r)
  }

  /** Whether a record forbids every later execution. */
  predicate Halts(r: PlanRecord, stopOnError: bool) {
    r.status == NotRun || Interrupted(r.status) || (stopOnError && Unsuccess(r.status))
  }

  ghost predicate RecordAccepted(r: PlanRecord, spec: TrialSpec, stopReason: Option<StopReason>) {
    r.spec == spec && TextAccepted(r) && OutcomeAccepted(r, stopReason)
  }

  ghost predicate StopAccepted(e: PlanExecution) {
    && (e.stopReason == Some(ElapsedAdmissionLimit) ==> e.plan.stopAfterElapsed.Some?)
    && (e.stopReason == Some(TimeoutStop) ==> e.timeout.Some?)
    && (e.stopReason == Some(StopOnError) ==>
          e.plan.stopOnError && exists i :: 0 <= i < |e.trials| && Unsuccess(e.trials[i].status))
    && (e.stopReason == Some(CleanupStop) ==> exists i :: 0 <= i < |e.trials| && !e.trials[i].cleanupConfirmed)
  }

  ghost predicate HistoryAccepted(e: PlanExecution) {
    && e.plan.admitted && |e.trials| == |e.plan.trials|
    && e.elapsed >= 0.0 && e.pauses >= 0.0 && (e.timeout.Some? ==> e.timeout.value > 0.0)
    && (forall i :: 0 <= i < |e.trials| ==> RecordAccepted(e.trials[i], e.plan.trials[i], e.stopReason))
    && (forall i, j :: 0 <= i < j < |e.trials| && Halts(e.trials[i], e.plan.stopOnError) ==> !Executed(e.trials[j]))
    && TotalElapsed(e.trials) + e.pauses <= e.elapsed + TOLERANCE
    && StopAccepted(e)
  }

  /** The checks on one record by itself. */
  method ValidateRecord(r: PlanRecord, spec: TrialSpec, stopReason: Option<StopReason>) returns (ok: bool)
    ensures ok <==> RecordAccepted(r, spec, stopReason)
  {
    hide EvidenceAccepted, NonBlank;
    if r.spec != spec { return false; }
    var evidence := CheckEvidence(r.status, r.events, r.observed, r.dropped);
    if !evidence { return false; }
    if r.exception.Some? && !NonBlank(r.exception.value) { return false; }
    if exists i :: 0 <= i < |r.diagnostics| && !NonBlank(r.diagnostics[i]) { return false; }
    return OutcomeAccepted(r, stopReason);
  }

  /** Every record in order is accepted and follows nothing that halted the plan. */
  ghost predicate PrefixAccepted(e: PlanExecution, n: nat)
    requires n <= |e.trials| == |e.plan.trials|
  {
    && (forall j :: 0 <= j < n ==> RecordAccepted(e.trials[j], e.plan.trials[j], e.stopReason))
    && (forall j, k :: 0 <= j < k < n && Halts(e.trials[j], e.plan.stopOnError) ==> !Executed(e.trials[k]))
  }

  /** The flags the checker keeps over the first `n` records. */
  ghost predicate Flagged(e: PlanExecution, n: nat, halted: bool, failed: bool, unconfirmed: bool)
    requires n <= |e.trials|
  {
    && (halted <==> exists j :: 0 <= j < n && Halts(e.trials[j], e.plan.stopOnError))
    && (failed <==> exists j :: 0 <= j < n && Unsuccess(e.trials[j].status))
    && (unconfirmed <==> exists j :: 0 <= j < n && !e.trials[j].cleanupConfirmed)
  }

  lemma PrefixNext(e: PlanExecution, n: nat, halted: bool, failed: bool, unconfirmed: bool)
    requires n < |e.trials| == |e.plan.trials| && PrefixAccepted(e, n) && Flagged(e, n, halted, failed, unconfirmed)
    ensures PrefixAccepted(e, n + 1) <==>
      RecordAccepted(e.trials[n], e.plan.trials[n], e.stopReason) && !(halted && Executed(e.trials[n]))
    ensures Flagged(e, n + 1, halted || Halts(e.trials[n], e.plan.stopOnError),
                    failed || Unsuccess(e.trials[n].status), unconfirmed || !e.trials[n].cleanupConfirmed)
  {
    hide RecordAccepted, Halts, Unsuccess, Executed;
    if PrefixAccepted(e, n + 1) && halted {
      var j :| 0 <= j < n && Halts(e.trials[j], e.plan.stopOnError);
      assert 0 <= j < n < n + 1;
    }
  }

  lemma PrefixShrinks(e: PlanExecution, n: nat)
    requires n <= |e.trials| == |e.plan.trials| && PrefixAccepted(e, |e.trials|)
    ensures PrefixAccepted(e, n)
  {
    hide RecordAccepted, Halts, Executed;
  }

  /** One pass over the records with the flags and the sum the checker keeps. */
  method Scan(e: PlanExecution) returns (ok: bool, failed: bool, unconfirmed: bool, total: real)
    requires |e.trials| == |e.plan.trials|
    ensures ok <==> PrefixAccepted(e, |e.trials|)
    ensures ok ==> total == TotalElapsed(e.trials)
    ensures ok ==> (failed <==> exists j :: 0 <= j < |e.trials| && Unsuccess(e.trials[j].status))
    ensures ok ==> (unconfirmed <==> exists j :: 0 <= j < |e.trials| && !e.trials[j].cleanupConfirmed)
  {
    hide RecordAccepted, Halts, Unsuccess, Executed, PrefixAccepted;
    var halted := false;
    ok, failed, unconfirmed, total := true, false, false, 0.0;
    NothingYet(e);
    for i := 0 to |e.trials|
      invariant ok && PrefixAccepted(e, i) && Flagged(e, i, halted, failed, unconfirmed)
      invariant total == TotalElapsed(e.trials[..i])
    {
      var r := e.trials[i];
      PrefixNext(e, i, halted, failed, unconfirmed);
      var fine := ValidateRecord(r, e.plan.trials[i], e.stopReason);
      if !fine || (halted && Executed(r)) {
        if PrefixAccepted(e, |e.trials|) { PrefixShrinks(e, i + 1); }
        return false, failed, unconfirmed, total;
      }
      assert e.trials[..i + 1][..i] == e.trials[..i];
      total := total + (if r.elapsed.Some? then r.elapsed.value else 0.0);
      halted := halted || Halts(r, e.plan.stopOnError);
      failed := failed || Unsuccess(r.status);
      unconfirmed := unconfirmed || !r.cleanupConfirmed;
    }
    assert e.trials[..|e.trials|] == e.trials;
  }

  lemma NothingYet(e: PlanExecution)
    requires |e.trials| == |e.plan.trials|
    ensures PrefixAccepted(e, 0)
  {}

  /** `_validate_history`. */
  method ValidateHistory(e: PlanExecution) returns (ok: bool)
    ensures ok <==> HistoryAccepted(e)
  {
    hide RecordAccepted, Halts, Unsuccess, Executed, TotalElapsed;
    if !e.plan.admitted || |e.trials| != |e.plan.trials| { return false; }
    if e.elapsed < 0.0 || e.pauses < 0.0 { return false; }
    if e.timeout.Some? && e.timeout.value <= 0.0 { return false; }
    var fine, failed, unconfirmed, total := Scan(e);
    if !fine { return false; }
    if total + e.pauses > e.elapsed + TOLERANCE { return false; }
    if e.stopReason == Some(ElapsedAdmissionLimit) && e.plan.stopAfterElapsed.None? { return false; }
    if e.stopReason == Some(TimeoutStop) && e.timeout.None? { return false; }
    if e.stopReason == Some(StopOnError) && (!e.plan.stopOnError || !failed) { return false; }
    return e.stopReason != Some(CleanupStop) || unconfirmed;
  }
}
