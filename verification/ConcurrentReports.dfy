/**
 The independent checker of concurrent histories (`concurrent_reports.py`). `HistoryAccepted` says what
 it accepts; `ValidateHistory` is the checker, proved to decide exactly that.
 */
module ConcurrentReports {
  import opened Options
  import opened JsonFrames
  import opened PlanOutcomes
  import opened PartialEvents
  import opened Sorting
  import opened Reservations
  import opened ConcurrentPlan

  /** One declared trial's outcome, reservation interval and retained events. */
  datatype Record = Record(
    spec: TrialSpec,
    status: Status,
    keys: set<Key>,
    target: nat,
    index: Option<nat>,
    admitted: Option<real>,
    finished: Option<real>,
    released: Option<real>,
    artifact: Option<NativeStatus>,
    exception: Option<Text>,
    reason: Option<StopReason>,
    startedAt: Option<real>,
    completedAt: Option<real>,
    elapsed: Option<real>,
    evidence: bool,
    diagnostics: seq<Text>,
    cleanupConfirmed: bool,
    events: seq<NativeEvent>,
    observed: int,
    dropped: int)

  datatype Execution = Execution(
    plan: Plan,
    policy: Ceilings,
    resources: map<string, seq<string>>,
    trials: seq<Record>,
    elapsed: real,
    stopReason: Option<StopReason>,
    stoppedOffset: Option<real>,
    terminationReason: Option<StopReason>,
    terminationOffset: Option<real>,
    timeout: Option<real>)

  // ---- One record ---------------------------------------------------------------------------

  ghost predicate NotRunAccepted(r: Record, stopReason: Option<StopReason>) {
    && r.reason.Some? && r.reason == stopReason
    && r.cleanupConfirmed && r.diagnostics == []
    && r.artifact.None? && r.exception.None? && r.startedAt.None? && r.completedAt.None? && r.elapsed.None?
    && !r.evidence
    && r.index.None? && r.admitted.None? && r.finished.None? && r.released.None?
  }

  ghost predicate TimingAccepted(r: Record, elapsed: real, stoppedOffset: Option<real>) {
    && r.index.Some? && r.admitted.Some? && r.finished.Some?
    && r.startedAt.Some? && r.completedAt.Some? && r.elapsed.Some?
    && 0.0 <= r.admitted.value <= r.finished.value <= elapsed
    && r.elapsed.value >= 0.0
    && Abs(r.elapsed.value - (r.finished.value - r.admitted.value)) <= TOLERANCE
    && r.cleanupConfirmed == (r.status != CleanupFailed)
    && r.released == (if r.cleanupConfirmed then r.finished else None)
    && (stoppedOffset.Some? ==> r.admitted.value <= stoppedOffset.value)
  }

  ghost predicate InterruptionAccepted(r: Record, reason: Option<StopReason>, offset: Option<real>)
    requires r.finished.Some?
  {
    && reason.Some? && r.reason == reason
    && (r.status == TimedOut ==> reason == Some(TimeoutStop))
    && (r.status == Cancelled ==> reason != Some(TimeoutStop))
    && offset.Some? && offset.value <= r.finished.value
    && r.artifact.None? && !r.evidence
    && (r.status == CleanupFailed ==> r.exception.Some?)
  }

  ghost predicate ExceptionAccepted(r: Record) {
    && r.reason.None? && r.artifact.None? && r.exception.Some?
    && (r.evidence ==> r.diagnostics != [])
  }

  ghost predicate NativeAccepted(r: Record) {
    && r.artifact.Some? && FromNative(r.artifact.value) == r.status
    && r.exception.None? && !r.evidence && r.reason.None?
  }

  ghost predicate TextAccepted(r: Record) {
    && (r.exception.Some? ==> NonBlank(r.exception.value))
    && (forall i :: 0 <= i < |r.diagnostics| ==> NonBlank(r.diagnostics[i]))
    && EvidenceAccepted(r.status, r.events, r.observed, r.dropped)
  }

  ghost predicate OutcomeAccepted(r: Record, e: Execution) {
    && TextAccepted(r)
    && if r.status == NotRun then NotRunAccepted(r, e.stopReason)
       else
         && TimingAccepted(r, e.elapsed, e.stoppedOffset)
         && if Interrupted(r.status) then InterruptionAccepted(r, e.terminationReason, e.terminationOffset)
            else if r.status == Exception then ExceptionAccepted(r)
            else NativeAccepted(r)
  }

  /** `_validate_outcome`. */
  method ValidateOutcome(r: Record, e: Execution) returns (ok: bool)
    requires e.terminationReason.Some? ==> e.terminationOffset.Some?
    ensures ok <==> OutcomeAccepted(r, e)
  {
    var events := CheckEvidence(r.status, r.events, r.observed, r.dropped);
    if !events { return false; }
    if r.exception.Some? && !NonBlank(r.exception.value) { return false; }
    if exists i :: 0 <= i < |r.diagnostics| && !NonBlank(r.diagnostics[i]) { return false; }
    if r.status == NotRun {
      if r.reason.None? || r.reason != e.stopReason { return false; }
      return r.cleanupConfirmed && r.diagnostics == [] && r.artifact.None? && r.exception.None?
        && r.startedAt.None? && r.completedAt.None? && r.elapsed.None? && !r.evidence
        && r.index.None? && r.admitted.None? && r.finished.None? && r.released.None?;
    }
    if r.index.None? || r.admitted.None? || r.finished.None? || r.startedAt.None? || r.completedAt.None?
      || r.elapsed.None?
    {
      return false;
    }
    var admitted, finished := r.admitted.value, r.finished.value;
    if !(0.0 <= admitted <= finished <= e.elapsed) { return false; }
    if r.elapsed.value < 0.0 || Abs(r.elapsed.value - (finished - admitted)) > TOLERANCE { return false; }
    if r.cleanupConfirmed != (r.status != CleanupFailed) { return false; }
    if r.cleanupConfirmed {
      if r.released != r.finished { return false; }
    } else if r.released.Some? {
      return false;
    }
    if e.stoppedOffset.Some? && admitted > e.stoppedOffset.value { return false; }
    if Interrupted(r.status) {
      if e.terminationReason.None? || r.reason != e.terminationReason { return false; }
      if r.status == TimedOut && r.reason != Some(TimeoutStop) { return false; }
      if r.status == Cancelled && r.reason == Some(TimeoutStop) { return false; }
      if finished < e.terminationOffset.value { return false; }
      if r.artifact.Some? || r.evidence { return false; }
      return !(r.status == CleanupFailed && r.exception.None?);
    } else if r.status == Exception {
      if r.reason.Some? { return false; }
      if r.artifact.Some? || r.exception.None? { return false; }
      return !r.evidence || r.diagnostics != [];
    } else {
      if r.artifact.None? || r.exception.Some? || r.evidence || FromNative(r.artifact.value) != r.status {
        return false;
      }
      return r.reason.None?;
    }
  }

  // ---- The stop decisions -------------------------------------------------------------------

  predicate Together(reason: Option<StopReason>, offset: Option<real>, elapsed: real) {
    && (reason.None? <==> offset.None?)
    && (offset.Some? ==> 0.0 <= offset.value <= elapsed)
  }

  /** An executed trial that did not complete. */
  predicate Failure(r: Record) { Unsuccess(r.status) && r.finished.Some? }

  ghost predicate StopsPaired(e: Execution) {
    && Together(e.stopReason, e.stoppedOffset, e.elapsed)
    && Together(e.terminationReason, e.terminationOffset, e.elapsed)
    && (e.terminationReason.Some? ==>
          e.stopReason.Some? && e.stoppedOffset.value <= e.terminationOffset.value)
    && (e.stopReason.Some? && Hard(e.stopReason.value) ==>
          e.terminationReason == e.stopReason && e.terminationOffset == e.stoppedOffset)
    && (Some(TimeoutStop) in {e.stopReason, e.terminationReason} ==> e.timeout.Some?)
  }

  ghost predicate ErrorStopAccepted(e: Execution) {
    && (e.stopReason == Some(StopOnError) ==>
          && e.plan.stopOnError && e.stoppedOffset.Some?
          && exists i :: 0 <= i < |e.trials| && Failure(e.trials[i]) && e.trials[i].finished.value <= e.stoppedOffset.value)
    && (e.plan.stopOnError ==> forall i :: 0 <= i < |e.trials| && Failure(e.trials[i]) ==>
          && e.stopReason.Some?
          && forall j :: 0 <= j < |e.trials| && e.trials[j].admitted.Some? ==>
               e.trials[j].admitted.value <= e.trials[i].finished.value)
  }

  ghost predicate StopsAccepted(e: Execution) {
    && StopsPaired(e)
    && (e.stopReason == Some(ElapsedAdmissionLimit) ==>
          e.plan.stopAfterElapsed.Some? && e.stoppedOffset.value >= e.plan.stopAfterElapsed.value)
    && ErrorStopAccepted(e)
    && (Some(CleanupStop) in {e.stopReason, e.terminationReason} ==>
          exists i :: 0 <= i < |e.trials| && !e.trials[i].cleanupConfirmed)
  }

  /** The earliest observed failure. */
  method FirstFailure(trials: seq<Record>) returns (first: Option<real>)
    ensures first.None? <==> forall i :: 0 <= i < |trials| ==> !Failure(trials[i])
    ensures first.Some? ==> exists i :: 0 <= i < |trials| && Failure(trials[i]) && trials[i].finished == first
    ensures first.Some? ==> forall i :: 0 <= i < |trials| && Failure(trials[i]) ==> first.value <= trials[i].finished.value
  {
    first := None;
    for i := 0 to |trials|
      invariant first.None? <==> forall j :: 0 <= j < i ==> !Failure(trials[j])
      invariant first.Some? ==> exists j :: 0 <= j < i && Failure(trials[j]) && trials[j].finished == first
      invariant first.Some? ==> forall j :: 0 <= j < i && Failure(trials[j]) ==> first.value <= trials[j].finished.value
    {
      if Failure(trials[i]) && (first.None? || trials[i].finished.value < first.value) {
        first := trials[i].finished;
      }
    }
  }

  /** `_validate_stops`. */
  method ValidateStops(e: Execution) returns (ok: bool)
    ensures ok <==> StopsAccepted(e)
  {
    if !Together(e.stopReason, e.stoppedOffset, e.elapsed) { return false; }
    if !Together(e.terminationReason, e.terminationOffset, e.elapsed) { return false; }
    if e.terminationReason.Some?
      && (e.stopReason.None? || e.stoppedOffset.None? || e.terminationOffset.value < e.stoppedOffset.value)
    {
      return false;
    }
    if e.stopReason.Some? && Hard(e.stopReason.value)
      && (e.terminationReason != e.stopReason || e.terminationOffset != e.stoppedOffset)
    {
      return false;
    }
    if (e.stopReason == Some(TimeoutStop) || e.terminationReason == Some(TimeoutStop)) && e.timeout.None? {
      return false;
    }
    assert StopsPaired(e);
    if e.stopReason == Some(ElapsedAdmissionLimit)
      && (e.plan.stopAfterElapsed.None? || e.stoppedOffset.value < e.plan.stopAfterElapsed.value)
    {
      return false;
    }
    if e.stopReason == Some(StopOnError)
      && (!e.plan.stopOnError || e.stoppedOffset.None?
          || !exists i :: 0 <= i < |e.trials| && Failure(e.trials[i]) && e.trials[i].finished.value <= e.stoppedOffset.value)
    {
      return false;
    }
    if e.plan.stopOnError {
      var first := FirstFailure(e.trials);
      if first.Some? {
        if e.stopReason.None? { return false; }
        if exists j :: 0 <= j < |e.trials| && e.trials[j].admitted.Some? && e.trials[j].admitted.value > first.value {
          return false;
        }
      }
    }
    assert ErrorStopAccepted(e);
    if e.stopReason == Some(CleanupStop) || e.terminationReason == Some(CleanupStop) {
      return exists i :: 0 <= i < |e.trials| && !e.trials[i].cleanupConfirmed;
    }
    return true;
  }

  // ---- The reservations ---------------------------------------------------------------------

  function ReservationOf(r: Record): Reservation {
    Reservation(
      if r.status == NotRun then None else r.index,
      if r.admitted.Some? then r.admitted.value else 0.0, r.released, r.target, r.keys)
  }

  function ReservationsOf(trials: seq<Record>): seq<Reservation> {
    seq(|trials|, i requires 0 <= i < |trials| => ReservationOf(trials[i]))
  }

  /** `order` lists the admitted trials, each once, the k-th one carrying admission index k + 1. */
  ghost predicate AdmissionOrder(trials: seq<Record>, order: seq<nat>) {
    && (forall k :: 0 <= k < |order| ==>
          order[k] < |trials| && trials[order[k]].status != NotRun && trials[order[k]].index == Some(k + 1))
    && (forall i :: 0 <= i < |trials| && trials[i].status != NotRun ==>
          trials[i].index.Some? && 1 <= trials[i].index.value <= |order| && order[trials[i].index.value - 1] == i)
  }

  ghost predicate AdmissionsMonotone(trials: seq<Record>) {
    forall i, j :: 0 <= i < |trials| && 0 <= j < |trials| ==> AdmissionsAgree(trials[i], trials[j])
  }

  /** A lower admission index means no later an admission. */
  predicate AdmissionsAgree(a: Record, b: Record) {
    a.index.Some? && b.index.Some? && a.index.value <= b.index.value && a.admitted.Some? && b.admitted.Some?
    ==> a.admitted.value <= b.admitted.value
  }

  /** A trial ran only after the previous trial of its cell had finished and released. */
  ghost predicate PredecessorsReleased(plan: Plan, trials: seq<Record>)
    requires |trials| == |plan.trials|
  {
    forall i :: 0 <= i < |trials| ==> PredecessorReleased(plan, trials, i)
  }

  predicate PredecessorReleased(plan: Plan, trials: seq<Record>, i: nat)
    requires i < |trials| == |plan.trials|
  {
    trials[i].status != NotRun ==>
      match PriorInCell(plan.trials, i)
      case None => true
      case Some(prior) => FollowsRelease(trials[prior], trials[i])
  }

  predicate FollowsRelease(prior: Record, r: Record) {
    && prior.index.Some? && r.index.Some? && prior.index.value < r.index.value
    && prior.released.Some? && r.admitted.Some? && prior.released.value <= r.admitted.value
  }

  ghost predicate NeverOverCommitted(e: Execution) {
    var rs := ReservationsOf(e.trials);
    forall t :: WithinLimits(rs, OccupiedAt(rs, t), e.policy)
  }

  ghost predicate ReservationsAccepted(e: Execution)
    requires |e.trials| == |e.plan.trials|
  {
    && (exists order :: AdmissionOrder(e.trials, order))
    && AdmissionsMonotone(e.trials)
    && PredecessorsReleased(e.plan, e.trials)
    && NeverOverCommitted(e)
  }

  function IndexRank(trials: seq<Record>): nat -> Rank {
    (i: nat) => Rank(0.0, 0, if i < |trials| && trials[i].index.Some? then trials[i].index.value else 0)
  }

  /** `admitted` lists the trials that ran, each once. */
  ghost predicate ListsAdmitted(trials: seq<Record>, admitted: seq<nat>) {
    && (forall k :: 0 <= k < |admitted| ==> admitted[k] < |trials| && trials[admitted[k]].status != NotRun)
    && (forall j :: 0 <= j < |trials| && trials[j].status != NotRun ==> j in admitted)
    && (forall k, l :: 0 <= k < l < |admitted| ==> admitted[k] != admitted[l])
  }

  method ListAdmitted(trials: seq<Record>) returns (admitted: seq<nat>)
    ensures ListsAdmitted(trials, admitted)
  {
    admitted := [];
    for i := 0 to |trials|
      invariant forall k :: 0 <= k < |admitted| ==> admitted[k] < i && trials[admitted[k]].status != NotRun
      invariant forall j :: 0 <= j < i && trials[j].status != NotRun ==> j in admitted
      invariant forall k, l :: 0 <= k < l < |admitted| ==> admitted[k] != admitted[l]
    {
      if trials[i].status != NotRun { admitted := admitted + [i]; }
    }
  }

  lemma SortedAdmitted(trials: seq<Record>, admitted: seq<nat>)
    requires ListsAdmitted(trials, admitted)
    ensures var order := SortByRank<nat>(admitted, IndexRank(trials));
      && (forall k :: 0 <= k < |order| ==> order[k] < |trials| && trials[order[k]].status != NotRun)
      && (forall j :: 0 <= j < |trials| && trials[j].status != NotRun ==> j in order)
  {
    var order := SortByRank<nat>(admitted, IndexRank(trials));
    SortKeepsElements<nat>(admitted, IndexRank(trials));
    forall i: nat ensures i in order <==> i in admitted {
      assert i in multiset(order) <==> i in multiset(admitted);
    }
    forall k | 0 <= k < |order| ensures order[k] < |trials| && trials[order[k]].status != NotRun {
      assert order[k] in admitted;
    }
  }

  /** The admitted trials sorted by admission index, or nothing when the indices are not 1, 2, 3, ... */
  method AdmittedInOrder(trials: seq<Record>) returns (order: seq<nat>, ok: bool)
    requires forall i :: 0 <= i < |trials| && trials[i].status != NotRun ==> trials[i].index.Some?
    ensures ok <==> exists o :: AdmissionOrder(trials, o)
    ensures ok ==> AdmissionOrder(trials, order)
  {
    hide ListsAdmitted;
    var admitted := ListAdmitted(trials);
    order := SortByRank<nat>(admitted, IndexRank(trials));
    SortedAdmitted(trials, admitted);
    ok := forall k :: 0 <= k < |order| ==> trials[order[k]].index == Some(k + 1);
    if ok {
      forall i | 0 <= i < |trials| && trials[i].status != NotRun
        ensures 1 <= trials[i].index.value <= |order| && order[trials[i].index.value - 1] == i
      {
        var k :| 0 <= k < |order| && order[k] == i;
      }
      assert AdmissionOrder(trials, order);
    } else {
      forall o | AdmissionOrder(trials, o) ensures false {
        SortedIsTheOrder(trials, admitted, o);
      }
    }
  }

  lemma SameTrials(trials: seq<Record>, admitted: seq<nat>, o: seq<nat>)
    requires AdmissionOrder(trials, o)
    requires ListsAdmitted(trials, admitted)
    ensures multiset(admitted) == multiset(o)
  {
    NoRepeats(admitted);
    forall k, l | 0 <= k < l < |o| ensures o[k] != o[l] {
      assert trials[o[k]].index == Some(k + 1) && trials[o[l]].index == Some(l + 1);
    }
    NoRepeats(o);
    forall i ensures i in admitted <==> i in o {
      if i in o {
        var k :| 0 <= k < |o| && o[k] == i;
      }
      if i in admitted {
        assert o[trials[i].index.value - 1] == i;
      }
    }
  }

  lemma OrderIsStrict(trials: seq<Record>, o: seq<nat>)
    requires AdmissionOrder(trials, o)
    ensures StrictlySorted(o, IndexRank(trials))
  {
    var rank := IndexRank(trials);
    assert forall k :: 0 <= k < |o| ==> rank(o[k]) == Rank(0.0, 0, k + 1);
  }

  lemma DistinctAsAPermutation(trials: seq<Record>, admitted: seq<nat>, o: seq<nat>)
    requires AdmissionOrder(trials, o) && multiset(admitted) == multiset(o)
    requires forall k, l :: 0 <= k < l < |admitted| ==> admitted[k] != admitted[l]
    ensures DistinctRanks(admitted, IndexRank(trials))
  {
    var rank := IndexRank(trials);
    forall k, l | 0 <= k < l < |admitted| ensures rank(admitted[k]) != rank(admitted[l]) {
      assert admitted[k] in multiset(o) && admitted[l] in multiset(o);
      var a :| 0 <= a < |o| && o[a] == admitted[k];
      var b :| 0 <= b < |o| && o[b] == admitted[l];
      assert rank(o[a]) == Rank(0.0, 0, a + 1) && rank(o[b]) == Rank(0.0, 0, b + 1);
    }
  }

  /** If an admission order exists at all, sorting finds it. */
  lemma SortedIsTheOrder(trials: seq<Record>, admitted: seq<nat>, o: seq<nat>)
    requires AdmissionOrder(trials, o)
    requires ListsAdmitted(trials, admitted)
    ensures SortByRank(admitted, IndexRank(trials)) == o
  {
    SameTrials(trials, admitted, o);
    DistinctAsAPermutation(trials, admitted, o);
    OrderIsStrict(trials, o);
    SortKeepsElements(admitted, IndexRank(trials));
    SortIsStrict(admitted, IndexRank(trials));
    StrictOrderIsUnique(SortByRank(admitted, IndexRank(trials)), o, IndexRank(trials));
  }

  lemma {:induction false} NoRepeats(s: seq<nat>)
    requires forall k, l :: 0 <= k < l < |s| ==> s[k] != s[l]
    ensures forall i :: multiset(s)[i] == if i in s then 1 else 0
  {
    if s != [] {
      NoRepeats(s[1..]);
      assert s == [s[0]] + s[1..];
    }
  }

  /** What accepted outcomes already guarantee about intervals. */
  ghost predicate Timed(trials: seq<Record>) {
    forall i :: 0 <= i < |trials| ==> var r := trials[i];
      && (r.status == NotRun ==> r.index.None?)
      && (r.status != NotRun ==> r.index.Some? && r.admitted.Some?)
      && (r.status != NotRun && r.released.Some? ==> r.admitted.value <= r.released.value)
      && (r.status == NotRun ==> r.released.None?)
  }

  lemma OutcomesAreTimed(e: Execution)
    requires forall i :: 0 <= i < |e.trials| ==> OutcomeAccepted(e.trials[i], e)
    ensures Timed(e.trials)
  {
    forall i | 0 <= i < |e.trials| ensures var r := e.trials[i];
      && (r.status == NotRun ==> r.index.None?)
      && (r.status != NotRun ==> r.index.Some? && r.admitted.Some?)
      && (r.status != NotRun && r.released.Some? ==> r.admitted.value <= r.released.value)
      && (r.status == NotRun ==> r.released.None?)
    {
      assert OutcomeAccepted(e.trials[i], e);
    }
  }

  /** Admission offsets follow admission index order. */
  method CheckMonotone(trials: seq<Record>, order: seq<nat>) returns (ok: bool)
    requires Timed(trials) && AdmissionOrder(trials, order)
    ensures ok <==> AdmissionsMonotone(trials)
  {
    for k := 0 to |order|
      invariant forall l :: 1 <= l < k ==> trials[order[l - 1]].admitted.value <= trials[order[l]].admitted.value
    {
      if k > 0 && trials[order[k - 1]].admitted.value > trials[order[k]].admitted.value {
        assert !AdmissionsAgree(trials[order[k - 1]], trials[order[k]]);
        return false;
      }
    }
    StepwiseMonotone(trials, order);
    return true;
  }

  /** `previous` holds the latest of the first `n` trials of every cell. */
  ghost predicate LatestOfCells(trials: seq<TrialSpec>, n: nat, previous: map<string, nat>)
    requires n <= |trials|
  {
    forall cell :: LastOfCell(trials, n, cell) == if cell in previous then Some(previous[cell]) else None
  }

  lemma {:induction false} LatestStep(trials: seq<TrialSpec>, n: nat, previous: map<string, nat>)
    requires n < |trials| && LatestOfCells(trials, n, previous)
    ensures LatestOfCells(trials, n + 1, previous[trials[n].cellId := n])
  {}

  /** Same-cell predecessors finish and release before admission; one map remembers the latest of each cell. */
  method CheckPredecessors(plan: Plan, trials: seq<Record>) returns (ok: bool)
    requires |trials| == |plan.trials|
    ensures ok <==> PredecessorsReleased(plan, trials)
  {
    var previous: map<string, nat> := map[];
    for i := 0 to |trials|
      invariant LatestOfCells(plan.trials, i, previous)
      invariant forall j :: 0 <= j < i ==> PredecessorReleased(plan, trials, j)
    {
      LatestStep(plan.trials, i, previous);
      var cell := plan.trials[i].cellId;
      var prior := if cell in previous then Some(previous[cell]) else None;
      assert prior == LastOfCell(plan.trials, i, cell);
      previous := previous[cell := i];
      if trials[i].status != NotRun && prior.Some? {
        if !FollowsRelease(trials[prior.value], trials[i]) {
          assert !PredecessorReleased(plan, trials, i);
          return false;
        }
      }
    }
    return true;
  }

  lemma ReservationsAreOrdered(trials: seq<Record>, order: seq<nat>)
    requires Timed(trials) && AdmissionOrder(trials, order)
    ensures Ordered(ReservationsOf(trials))
  {}

  /** `_validate_reservations`, run after every outcome has been accepted. */
  method ValidateReservations(e: Execution) returns (ok: bool)
    requires |e.trials| == |e.plan.trials|
    requires forall i :: 0 <= i < |e.trials| ==> OutcomeAccepted(e.trials[i], e)
    ensures ok <==> ReservationsAccepted(e)
  {
    OutcomesAreTimed(e);
    var order;
    order, ok := AdmittedInOrder(e.trials);
    if !ok { return; }
    ok := CheckMonotone(e.trials, order);
    if !ok { return; }
    ok := CheckPredecessors(e.plan, e.trials);
    if !ok { return; }
    ReservationsAreOrdered(e.trials, order);
    ok := Sweep(ReservationsOf(e.trials), e.policy);
  }

  lemma {:induction false} StepwiseMonotone(trials: seq<Record>, order: seq<nat>)
    requires AdmissionOrder(trials, order)
    requires forall k :: 0 <= k < |order| ==> trials[order[k]].admitted.Some?
    requires forall i :: 0 <= i < |trials| && trials[i].status == NotRun ==> trials[i].index.None?
    requires forall l :: 1 <= l < |order| ==> trials[order[l - 1]].admitted.value <= trials[order[l]].admitted.value
    ensures AdmissionsMonotone(trials)
  {
    forall i, j | 0 <= i < |trials| && 0 <= j < |trials| ensures AdmissionsAgree(trials[i], trials[j]) {
      if trials[i].index.Some? && trials[j].index.Some? && trials[i].index.value <= trials[j].index.value {
        Climb(trials, order, trials[i].index.value - 1, trials[j].index.value - 1);
      }
    }
  }

  lemma {:induction false} Climb(trials: seq<Record>, order: seq<nat>, a: nat, b: nat)
    requires a <= b < |order|
    requires forall k :: 0 <= k < |order| ==> order[k] < |trials| && trials[order[k]].admitted.Some?
    requires forall l :: 1 <= l < |order| ==> trials[order[l - 1]].admitted.value <= trials[order[l]].admitted.value
    ensures trials[order[a]].admitted.value <= trials[order[b]].admitted.value
    decreases b - a
  {
    if a < b { Climb(trials, order, a, b - 1); }
  }

  // ---- The whole history --------------------------------------------------------------------

  /** The record is about its declared trial and reserves what admission derived for it. */
  predicate Declared(r: Record, spec: TrialSpec, resources: map<string, seq<string>>) {
    r.spec == spec && r.keys == KeysFor(spec, resources) && TargetFor(spec) == Some(r.target)
  }

  ghost predicate TrialsAccepted(e: Execution)
    requires |e.trials| == |e.plan.trials|
  {
    forall i :: 0 <= i < |e.trials| ==>
      Declared(e.trials[i], e.plan.trials[i], e.resources) && OutcomeAccepted(e.trials[i], e)
  }

  ghost predicate HistoryAccepted(e: Execution) {
    && PlanOk(e.plan, e.policy, e.resources)
    && |e.trials| == |e.plan.trials|
    && e.elapsed >= 0.0
    && (e.timeout.Some? ==> e.timeout.value > 0.0)
    && StopsAccepted(e)
    && TrialsAccepted(e)
    && ReservationsAccepted(e)
  }

  lemma StopsArePaired(e: Execution)
    requires StopsAccepted(e)
    ensures e.terminationReason.Some? ==> e.terminationOffset.Some?
  {}

  method ValidateTrials(e: Execution, prepared: Prepared) returns (ok: bool)
    requires |e.trials| == |e.plan.trials| && PreparedFrom(prepared, e.plan, e.resources) && StopsAccepted(e)
    ensures ok <==> TrialsAccepted(e)
  {
    hide OutcomeAccepted, StopsAccepted;
    assert e.terminationReason.Some? ==> e.terminationOffset.Some? by { StopsArePaired(e); }
    for i := 0 to |e.trials|
      invariant forall j :: 0 <= j < i ==>
        Declared(e.trials[j], e.plan.trials[j], e.resources) && OutcomeAccepted(e.trials[j], e)
    {
      var record := e.trials[i];
      if record.spec != e.plan.trials[i] { return false; }
      if record.keys != prepared.keys[i] || record.target != prepared.targets[i] { return false; }
      assert Declared(record, e.plan.trials[i], e.resources);
      var outcome := ValidateOutcome(record, e);
      if !outcome { return false; }
    }
    return true;
  }

  /** `_validate_history` decides exactly `HistoryAccepted`. */
  method ValidateHistory(e: Execution) returns (ok: bool)
    ensures ok <==> HistoryAccepted(e)
  {
    var prepared := PrepareConcurrentPlan(e.plan, e.policy, e.resources);
    if prepared.None? { return false; }
    if |e.trials| != |e.plan.trials| { return false; }
    if e.elapsed < 0.0 { return false; }
    if e.timeout.Some? && e.timeout.value <= 0.0 { return false; }
    ok := ValidateStops(e);
    if !ok { return; }
    ok := ValidateTrials(e, prepared.value);
    if !ok { return; }
    ok := ValidateReservations(e);
  }
}
