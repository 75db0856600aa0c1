/**
 The sequential owned scheduler (`async_trials.py`): one child at a time, pauses between trials, one stop decision
 kept through cancellation and cleanup. The clock, the child and the caller's cancellations are an arbitrary world.
 */
module SequentialTrials {
  import opened Options
  import opened PlanOutcomes
  import opened PartialEvents
  import opened ConcurrentPlan
  import opened SequentialReports
  import opened OwnedTrials

  datatype Setup = Setup(plan: Plan, timeout: Option<real>)

  ghost predicate SetupOk(u: Setup) { u.plan.admitted && (u.timeout.Some? ==> u.timeout.value > 0.0) }

  // ---- What every step keeps ----------------------------------------------------------------

  /** The records so far are what the checker wants of the first trials, under the stop decision so far. */
  ghost predicate RecordsOk(u: Setup, records: seq<PlanRecord>, stop: Option<StopReason>) {
    && |records| <= |u.plan.trials|
    && (forall i :: 0 <= i < |records| ==> RecordAccepted(records[i], u.plan.trials[i], stop))
    && (forall i, j :: 0 <= i < j < |records| && Halts(records[i], u.plan.stopOnError) ==> !Executed(records[j]))
  }

  /** While nothing has stopped the plan, nothing recorded may stop it either. */
  ghost predicate RunningOk(u: Setup, records: seq<PlanRecord>, stop: Option<StopReason>) {
    stop.None? ==> forall i :: 0 <= i < |records| ==> !Halts(records[i], u.plan.stopOnError)
  }

  ghost predicate AnyFailed(records: seq<PlanRecord>) { exists i :: 0 <= i < |records| && Unsuccess(records[i].status) }

  ghost predicate AnyUnconfirmed(records: seq<PlanRecord>) { exists i :: 0 <= i < |records| && !records[i].cleanupConfirmed }

  /** The stop decision has its grounds; a failed cleanup is recorded a moment after it stops the plan. */
  ghost predicate StopOk(u: Setup, records: seq<PlanRecord>, stop: Option<StopReason>, retrieving: bool) {
    && (stop == Some(ElapsedAdmissionLimit) ==> u.plan.stopAfterElapsed.Some?)
    && (stop == Some(TimeoutStop) ==> u.timeout.Some?)
    && (stop == Some(StopOnError) ==> u.plan.stopOnError && AnyFailed(records))
    && (stop == Some(CleanupStop) ==> retrieving || AnyUnconfirmed(records))
  }

  /** Work and pauses never outrun the clock. */
  ghost predicate Spent(records: seq<PlanRecord>, pauses: real, now: real) {
    pauses >= 0.0 && TotalElapsed(records) + pauses <= now
  }

  ghost predicate Inv(u: Setup, records: seq<PlanRecord>, stop: Option<StopReason>, pauses: real, now: real) {
    && RecordsOk(u, records, stop) && RunningOk(u, records, stop) && StopOk(u, records, stop, false)
    && Spent(records, pauses, now)
  }

  /** Deciding to stop leaves every record acceptable. */
  lemma StoppingKeepsRecords(u: Setup, records: seq<PlanRecord>, reason: StopReason)
    requires RecordsOk(u, records, None) && RunningOk(u, records, None)
    ensures RecordsOk(u, records, Some(reason))
  {
    hide TextAccepted;
    forall i | 0 <= i < |records| ensures RecordAccepted(records[i], u.plan.trials[i], Some(reason)) {
      assert RecordAccepted(records[i], u.plan.trials[i], None);
      assert !Halts(records[i], u.plan.stopOnError);
    }
  }

  lemma AppendKeepsRecords(u: Setup, records: seq<PlanRecord>, stop: Option<StopReason>, r: PlanRecord)
    requires RecordsOk(u, records, stop) && |records| < |u.plan.trials|
    requires RecordAccepted(r, u.plan.trials[|records|], stop)
    requires Executed(r) ==> forall i :: 0 <= i < |records| ==> !Halts(records[i], u.plan.stopOnError)
    ensures RecordsOk(u, records + [r], stop)
  {
    hide RecordAccepted, Halts, Executed;
  }

  lemma AppendAdds(records: seq<PlanRecord>, r: PlanRecord)
    ensures TotalElapsed(records + [r]) == TotalElapsed(records) + (if r.elapsed.Some? then r.elapsed.value else 0.0)
    ensures AnyFailed(records + [r]) <==> AnyFailed(records) || Unsuccess(r.status)
    ensures AnyUnconfirmed(records + [r]) <==> AnyUnconfirmed(records) || !r.cleanupConfirmed
  {
    var longer := records + [r];
    assert longer[..|records|] == records && longer[|records|] == r;
    if AnyFailed(records) {
      var i :| 0 <= i < |records| && Unsuccess(records[i].status);
      assert longer[i] == records[i];
    }
    if AnyUnconfirmed(records) {
      var i :| 0 <= i < |records| && !records[i].cleanupConfirmed;
      assert longer[i] == records[i];
    }
  }

  // ---- One record ---------------------------------------------------------------------------

  /** How the outcome is read; the second cause to arrive never renames the first. */
  function Judged(outcome: Outcome, stop: Option<StopReason>, timed: bool): Verdict {
    match outcome
    case Returned(native) => Verdict(FromNative(native), Some(native), None, None, false, [], true)
    case Unencodable(name, notes) => Verdict(Exception, None, Some(name), None, true, notes, true)
    case Raised(name) => Verdict(Exception, None, Some(name), None, false, [], true)
    case RaisedTimeout(name) =>
      if !timed then Verdict(Exception, None, Some(name), None, false, [], true)
      else Verdict(if stop == Some(CancelStop) then Cancelled else TimedOut, None, Some(name), stop, false, [], true)
    case RaisedCancelled(name) =>
      Verdict(if stop == Some(TimeoutStop) then TimedOut else Cancelled, None, Some(name), stop, false, [], true)
    case RaisedCleanup(name, _) => Verdict(CleanupFailed, None, Some(name), stop, false, [], false)
  }

  /** The stop decision after retrieving an outcome, given the one before. */
  function StopAfter(outcome: Outcome, stop: Option<StopReason>, timed: bool): Option<StopReason> {
    if stop.Some? then stop
    else match outcome
      case RaisedCleanup(_, prior) =>
        if prior.PriorCancelled? then Some(CancelStop)
        else if prior.PriorTimeout? && timed then Some(TimeoutStop)
        else Some(CleanupStop)
      case RaisedCancelled(_) => Some(CancelStop)
      case RaisedTimeout(_) => if timed then Some(TimeoutStop) else None
      case _ => None
  }

  function RecordOf(
    spec: TrialSpec, v: Verdict, started: real, finished: real, startedAt: real, completedAt: real,
    events: seq<NativeEvent>, observed: nat): PlanRecord
  {
    PlanRecord(
      spec, v.status, v.artifact, v.error, v.reason, Some(startedAt), Some(completedAt), Some(finished - started),
      v.evidence, v.diagnostics, v.confirmed, events, observed, observed - |events|)
  }

  /** Only the three reasons a wait can raise may precede an interrupted outcome. */
  predicate Interrupting(stop: Option<StopReason>) { stop in {None, Some(CancelStop), Some(TimeoutStop)} }

  lemma RecordOfIsAccepted(
    spec: TrialSpec, outcome: Outcome, before: Option<StopReason>, timed: bool, deliveries: seq<Delivery>,
    started: real, finished: real, startedAt: real, completedAt: real, events: seq<NativeEvent>, observed: nat)
    requires Explained(outcome) && Interrupting(before) && (before == Some(TimeoutStop) ==> timed)
    requires started <= finished
    requires var stop := StopAfter(outcome, before, timed); Observed(Judged(outcome, stop, timed), deliveries, events, observed)
    ensures var stop := StopAfter(outcome, before, timed);
      RecordAccepted(
        RecordOf(spec, Judged(outcome, stop, timed), started, finished, startedAt, completedAt, events, observed), spec, stop)
  {
    hide Bounded, Retained, EvidenceAccepted;
    var v := Judged(outcome, StopAfter(outcome, before, timed), timed);
    if RetainsEvents(v.status) {
      LogIsAccepted(v.status, deliveries);
      RetainedIsBoundedPrefix(deliveries);
    } else {
      NothingObserved(v.status);
    }
  }

  lemma NothingObserved(status: Status)
    requires !RetainsEvents(status)
    ensures EvidenceAccepted(status, [], 0, 0)
  {}

  function NotRunRecord(spec: TrialSpec, reason: Option<StopReason>): PlanRecord {
    PlanRecord(spec, NotRun, None, None, reason, None, None, None, false, [], true, [], 0, 0)
  }

  lemma ChildKeepsInv(u: Setup, records: seq<PlanRecord>, before: Option<StopReason>, outcome: Outcome, r: PlanRecord)
    requires RecordsOk(u, records, None) && RunningOk(u, records, None) && |records| < |u.plan.trials|
    requires Interrupting(before) && (before == Some(TimeoutStop) ==> u.timeout.Some?)
    requires var stop := StopAfter(outcome, before, u.timeout.Some?);
      RecordAccepted(r, u.plan.trials[|records|], stop) && r.status != NotRun
      && (outcome.RaisedCleanup? ==> !r.cleanupConfirmed)
    ensures var stop := StopAfter(outcome, before, u.timeout.Some?);
      var final := if stop.None? && Unsuccess(r.status) && u.plan.stopOnError then Some(StopOnError) else stop;
      RecordsOk(u, records + [r], final) && RunningOk(u, records + [r], final) && StopOk(u, records + [r], final, false)
  {
    hide TextAccepted;
    var stop := StopAfter(outcome, before, u.timeout.Some?);
    AppendAdds(records, r);
    if stop.Some? {
      StoppingKeepsRecords(u, records, stop.value);
    }
    AppendKeepsRecords(u, records, stop, r);
    if stop.None? {
      NoStopNoInterruption(u, records + [r], |records|);
      if Unsuccess(r.status) && u.plan.stopOnError { ErrorStopKeepsRecords(u, records, r); }
    }
  }

  lemma NoStopNoInterruption(u: Setup, records: seq<PlanRecord>, i: nat)
    requires RecordsOk(u, records, None) && i < |records|
    ensures records[i].status != NotRun && !Interrupted(records[i].status)
  {
    hide TextAccepted;
    assert RecordAccepted(records[i], u.plan.trials[i], None);
  }

  /** A failure recorded without any stop may itself stop the plan. */
  lemma ErrorStopKeepsRecords(u: Setup, records: seq<PlanRecord>, r: PlanRecord)
    requires RecordsOk(u, records + [r], None)
    ensures RecordsOk(u, records + [r], Some(StopOnError))
  {
    hide TextAccepted;
    var longer := records + [r];
    forall i | 0 <= i < |longer| ensures RecordAccepted(longer[i], u.plan.trials[i], Some(StopOnError)) {
      assert RecordAccepted(longer[i], u.plan.trials[i], None);
      NoStopNoInterruption(u, longer, i);
    }
  }

  /** A trial that cannot start is recorded as such. */
  lemma NotRunKeepsInv(u: Setup, records: seq<PlanRecord>, stop: Option<StopReason>)
    requires RecordsOk(u, records, stop) && StopOk(u, records, stop, false) && stop.Some? && |records| < |u.plan.trials|
    ensures var longer := records + [NotRunRecord(u.plan.trials[|records|], stop)];
      RecordsOk(u, longer, stop) && RunningOk(u, longer, stop) && StopOk(u, longer, stop, false)
  {
    var r := NotRunRecord(u.plan.trials[|records|], stop);
    AppendAdds(records, r);
    NothingObserved(NotRun);
    hide EvidenceAccepted;
    AppendKeepsRecords(u, records, stop, r);
  }

  /** What a record says of the outcome its child ended with and of the events delivered before. */
  ghost predicate Tells(r: PlanRecord, w: World, i: nat, timed: bool) {
    Reads(
      r.status, r.artifact, r.exception, r.evidence, r.diagnostics, r.events, r.observed, w.outcome(i), w.deliveries(i), timed)
  }

  ghost predicate Told(records: seq<PlanRecord>, w: World, timed: bool) {
    forall i :: 0 <= i < |records| && Executed(records[i]) ==> Tells(records[i], w, i, timed)
  }

  lemma JudgedReads(
    spec: TrialSpec, w: World, i: nat, stop: Option<StopReason>, timed: bool, v: Verdict,
    started: real, finished: real, startedAt: real, completedAt: real, events: seq<NativeEvent>, observed: nat)
    requires v == Judged(w.outcome(i), stop, timed) && Observed(v, w.deliveries(i), events, observed)
    ensures var r := RecordOf(spec, v, started, finished, startedAt, completedAt, events, observed);
      Tells(r, w, i, timed) && r.status != NotRun && (w.outcome(i).RaisedCleanup? <==> !r.cleanupConfirmed)
  {
    hide Retained;
  }

  lemma ToldGrows(records: seq<PlanRecord>, r: PlanRecord, w: World, timed: bool)
    requires Told(records, w, timed) && Tells(r, w, |records|, timed)
    ensures Told(records + [r], w, timed)
  {
    hide Tells;
  }

  lemma NothingToTell(records: seq<PlanRecord>, r: PlanRecord, w: World, timed: bool)
    requires Told(records, w, timed) && r.status == NotRun
    ensures Told(records + [r], w, timed)
  {
    hide Tells;
  }

  lemma ExplainedBy(w: World, i: nat)
    requires Lawful(w)
    ensures Explained(w.outcome(i))
  {}

  /** The finished records, read as a report, pass the independent checker. */
  lemma FinishedIsAccepted(u: Setup, records: seq<PlanRecord>, stop: Option<StopReason>, pauses: real, elapsed: real)
    requires SetupOk(u) && Inv(u, records, stop, pauses, elapsed) && |records| == |u.plan.trials|
    ensures HistoryAccepted(PlanExecution(u.plan, records, elapsed, pauses, stop, u.timeout))
    ensures stop == Some(CleanupStop) ==> AnyUnconfirmed(records)
  {
    hide RecordAccepted, Halts;
    NonnegativeWork(u, records, stop);
  }

  lemma {:induction false} NonnegativeWork(u: Setup, records: seq<PlanRecord>, stop: Option<StopReason>)
    requires RecordsOk(u, records, stop)
    ensures TotalElapsed(records) >= 0.0
  {
    hide TextAccepted;
    if records != [] {
      var n := |records| - 1;
      assert RecordAccepted(records[n], u.plan.trials[n], stop);
      ShorterRecords(u, records, stop, n);
      NonnegativeWork(u, records[..n], stop);
    }
  }

  lemma ShorterRecords(u: Setup, records: seq<PlanRecord>, stop: Option<StopReason>, n: nat)
    requires RecordsOk(u, records, stop) && n <= |records|
    ensures RecordsOk(u, records[..n], stop)
  {
    hide RecordAccepted, Halts, Executed;
  }

  // ---- Why a plan stops ---------------------------------------------------------------------

  /** The trials that were run, whatever came of them. */
  ghost function EndedIn(records: seq<PlanRecord>): set<nat> { set i: nat | i < |records| && records[i].status != NotRun }

  lemma EndedGrows(records: seq<PlanRecord>, r: PlanRecord)
    ensures EndedIn(records + [r]) == if r.status == NotRun then EndedIn(records) else EndedIn(records) + {|records|}
  {
    forall i: nat ensures i in EndedIn(records + [r]) <==> i in EndedIn(records) || (r.status != NotRun && i == |records|) {}
  }

  lemma StopAfterIsFirst(outcome: Outcome, stop: Option<StopReason>, timed: bool)
    ensures StopAfter(outcome, stop, timed) == First(stop, Ending(outcome, timed))
  {}

  lemma FailureReads(r: PlanRecord, w: World, i: nat, timed: bool)
    requires Tells(r, w, i, timed)
    ensures r.status != Completed <==> w.outcome(i) != Returned(Succeeded)
  {}

  lemma UnconfirmedIsFailed(e: PlanExecution, i: nat)
    requires HistoryAccepted(e) && i < |e.trials| && !e.trials[i].cleanupConfirmed
    ensures e.trials[i].status == CleanupFailed
  {}

  // ---- The scheduler ------------------------------------------------------------------------

  class Run {
    const u: Setup
    const world: World
    var tick: nat
    var records: seq<PlanRecord>
    var pauses: real
    var stopReason: Option<StopReason>
    var cleanupErrors: nat

    ghost function Now(): real
      reads this
    {
      Reading(world, tick)
    }

    ghost predicate Steady()
      reads this
    {
      SetupOk(u) && Lawful(world) && (cleanupErrors > 0 <==> AnyUnconfirmed(records))
    }

    ghost predicate Valid()
      reads this
    {
      Steady() && Inv(u, records, stopReason, pauses, Now())
    }

    function Conditions(): Terms { Terms(u.timeout, u.plan.stopAfterElapsed, u.plan.stopOnError) }

    /** Whatever stopped the plan so far has a cause. */
    ghost predicate Justified()
      reads this`records, this`tick, this`stopReason
    {
      Grounded(Conditions(), world, world.again, EndedIn(records), tick, stopReason, None)
    }

    constructor (u: Setup, world: World)
      requires SetupOk(u) && Lawful(world)
      ensures Valid() && Justified() && this.u == u && this.world == world && records == []
      ensures pauses == 0.0 && stopReason.None?
    {
      this.u, this.world := u, world;
      tick, records, pauses, stopReason, cleanupErrors := 0, [], 0.0, None, 0;
    }

    /** Read the monotonic clock. */
    method Clock() returns (t: real)
      requires Lawful(world)
      modifies this`tick
      ensures tick == old(tick) + 1 && t == world.clock(old(tick)) == Now() >= old(Now()) && t >= 0.0
    {
      assert Onward(world, tick) && (tick > 0 ==> Onward(world, tick - 1));
      t := world.clock(tick);
      tick := tick + 1;
    }

    /** Yield once; the caller's cancellation may be delivered here, any number of times over a run. */
    method Await() returns (raised: bool)
      requires Lawful(world)
      modifies this`tick
      ensures tick == old(tick) + 1 && Now() >= old(Now()) && raised == world.again(old(tick))
    {
      raised := world.again(tick);
      var _ := Clock();
    }

    /** `stop`: the first reason is kept. */
    method Stop(reason: StopReason)
      requires Valid()
      requires reason == CancelStop || (reason == TimeoutStop && u.timeout.Some?)
        || (reason == ElapsedAdmissionLimit && u.plan.stopAfterElapsed.Some?)
      modifies this`stopReason
      ensures Valid() && stopReason == if old(stopReason).None? then Some(reason) else old(stopReason)
    {
      hide RecordsOk, RunningOk, Spent, AnyFailed, AnyUnconfirmed, SetupOk, Lawful;
      if stopReason.None? {
        StoppingKeepsRecords(u, records, reason);
        stopReason := Some(reason);
        RunningIsMoot(u, records, stopReason);
      }
    }

    static lemma RunningIsMoot(u: Setup, records: seq<PlanRecord>, stop: Option<StopReason>)
      requires stop.Some?
      ensures RunningOk(u, records, stop)
    {}

    /** Whether the deadline has been reached. */
    method Expired() returns (expired: bool)
      requires Lawful(world)
      modifies this`tick
      ensures tick == old(tick) + (if u.timeout.Some? then 1 else 0) && Now() >= old(Now())
      ensures expired == (u.timeout.Some? && world.clock(old(tick)) >= u.timeout.value)
      ensures expired ==> Now() == world.clock(old(tick))
    {
      if u.timeout.None? { return false; }
      var t := Clock();
      return t >= u.timeout.value;
    }

    /** The deadline's reading comes first, the admission limit's next. */
    function LimitAt(at: nat): Option<StopReason> {
      if u.timeout.Some? && world.clock(at) >= u.timeout.value then Some(TimeoutStop)
      else if u.plan.stopAfterElapsed.Some?
           && world.clock(at + if u.timeout.Some? then 1 else 0) >= u.plan.stopAfterElapsed.value
      then Some(ElapsedAdmissionLimit)
      else None
    }

    function Readings(): nat {
      (if u.timeout.Some? then 1 else 0) + if u.plan.stopAfterElapsed.Some? then 1 else 0
    }

    /** A deadline or an admission limit reached by a reading is a cause. */
    lemma LimitsGround(at: nat, stop: Option<StopReason>)
      requires Grounded(Conditions(), world, world.again, EndedIn(records), at, stop, None) && tick >= at + Readings()
      ensures Grounded(
        Conditions(), world, world.again, EndedIn(records), tick, if stop.Some? then stop else LimitAt(at), None)
    {
      hide Grounded, ReachedBefore, AskedBefore, SomeSpeaks;
      var t, asked, ended := Conditions(), world.again, EndedIn(records);
      GroundedLater(t, world, asked, ended, at, ended, tick, stop, None);
      if LimitAt(at) == Some(TimeoutStop) { ReachedNow(world, u.timeout, tick, at); }
      if LimitAt(at) == Some(ElapsedAdmissionLimit) {
        ReachedNow(world, u.plan.stopAfterElapsed, tick, at + if u.timeout.Some? then 1 else 0);
      }
      GroundedBy(t, world, asked, ended, tick, stop, None, LimitAt(at), None);
    }

    method CheckLimits()
      requires Valid() && Justified()
      modifies this`tick, this`stopReason
      ensures Valid() && Justified() && tick == old(tick) + Readings()
      ensures stopReason == if old(stopReason).Some? then old(stopReason) else LimitAt(old(tick))
    {
      hide RecordsOk, RunningOk, StopOk, AnyUnconfirmed, SetupOk, Lawful, Grounded;
      var expired := Expired();
      if expired { Stop(TimeoutStop); }
      if u.plan.stopAfterElapsed.Some? {
        var t := Clock();
        if t >= u.plan.stopAfterElapsed.value { Stop(ElapsedAdmissionLimit); }
      }
      LimitsGround(old(tick), old(stopReason));
    }

    /** A trial is preceded by a pause unless it is the first or the limits already stop the plan. */
    function PausesAt(index: nat, at: nat): bool {
      !world.again(at) && LimitAt(at + 1).None? && index > 0 && u.plan.pauseSeconds != 0.0
    }

    /** When that pause begins. */
    function PauseStart(at: nat): nat { at + 1 + Readings() }

    /** Cancellation during the pause, or a limit after it. */
    function StopOfPause(at: nat): Option<StopReason> {
      if world.again(at + 1) then Some(CancelStop) else LimitAt(at + 3)
    }

    /** What stops the plan before a trial: a cancellation or a limit, before the pause or after it. */
    function StopBefore(index: nat, at: nat): Option<StopReason> {
      if world.again(at) then Some(CancelStop)
      else if !PausesAt(index, at) then LimitAt(at + 1)
      else StopOfPause(PauseStart(at))
    }

    /** One pause, which counts whether or not it is interrupted. */
    method Pause()
      requires Valid() && stopReason.None?
      modifies this`tick, this`stopReason, this`pauses
      ensures Valid() && Justified() && stopReason == StopOfPause(old(tick)) && tick > old(tick)
      ensures pauses == old(pauses) + (world.clock(old(tick) + 2) - world.clock(old(tick)))
    {
      hide RecordsOk, RunningOk, StopOk, AnyUnconfirmed, SetupOk, Lawful, LimitAt, Readings, Caused, EndedIn;
      var began := Clock();
      var raised := Await();
      var ended := Clock();
      pauses := pauses + (ended - began);
      if raised {
        AskedNow(Conditions(), world, world.again, EndedIn(records), tick, old(tick) + 1);
        Stop(CancelStop);
      } else {
        CheckLimits();
      }
    }

    /** Yield, check the limits, and pause before every trial but the first; an interrupted pause counts as well. */
    method BeforeTrial(index: nat)
      requires Valid() && stopReason.None?
      modifies this`tick, this`stopReason, this`pauses
      ensures Valid() && Justified() && stopReason == StopBefore(index, old(tick)) && tick > old(tick)
      ensures pauses == old(pauses) + if PausesAt(index, old(tick))
        then world.clock(PauseStart(old(tick)) + 2) - world.clock(PauseStart(old(tick))) else 0.0
    {
      hide RecordsOk, RunningOk, StopOk, AnyUnconfirmed, SetupOk, Lawful, LimitAt, Readings, StopOfPause, Caused, EndedIn;
      var raised := Await();
      if raised {
        AskedNow(Conditions(), world, world.again, EndedIn(records), tick, old(tick));
        Stop(CancelStop);
        return;
      }
      CheckLimits();
      if stopReason.None? && index > 0 && u.plan.pauseSeconds != 0.0 { Pause(); }
    }

    /** The time one pause took, if there was one. */
    function PauseTime(index: nat, at: nat): real {
      if PausesAt(index, at) then world.clock(PauseStart(at) + 2) - world.clock(PauseStart(at)) else 0.0
    }

    /** All pauses before trials, considered one after the other from these ticks on. */
    ghost function PausesOf(starts: seq<nat>): real {
      if starts == [] then 0.0 else PausesOf(starts[..|starts| - 1]) + PauseTime(|starts| - 1, starts[|starts| - 1])
    }

    /** The trial took from one reading to another, both after it was considered. */
    ghost predicate Took(r: PlanRecord, from: nat, until: nat) {
      exists a: nat, b: nat :: TookFrom(r, a, b) && from < a < b < until
    }

    ghost predicate TookFrom(r: PlanRecord, a: nat, b: nat) { r.elapsed == Some(world.clock(b) - world.clock(a)) }

    /** A trial ran exactly when nothing stopped the plan before it, and took the time recorded. */
    ghost predicate Ran(r: PlanRecord, index: nat, at: nat, stop: Option<StopReason>, until: nat) {
      if r.status == NotRun then stop.Some? && stop == StopBefore(index, at)
      else StopBefore(index, at).None? && Took(r, at, until)
    }

    /** Each trial considered ran exactly when nothing stopped the plan before it. */
    ghost predicate AllFair(starts: seq<nat>, trials: seq<PlanRecord>, stop: Option<StopReason>, until: nat)
      requires |starts| <= |trials|
    {
      forall i :: 0 <= i < |starts| ==> starts[i] < until && Ran(trials[i], i, starts[i], stop, until)
    }

    /** They were considered one after the other, and only the last of them may not have run. */
    ghost predicate OneByOne(starts: seq<nat>, trials: seq<PlanRecord>)
      requires |starts| <= |trials|
    {
      && (forall i, j :: 0 <= i < j < |starts| ==> starts[i] < starts[j])
      && (forall i :: 0 <= i < |starts| - 1 ==> trials[i].status != NotRun)
      && forall i :: |starts| <= i < |trials| ==> trials[i].status == NotRun
    }

    /** Each trial was considered in turn, from these ticks on, until the plan stopped; the rest was not run. */
    ghost predicate InTurn(starts: seq<nat>, trials: seq<PlanRecord>, stop: Option<StopReason>, until: nat) {
      && |starts| <= |trials| && (stop.None? ==> |starts| == |trials|)
      && AllFair(starts, trials, stop, until) && OneByOne(starts, trials)
    }

    ghost predicate SettledBy(index: nat, at: nat) { exists k: nat :: k <= at && world.settled(index, k) }

    /** Wait for the child until it settles, the deadline passes, or the caller cancels. */
    method WaitChild(index: nat, ghost last: nat) returns (done: bool, raised: bool)
      requires Lawful(world) && SettledFrom(world, index, last)
      modifies this`tick
      ensures tick >= old(tick) && Now() >= old(Now())
      ensures !done && !raised ==> u.timeout.Some? && Now() >= u.timeout.value && ReachedBefore(world, u.timeout, tick)
      ensures done ==> !raised && world.settled(index, tick)
      ensures raised ==> !done && AskedBefore(world.again, tick)
    {
      hide Reading, Lawful;
      while true
        invariant tick >= old(tick) && Now() >= old(Now())
        decreases if tick < last then last - tick else 0
      {
        raised := Await();
        if raised { return false, true; }
        if world.settled(index, tick) { return true, false; }
        var expired := Expired();
        if expired { return false, false; }
      }
    }

    /** `drain`: the child was cancelled once; later cancellations only mark the run. */
    method Drain(index: nat, ghost last: nat)
      requires Valid() && Justified() && SettledFrom(world, index, last) && Interrupting(stopReason)
      modifies this`tick, this`stopReason
      ensures Valid() && Justified() && Interrupting(stopReason) && (old(stopReason).Some? ==> stopReason == old(stopReason))
      ensures Now() >= old(Now()) && tick >= old(tick) && world.settled(index, tick)
    {
      hide RecordsOk, RunningOk, StopOk, AnyUnconfirmed, SetupOk, Lawful, Reading, Caused, Grounded, EndedIn;
      while !world.settled(index, tick)
        invariant Valid() && Justified() && Interrupting(stopReason) && (old(stopReason).Some? ==> stopReason == old(stopReason))
        invariant Now() >= old(Now()) && tick >= old(tick)
        decreases if tick < last then last - tick else 0
      {
        ghost var t, ended, at, stop := Conditions(), EndedIn(records), tick, stopReason;
        var raised := Await();
        GroundedLater(t, world, world.again, ended, at, ended, tick, stop, None);
        if raised {
          AskedNow(t, world, world.again, ended, tick, at);
          GroundedBy(t, world, world.again, ended, tick, stop, None, Some(CancelStop), None);
          Stop(CancelStop);
        }
      }
    }

    /** Supervise the child to its end; only a cancellation or the deadline, once it has come, stops the plan here. */
    method Supervise(index: nat)
      requires Valid() && stopReason.None?
      modifies this`tick, this`stopReason
      ensures Valid() && Justified() && Interrupting(stopReason) && Now() >= old(Now()) && SettledBy(index, tick)
      ensures tick >= old(tick)
      ensures stopReason == Some(TimeoutStop) ==> u.timeout.Some? && Now() >= u.timeout.value
      ensures stopReason == Some(CancelStop) ==> AskedBefore(world.again, tick)
    {
      hide RecordsOk, RunningOk, StopOk, AnyUnconfirmed, SetupOk, Reading, EndedIn, SomeSpeaks, ReachedBefore;
      assert Ends(world, index);
      ghost var last: nat :| SettledFrom(world, index, last);
      var done, raised := WaitChild(index, last);
      if raised {
        Stop(CancelStop);
        Drain(index, last);
        return;
      }
      ghost var at := tick;
      var late := Expired();
      if late { ReachedNow(world, u.timeout, tick, at); }
      if !done { ReachedStill(world, u.timeout, at, tick); }
      if !done || late { Stop(TimeoutStop); }
      if !done { Drain(index, last); }
    }

    method StopFirst(reason: StopReason)
      modifies this`stopReason
      ensures stopReason == if old(stopReason).None? then Some(reason) else old(stopReason)
    {
      if stopReason.None? { stopReason := Some(reason); }
    }

    /** Retrieve the owned child's outcome, also after the run was stopped. */
    method Retrieve(index: nat) returns (v: Verdict)
      modifies this`stopReason, this`cleanupErrors
      ensures stopReason == StopAfter(world.outcome(index), old(stopReason), u.timeout.Some?)
      ensures v == Judged(world.outcome(index), stopReason, u.timeout.Some?)
      ensures cleanupErrors == old(cleanupErrors) + if v.confirmed then 0 else 1
    {
      v := Verdict(Completed, None, None, None, false, [], true);
      match world.outcome(index) {
        case Returned(native) =>
          v := v.(artifact := Some(native), status := FromNative(native));
        case RaisedCleanup(name, prior) =>
          cleanupErrors := cleanupErrors + 1;
          if prior.PriorCancelled? {
            StopFirst(CancelStop);
          } else if prior.PriorTimeout? && u.timeout.Some? {
            StopFirst(TimeoutStop);
          }
          StopFirst(CleanupStop);
          v := v.(status := CleanupFailed, confirmed := false, reason := stopReason, error := Some(name));
        case RaisedCancelled(name) =>
          StopFirst(CancelStop);
          v := v.(status := if stopReason == Some(TimeoutStop) then TimedOut else Cancelled,
                  reason := stopReason, error := Some(name));
        case RaisedTimeout(name) =>
          if u.timeout.None? {
            v := v.(status := Exception, error := Some(name));
          } else {
            StopFirst(TimeoutStop);
            v := v.(status := if stopReason == Some(CancelStop) then Cancelled else TimedOut,
                    reason := stopReason, error := Some(name));
          }
        case Raised(name) =>
          v := v.(status := Exception, error := Some(name));
        case Unencodable(name, notes) =>
          v := v.(status := Exception, error := Some(name), evidence := true, diagnostics := notes);
      }
    }

    method Observe(index: nat, v: Verdict) returns (events: seq<NativeEvent>, observed: nat)
      ensures Observed(v, world.deliveries(index), events, observed)
    {
      events, observed := [], 0;
      if RetainsEvents(v.status) {
        events, observed := Collect(world.deliveries(index));
      }
    }

    /** Read the outcome of a child that has settled into its record. */
    method Read(index: nat, started: real, startedAt: real) returns (r: PlanRecord)
      requires Lawful(world) && index < |u.plan.trials| && started <= Now()
      requires Interrupting(stopReason) && (stopReason == Some(TimeoutStop) ==> u.timeout.Some?)
      modifies this`tick, this`stopReason, this`cleanupErrors
      ensures tick == old(tick) + 1 && Now() >= old(Now())
      ensures stopReason == StopAfter(world.outcome(index), old(stopReason), u.timeout.Some?)
      ensures RecordAccepted(r, u.plan.trials[index], stopReason) && Tells(r, world, index, u.timeout.Some?)
      ensures r.status != NotRun && r.elapsed == Some(world.clock(old(tick)) - started)
      ensures world.outcome(index).RaisedCleanup? <==> !r.cleanupConfirmed
      ensures cleanupErrors == old(cleanupErrors) + if r.cleanupConfirmed then 0 else 1
      ensures Now() == world.clock(old(tick))
    {
      hide RecordAccepted, Tells, Judged, StopAfter, Lawful, Reading;
      ghost var before := stopReason;
      var v := Retrieve(index);
      var events, observed := Observe(index, v);
      var finished := Clock();
      var completedAt := world.wall(tick);
      r := RecordOf(u.plan.trials[index], v, started, finished, startedAt, completedAt, events, observed);
      ExplainedBy(world, index);
      RecordOfIsAccepted(
        u.plan.trials[index], world.outcome(index), before, u.timeout.Some?, world.deliveries(index), started, finished,
        startedAt, completedAt, events, observed);
      JudgedReads(
        u.plan.trials[index], world, index, stopReason, u.timeout.Some?, v, started, finished, startedAt, completedAt, events,
        observed);
    }

    /** Write the record of a child that has settled; a failure stops the plan under stop-on-error. */
    method Write(index: nat, started: real, startedAt: real)
      requires Valid() && Justified() && index == |records| < |u.plan.trials| && Told(records, world, u.timeout.Some?)
      requires RecordsOk(u, records, None) && RunningOk(u, records, None)
      requires Interrupting(stopReason) && (stopReason == Some(TimeoutStop) ==> u.timeout.Some?)
      requires Spent(records, pauses, started) && started <= Now()
      modifies this`tick, this`records, this`stopReason, this`cleanupErrors
      ensures Valid() && Justified() && |records| == index + 1 && records[..index] == old(records)
      ensures Told(records, world, u.timeout.Some?) && tick == old(tick) + 1
      ensures records[index].status != NotRun && records[index].elapsed == Some(world.clock(old(tick)) - started)
      ensures records[index].status != Completed && u.plan.stopOnError ==> stopReason.Some?
    {
      hide RecordsOk, RunningOk, StopOk, AnyUnconfirmed, Told, Tells, RecordAccepted, TotalElapsed, Judged, StopAfter,
        Lawful, Reading, SetupOk, Grounded, EndedIn, Ending;
      ghost var before, at := stopReason, tick;
      StopAfterIsFirst(world.outcome(index), before, u.timeout.Some?);
      var r := Read(index, started, startedAt);
      ToldGrows(records, r, world, u.timeout.Some?);
      AppendAdds(records, r);
      ChildKeepsInv(u, records, before, world.outcome(index), r);
      records := records + [r];
      if r.status != Completed && u.plan.stopOnError { StopFirst(StopOnError); }
      EndGrounds(old(records), at, before, index, r);
    }

    /** Run one admitted trial to its record. */
    method Trial(index: nat)
      requires Valid() && Justified() && stopReason.None? && index == |records| < |u.plan.trials|
      requires Told(records, world, u.timeout.Some?)
      modifies this`tick, this`records, this`stopReason, this`cleanupErrors
      ensures Valid() && Justified() && |records| == index + 1 && records[..index] == old(records)
      ensures Told(records, world, u.timeout.Some?) && tick > old(tick) + 1
      ensures records[index].status != NotRun
      ensures records[index].elapsed == Some(world.clock(tick - 1) - world.clock(old(tick)))
      ensures records[index].status != Completed && u.plan.stopOnError ==> stopReason.Some?
    {
      hide RecordsOk, RunningOk, StopOk, AnyUnconfirmed, Told, Tells, RecordAccepted, TotalElapsed, Judged, StopAfter,
        Lawful, Reading, SetupOk, Grounded, EndedIn, Ending;
      var started := Clock();
      var startedAt := world.wall(tick);
      StillValid(started);
      Supervise(index);
      Write(index, started, startedAt);
    }

    /** The stop that a recorded child calls for is caused by its outcome. */
    lemma EndGrounds(earlier: seq<PlanRecord>, at: nat, stop: Option<StopReason>, index: nat, r: PlanRecord)
      requires Grounded(Conditions(), world, world.again, EndedIn(earlier), at, stop, None)
      requires tick >= at && index == |earlier| && records == earlier + [r] && r.status != NotRun
      requires Tells(r, world, index, u.timeout.Some?)
      ensures Grounded(Conditions(), world, world.again, EndedIn(records), tick,
        First(First(stop, Ending(world.outcome(index), u.timeout.Some?)),
          if r.status != Completed && u.plan.stopOnError then Some(StopOnError) else None), None)
    {
      hide Caused, Ending, EndedIn, Tells;
      EndedGrows(earlier, r);
      FailureReads(r, world, index, u.timeout.Some?);
      GroundedLater(Conditions(), world, world.again, EndedIn(earlier), at, EndedIn(records), tick, stop, None);
      ChildGrounds(
        Conditions(), world, world.again, EndedIn(records), tick, stop, None, index, r.status != Completed && u.plan.stopOnError);
    }

    lemma StillValid(t: real)
      requires Steady() && Inv(u, records, stopReason, pauses, t) && t <= Now()
      ensures Valid()
    {
      hide RecordsOk, RunningOk, StopOk, AnyUnconfirmed, SetupOk, Lawful, TotalElapsed;
    }

    /** A trial that cannot start is recorded with what stopped the plan. */
    method Skip(index: nat)
      requires Valid() && Justified() && stopReason.Some? && index == |records| < |u.plan.trials|
      requires Told(records, world, u.timeout.Some?)
      modifies this`records
      ensures Valid() && Justified() && Told(records, world, u.timeout.Some?)
      ensures records == old(records) + [NotRunRecord(u.plan.trials[index], stopReason)]
    {
      hide RecordsOk, RunningOk, StopOk, AnyUnconfirmed, Tells, Told, RecordAccepted, TotalElapsed, Lawful, Reading, SetupOk,
        Grounded, EndedIn;
      var r := NotRunRecord(u.plan.trials[index], stopReason);
      NotRunKeepsInv(u, records, stopReason);
      AppendAdds(records, r);
      EndedGrows(records, r);
      NothingToTell(records, r, world, u.timeout.Some?);
      records := records + [r];
    }

    static ghost predicate AllRan(records: seq<PlanRecord>) { forall i :: 0 <= i < |records| ==> records[i].status != NotRun }

    /** One turn of the loop: what stops the plan before the trial, or its record. */
    method Turn(index: nat, ghost starts: seq<nat>) returns (ghost later: seq<nat>)
      requires Valid() && Justified() && index == |records| < |u.plan.trials| && Told(records, world, u.timeout.Some?)
      requires stopReason.Some? || AllRan(records)
      requires InTurn(starts, records, stopReason, tick) && pauses == PausesOf(starts)
      modifies this
      ensures Valid() && Justified() && |records| == index + 1 && Told(records, world, u.timeout.Some?)
      ensures stopReason.Some? || AllRan(records)
      ensures InTurn(later, records, stopReason, tick) && pauses == PausesOf(later)
    {
      hide Valid, Justified, Told, InTurn, StopBefore, PausesAt, PauseStart;
      ghost var earlier, prior, at := records, stopReason, tick;
      later := starts;
      OnePerTrial(starts, records, stopReason, tick);
      if stopReason.None? {
        BeforeTrial(index);
        later := starts + [at];
        PausesNext(starts, at);
      }
      ghost var still := stopReason;
      if stopReason.Some? {
        Skip(index);
      } else {
        ghost var from := tick;
        Trial(index);
        TimeTaken(records[index], at, from, tick);
      }
      assert records == earlier + [records[index]];
      TurnTaken(starts, at, earlier, records[index], prior, still, stopReason, tick);
    }

    /** Run the whole plan: every declared trial has exactly one record and the checker accepts the history. */
    method Execute() returns (result: PlanExecution, signal: Signal, ghost starts: seq<nat>)
      requires Valid() && Justified() && records == [] && pauses == 0.0 && stopReason.None?
      modifies this
      ensures HistoryAccepted(result) && result.plan == u.plan && result.timeout == u.timeout
      ensures Told(result.trials, world, u.timeout.Some?)
      ensures signal.RaisesCleanup? <==> AnyUnconfirmed(result.trials)
      ensures signal.RaisesCancelled? ==> result.stopReason == Some(CancelStop)
      ensures signal.RaisesTimeout? ==> result.stopReason == Some(TimeoutStop)
      ensures signal.ReturnsHistory? && result.stopReason.Some? ==> !Hard(result.stopReason.value)
      ensures Grounded(Conditions(), world, world.again, EndedIn(result.trials), tick, result.stopReason, None)
      ensures result.stopReason.Some? || AllRan(result.trials)
      ensures InTurn(starts, result.trials, result.stopReason, tick) && result.pauses == PausesOf(starts)
      ensures Undisturbed(Conditions(), world, world.again, |result.trials|, tick) ==>
        signal.ReturnsHistory? && forall i :: 0 <= i < |result.trials| ==> result.trials[i].status == Completed
    {
      hide RecordsOk, RunningOk, StopOk, AnyUnconfirmed, Tells, Told, RecordAccepted, TotalElapsed, Lawful, Reading, SetupOk,
        Grounded, Undisturbed, EndedIn, HistoryAccepted, InTurn;
      starts := [];
      NobodyYet(tick);
      for index: nat := 0 to |u.plan.trials|
        invariant Valid() && Justified() && |records| == index && Told(records, world, u.timeout.Some?)
        invariant stopReason.Some? || AllRan(records)
        invariant InTurn(starts, records, stopReason, tick) && pauses == PausesOf(starts)
      {
        starts := Turn(index, starts);
      }
      ghost var at := tick;
      var elapsed := Clock();
      TurnsLast(starts, records, stopReason, at, tick);
      result := PlanExecution(u.plan, records, elapsed, pauses, stopReason, u.timeout);
      FinishedIsAccepted(u, records, stopReason, pauses, elapsed);
      GroundedLater(Conditions(), world, world.again, EndedIn(records), at, EndedIn(records), tick, stopReason, None);
      NothingLeft(result);
      signal :=
        if cleanupErrors > 0 then RaisesCleanup
        else if stopReason == Some(CancelStop) then RaisesCancelled
        else if stopReason == Some(TimeoutStop) then RaisesTimeout
        else ReturnsHistory;
    }

    /** Where nothing disturbed the plan, every trial completed. */
    lemma NothingLeft(result: PlanExecution)
      requires HistoryAccepted(result) && Told(result.trials, world, u.timeout.Some?)
      requires result.stopReason.Some? || AllRan(result.trials)
      requires Grounded(Conditions(), world, world.again, EndedIn(result.trials), tick, result.stopReason, None)
      ensures Undisturbed(Conditions(), world, world.again, |result.trials|, tick) ==>
        && result.stopReason.None? && !AnyUnconfirmed(result.trials)
        && forall i :: 0 <= i < |result.trials| ==> result.trials[i].status == Completed
    {
      hide HistoryAccepted, Tells, Grounded;
      var trials := result.trials;
      var t, asked, ended := Conditions(), world.again, EndedIn(trials);
      if Undisturbed(t, world, asked, |trials|, tick) {
        UndisturbedGoesOn(t, world, asked, ended, |trials|, tick, result.stopReason, None);
        forall i | 0 <= i < |trials| ensures trials[i].status == Completed && trials[i].cleanupConfirmed {
          FailureReads(trials[i], world, i, u.timeout.Some?);
          if !trials[i].cleanupConfirmed { UnconfirmedIsFailed(result, i); }
        }
      }
    }

    lemma NobodyYet(at: nat)
      ensures InTurn([], [], None, at) && PausesOf([]) == 0.0 && Told([], world, u.timeout.Some?)
    {}

    lemma OnePerTrial(starts: seq<nat>, trials: seq<PlanRecord>, stop: Option<StopReason>, until: nat)
      requires InTurn(starts, trials, stop, until)
      ensures stop.None? ==> |starts| == |trials|
    {
      hide Ran;
    }

    lemma PausesNext(starts: seq<nat>, at: nat)
      ensures PausesOf(starts + [at]) == PausesOf(starts) + PauseTime(|starts|, at)
    {
      assert (starts + [at])[..|starts|] == starts;
    }

    lemma TimeTaken(r: PlanRecord, at: nat, from: nat, until: nat)
      requires at < from && from + 1 < until && r.elapsed == Some(world.clock(until - 1) - world.clock(from))
      ensures Took(r, at, until)
    {
      assert TookFrom(r, from, until - 1);
    }

    lemma TookStill(r: PlanRecord, at: nat, until: nat, later: nat)
      requires Took(r, at, until) && until <= later
      ensures Took(r, at, later)
    {
      var a: nat, b: nat :| TookFrom(r, a, b) && at < a < b < until;
      assert TookFrom(r, a, b) && at < a < b < later;
    }

    lemma RanStill(r: PlanRecord, index: nat, at: nat, prior: Option<StopReason>, until: nat, stop: Option<StopReason>, later: nat)
      requires Ran(r, index, at, prior, until) && until <= later && (prior.Some? ==> stop == prior)
      ensures Ran(r, index, at, stop, later)
    {
      hide StopBefore, Took;
      if r.status != NotRun { TookStill(r, at, until, later); }
    }

    lemma FairStill(
      starts: seq<nat>, trials: seq<PlanRecord>, prior: Option<StopReason>, until: nat, stop: Option<StopReason>, later: nat)
      requires |starts| <= |trials| && AllFair(starts, trials, prior, until)
      requires until <= later && (prior.Some? ==> stop == prior)
      ensures AllFair(starts, trials, stop, later)
    {
      hide Ran;
      forall i | 0 <= i < |starts| ensures starts[i] < later && Ran(trials[i], i, starts[i], stop, later) {
        RanStill(trials[i], i, starts[i], prior, until, stop, later);
      }
    }

    lemma FairNext(
      starts: seq<nat>, at: nat, trials: seq<PlanRecord>, r: PlanRecord, stop: Option<StopReason>, until: nat)
      requires |starts| == |trials| && AllFair(starts, trials, stop, until)
      requires at < until && Ran(r, |trials|, at, stop, until)
      ensures AllFair(starts + [at], trials + [r], stop, until)
    {
      hide Ran;
      var turns, all := starts + [at], trials + [r];
      forall i | 0 <= i < |turns| ensures turns[i] < until && Ran(all[i], i, turns[i], stop, until) {
        if i < |starts| { assert turns[i] == starts[i] && all[i] == trials[i]; }
      }
    }

    lemma FairBeyond(starts: seq<nat>, trials: seq<PlanRecord>, r: PlanRecord, stop: Option<StopReason>, until: nat)
      requires |starts| <= |trials| && AllFair(starts, trials, stop, until)
      ensures AllFair(starts, trials + [r], stop, until)
    {
      hide Ran;
      forall i | 0 <= i < |starts| ensures starts[i] < until && Ran((trials + [r])[i], i, starts[i], stop, until) {
        assert (trials + [r])[i] == trials[i];
      }
    }

    lemma OneMore(starts: seq<nat>, at: nat, trials: seq<PlanRecord>, r: PlanRecord, until: nat)
      requires |starts| == |trials| && OneByOne(starts, trials) && AllFair(starts, trials, None, at)
      ensures OneByOne(starts + [at], trials + [r])
    {
      hide StopBefore, Took;
      forall i | 0 <= i < |starts| ensures starts[i] < at && trials[i].status != NotRun {
        NotRunIsStopped(trials[i], i, starts[i], at);
      }
    }

    lemma TurnsLast(starts: seq<nat>, trials: seq<PlanRecord>, stop: Option<StopReason>, until: nat, later: nat)
      requires InTurn(starts, trials, stop, until) && until <= later
      ensures InTurn(starts, trials, stop, later)
    {
      hide AllFair, OneByOne;
      FairStill(starts, trials, stop, until, stop, later);
    }

    /** One turn: a trial that was considered either ran or names what stopped the plan before it. */
    lemma TurnTaken(
      starts: seq<nat>, at: nat, trials: seq<PlanRecord>, r: PlanRecord, prior: Option<StopReason>, still: Option<StopReason>,
      stop: Option<StopReason>, until: nat)
      requires InTurn(starts, trials, prior, at) && at <= until && (prior.Some? ==> still == prior)
      requires prior.None? ==> at < until && still == StopBefore(|trials|, at)
      requires if still.Some? then r.status == NotRun && stop == still else r.status != NotRun && Took(r, at, until)
      ensures InTurn(if prior.None? then starts + [at] else starts, trials + [r], stop, until)
    {
      hide StopBefore, Took, Ran, AllFair, OneByOne;
      FairStill(starts, trials, prior, at, stop, until);
      if prior.None? {
        OneRan(r, |trials|, at, still, stop, until);
        FairNext(starts, at, trials, r, stop, until);
        OneMore(starts, at, trials, r, until);
      } else {
        FairBeyond(starts, trials, r, stop, until);
        NoneMore(starts, trials, r);
      }
    }

    lemma NoneMore(starts: seq<nat>, trials: seq<PlanRecord>, r: PlanRecord)
      requires |starts| <= |trials| && OneByOne(starts, trials) && r.status == NotRun
      ensures OneByOne(starts, trials + [r])
    {}

    lemma NotRunIsStopped(r: PlanRecord, index: nat, at: nat, until: nat)
      requires Ran(r, index, at, None, until)
      ensures r.status != NotRun
    {}

    lemma OneRan(r: PlanRecord, index: nat, at: nat, still: Option<StopReason>, stop: Option<StopReason>, until: nat)
      requires still == StopBefore(index, at)
      requires if still.Some? then r.status == NotRun && stop == still else r.status != NotRun && Took(r, at, until)
      ensures Ran(r, index, at, stop, until)
    {
      hide StopBefore, Took;
    }
  }
}
