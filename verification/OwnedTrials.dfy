/**
 What both schedulers share: the world that children, clock and caller are to them, and how the outcome of an owned
 child is read.
 */
module OwnedTrials {
  import opened Options
  import opened JsonFrames
  import opened PlanOutcomes
  import opened PartialEvents

  /**
   What the scheduler cannot decide, indexed by the number of clock readings and awaits so far: monotonic
   offsets, which tasks have settled, what they hold, and when the caller has asked for cancellation.
   */
  datatype World = World(
    clock: nat -> real,
    wall: nat -> real,
    settled: (nat, nat) -> bool,
    outcome: nat -> Outcome,
    deliveries: nat -> seq<Delivery>,
    requested: nat -> bool,
    again: nat -> bool)

  /** The clock never decreases (ties are allowed), no cancellation request is withdrawn, every child ends. */
  ghost predicate Lawful(w: World) {
    && (forall n: nat :: Onward(w, n))
    && (forall i: nat :: Explained(w.outcome(i)))
    && (forall i: nat :: Ends(w, i))
  }

  ghost predicate Onward(w: World, n: nat) {
    0.0 <= w.clock(n) <= w.clock(n + 1) && (w.requested(n) ==> w.requested(n + 1))
  }

  /** The latest clock reading after `tick` readings and awaits. */
  function Reading(w: World, tick: nat): real { if tick == 0 then 0.0 else w.clock(tick - 1) }

  ghost predicate Ends(w: World, i: nat) { exists n: nat :: SettledFrom(w, i, n) }

  ghost predicate SettledFrom(w: World, i: nat, n: nat) { forall k: nat :: k >= n ==> w.settled(i, k) }

  lemma SettledLater(w: World, i: nat, a: nat, b: nat)
    requires SettledFrom(w, i, a) && a <= b
    ensures SettledFrom(w, i, b)
  {}

  /** From some tick on, every child of the plan that is still live has settled. */
  lemma EveryChildEnds(w: World, count: nat) returns (n: nat)
    requires Lawful(w)
    ensures forall i: nat :: i < count ==> SettledFrom(w, i, n)
  {
    n := 0;
    for k: nat := 0 to count
      invariant forall i: nat :: i < k ==> SettledFrom(w, i, n)
    {
      assert Ends(w, k);
      var own: nat :| SettledFrom(w, k, own);
      var later := if own > n then own else n;
      SettledLater(w, k, own, later);
      forall i: nat | i < k ensures SettledFrom(w, i, later) { SettledLater(w, i, n, later); }
      n := later;
    }
  }

  lemma {:induction false} RequestStands(w: World, a: nat, b: nat)
    requires Lawful(w) && a <= b && w.requested(a)
    ensures w.requested(b)
    decreases b - a
  {
    if a < b {
      assert Onward(w, a);
      RequestStands(w, a + 1, b);
    }
  }

  lemma {:induction false} ReadingsRise(w: World, a: nat, b: nat)
    requires Lawful(w) && a <= b
    ensures w.clock(a) <= w.clock(b)
    decreases b - a
  {
    if a < b {
      assert Onward(w, a);
      ReadingsRise(w, a + 1, b);
    }
  }

  /** How the awaiting caller gets the history. */
  datatype Signal = ReturnsHistory | RaisesCleanup | RaisesCancelled | RaisesTimeout

  /** What retrieving an outcome decides before the record is written. */
  datatype Verdict = Verdict(
    status: Status, artifact: Option<NativeStatus>, error: Option<Text>, reason: Option<StopReason>,
    evidence: bool, diagnostics: seq<Text>, confirmed: bool)

  ghost predicate Observed(v: Verdict, deliveries: seq<Delivery>, events: seq<NativeEvent>, observed: nat) {
    if RetainsEvents(v.status) then events == Retained(deliveries) && observed == |deliveries|
    else events == [] && observed == 0
  }

  /** What a record says of the outcome its child ended with and of the events delivered before. */
  ghost predicate Reads(
    status: Status, artifact: Option<NativeStatus>, exception: Option<Text>, evidence: bool, diagnostics: seq<Text>,
    events: seq<NativeEvent>, observed: int, outcome: Outcome, deliveries: seq<Delivery>, timed: bool)
  {
    && (match outcome
        case Returned(Succeeded) => status == Completed && artifact == Some(Succeeded)
        case Returned(Unsuccessful) => status == Failed && artifact == Some(Unsuccessful)
        case Returned(Partial) => status == Incomplete && artifact == Some(Partial)
        case Unencodable(name, notes) => status == Exception && exception == Some(name) && evidence && diagnostics == notes
        case Raised(name) => status == Exception && exception == Some(name) && !evidence
        case RaisedTimeout(name) =>
          (if timed then status in {Cancelled, TimedOut} else status == Exception && !evidence) && exception == Some(name)
        case RaisedCancelled(name) => status in {Cancelled, TimedOut} && exception == Some(name)
        case RaisedCleanup(name, _) => status == CleanupFailed && exception == Some(name))
    && (RetainsEvents(status) ==> events == Retained(deliveries) && observed == |deliveries|)
  }

  // ---- Why a run stops ----------------------------------------------------------------------

  function First<T>(a: Option<T>, b: Option<T>): Option<T> { if a.Some? then a else b }

  /** The terms a plan is run on. */
  datatype Terms = Terms(timeout: Option<real>, limit: Option<real>, stopOnError: bool)

  /** The outcome of a child gives this reason by itself. */
  predicate Speaks(o: Outcome, reason: StopReason) {
    match reason
    case CancelStop => o.RaisedCancelled? || (o.RaisedCleanup? && o.prior.PriorCancelled?)
    case TimeoutStop => o.RaisedTimeout? || (o.RaisedCleanup? && o.prior.PriorTimeout?)
    case CleanupStop => o.RaisedCleanup?
    case StopOnError => o != Returned(Succeeded)
    case ElapsedAdmissionLimit => false
  }

  ghost predicate SomeSpeaks(w: World, ended: set<nat>, reason: StopReason) {
    exists i :: i in ended && Speaks(w.outcome(i), reason)
  }

  ghost predicate AskedBefore(asked: nat -> bool, tick: nat) { exists n: nat :: n < tick && asked(n) }

  ghost predicate ReachedBefore(w: World, limit: Option<real>, tick: nat) {
    limit.Some? && exists n: nat :: n < tick && w.clock(n) >= limit.value
  }

  /**
   A reason has a cause: somebody asked, a reading reached the limit, or the outcome of a child that ended says so.
   */
  ghost predicate Caused(t: Terms, w: World, asked: nat -> bool, ended: set<nat>, tick: nat, reason: StopReason) {
    match reason
    case CancelStop => AskedBefore(asked, tick) || SomeSpeaks(w, ended, CancelStop)
    case TimeoutStop => t.timeout.Some? && (ReachedBefore(w, t.timeout, tick) || SomeSpeaks(w, ended, TimeoutStop))
    case ElapsedAdmissionLimit => ReachedBefore(w, t.limit, tick)
    case CleanupStop => SomeSpeaks(w, ended, CleanupStop)
    case StopOnError => t.stopOnError && SomeSpeaks(w, ended, StopOnError)
  }

  /** Whatever stopped the run, and whatever ended it, has a cause. */
  ghost predicate Grounded(
    t: Terms, w: World, asked: nat -> bool, ended: set<nat>, tick: nat, stop: Option<StopReason>, term: Option<StopReason>)
  {
    && (stop.Some? ==> Caused(t, w, asked, ended, tick, stop.value))
    && (term.Some? ==> Caused(t, w, asked, ended, tick, term.value))
  }

  /** Nothing happened by tick `tick` that could stop a run of `count` trials. */
  ghost predicate Undisturbed(t: Terms, w: World, asked: nat -> bool, count: nat, tick: nat) {
    && !AskedBefore(asked, tick) && !ReachedBefore(w, t.timeout, tick) && !ReachedBefore(w, t.limit, tick)
    && forall i: nat :: i < count ==> w.outcome(i) == Returned(Succeeded)
  }

  lemma CausedLater(
    t: Terms, w: World, asked: nat -> bool, ended: set<nat>, tick: nat, more: set<nat>, later: nat, reason: StopReason)
    requires Caused(t, w, asked, ended, tick, reason) && ended <= more && tick <= later
    ensures Caused(t, w, asked, more, later, reason)
  {}

  lemma GroundedLater(
    t: Terms, w: World, asked: nat -> bool, ended: set<nat>, tick: nat, more: set<nat>, later: nat,
    stop: Option<StopReason>, term: Option<StopReason>)
    requires Grounded(t, w, asked, ended, tick, stop, term) && ended <= more && tick <= later
    ensures Grounded(t, w, asked, more, later, stop, term)
  {
    hide Caused;
    if stop.Some? { CausedLater(t, w, asked, ended, tick, more, later, stop.value); }
    if term.Some? { CausedLater(t, w, asked, ended, tick, more, later, term.value); }
  }

  /** A reason with a cause may take either place. */
  lemma GroundedBy(
    t: Terms, w: World, asked: nat -> bool, ended: set<nat>, tick: nat, stop: Option<StopReason>, term: Option<StopReason>,
    soft: Option<StopReason>, hard: Option<StopReason>)
    requires Grounded(t, w, asked, ended, tick, stop, term)
    requires soft.Some? ==> Caused(t, w, asked, ended, tick, soft.value)
    requires hard.Some? ==> Caused(t, w, asked, ended, tick, hard.value)
    ensures Grounded(t, w, asked, ended, tick, First(stop, soft), First(term, hard))
  {
    hide Caused;
  }

  lemma AskedNow(t: Terms, w: World, asked: nat -> bool, ended: set<nat>, tick: nat, at: nat)
    requires at < tick && asked(at)
    ensures Caused(t, w, asked, ended, tick, CancelStop)
  {}

  lemma ReachedNow(w: World, limit: Option<real>, tick: nat, at: nat)
    requires at < tick && limit.Some? && w.clock(at) >= limit.value
    ensures ReachedBefore(w, limit, tick)
  {}

  lemma ReachedStill(w: World, limit: Option<real>, at: nat, tick: nat)
    requires ReachedBefore(w, limit, at) && at <= tick
    ensures ReachedBefore(w, limit, tick)
  {}

  lemma SpeaksNow(w: World, ended: set<nat>, i: nat, reason: StopReason)
    requires i in ended && Speaks(w.outcome(i), reason)
    ensures SomeSpeaks(w, ended, reason)
  {}

  /** A failed cleanup ends the run under the cause it was raised from, if that is a hard one. */
  function CleanupEnding(prior: Prior, timed: bool): StopReason {
    if prior.PriorCancelled? then CancelStop else if prior.PriorTimeout? && timed then TimeoutStop else CleanupStop
  }

  /** The hard stop an outcome calls for. */
  function Ending(outcome: Outcome, timed: bool): Option<StopReason> {
    match outcome
    case RaisedCleanup(_, prior) => Some(CleanupEnding(prior, timed))
    case RaisedCancelled(_) => Some(CancelStop)
    case RaisedTimeout(_) => if timed then Some(TimeoutStop) else None
    case _ => None
  }

  lemma EndingSpeaks(outcome: Outcome, timed: bool)
    ensures var e := Ending(outcome, timed);
      e.Some? ==> e.value in {CancelStop, TimeoutStop, CleanupStop} && Speaks(outcome, e.value) && (e.value == TimeoutStop ==> timed)
  {}

  /** What a child's end may stop is caused by its outcome. */
  lemma ChildGrounds(
    t: Terms, w: World, asked: nat -> bool, ended: set<nat>, tick: nat, stop: Option<StopReason>, term: Option<StopReason>,
    i: nat, failed: bool)
    requires Grounded(t, w, asked, ended, tick, stop, term) && i in ended
    requires failed ==> t.stopOnError && w.outcome(i) != Returned(Succeeded)
    ensures var e := Ending(w.outcome(i), t.timeout.Some?);
      Grounded(t, w, asked, ended, tick, First(First(stop, e), if failed then Some(StopOnError) else None), First(term, e))
  {
    hide Ending, Speaks, SomeSpeaks, AskedBefore, ReachedBefore;
    var e := Ending(w.outcome(i), t.timeout.Some?);
    EndingSpeaks(w.outcome(i), t.timeout.Some?);
    if e.Some? { SpeaksNow(w, ended, i, e.value); }
    if failed { FailureSpeaks(w, ended, i); }
  }

  lemma FailureSpeaks(w: World, ended: set<nat>, i: nat)
    requires i in ended && w.outcome(i) != Returned(Succeeded)
    ensures SomeSpeaks(w, ended, StopOnError)
  {
    assert Speaks(w.outcome(i), StopOnError);
  }

  /** Where nothing disturbs the run, nothing stops it. */
  lemma UndisturbedGoesOn(
    t: Terms, w: World, asked: nat -> bool, ended: set<nat>, count: nat, tick: nat, stop: Option<StopReason>,
    term: Option<StopReason>)
    requires Grounded(t, w, asked, ended, tick, stop, term) && Undisturbed(t, w, asked, count, tick)
    requires forall i :: i in ended ==> i < count
    ensures stop.None? && term.None?
  {}
}
