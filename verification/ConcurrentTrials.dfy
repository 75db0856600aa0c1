/**
 The bounded concurrent scheduler (`concurrent_trials.py`): admission under a worker ceiling, a summed
 rate cap, exclusive keys and per-cell order; batch consumption of finished children; soft stops against
 hard terminations. Children, the clock and the caller's cancellation are an arbitrary world.
 */
module ConcurrentTrials {
  import opened Options
  import opened PlanOutcomes
  import opened PartialEvents
  import opened Intent
  import opened OwnedTrials
  import opened Sorting
  import opened Reservations
  import opened ConcurrentPlan
  import opened ConcurrentReports
  import opened ConcurrentLedger

  /** What a record says of the outcome its child ended with and of the events delivered before. */
  ghost predicate Faithful(r: Record, w: World, i: nat, timed: bool) {
    Reads(
      r.status, r.artifact, r.exception, r.evidence, r.diagnostics, r.events, r.observed, w.outcome(i), w.deliveries(i), timed)
  }

  ghost predicate AllFaithful(records: map<nat, Record>, w: World, timed: bool) {
    forall i :: i in records ==> Faithful(records[i], w, i, timed)
  }

  ghost predicate Pronounced(v: Verdict, outcome: Outcome, timed: bool) {
    match outcome
    case Returned(native) => v == Verdict(FromNative(native), Some(native), None, None, false, [], true)
    case Unencodable(name, notes) => v == Verdict(Exception, None, Some(name), None, true, notes, true)
    case Raised(name) => v == Verdict(Exception, None, Some(name), None, false, [], true)
    case RaisedTimeout(name) =>
      if timed then v.status in {Cancelled, TimedOut} && v == Verdict(v.status, None, Some(name), v.reason, false, [], true)
      else v == Verdict(Exception, None, Some(name), None, false, [], true)
    case RaisedCancelled(name) =>
      v.status in {Cancelled, TimedOut} && v == Verdict(v.status, None, Some(name), v.reason, false, [], true)
    case RaisedCleanup(name, _) => v == Verdict(CleanupFailed, None, Some(name), v.reason, false, [], false)
  }

  /** For each trial, the latest earlier trial of its cell. */
  ghost predicate Precede(trials: seq<TrialSpec>, before: map<nat, nat>) {
    forall i :: 0 <= i < |trials| ==> PriorInCell(trials, i) == if i in before then Some(before[i]) else None
  }

  lemma NothingSeenYet(trials: seq<TrialSpec>)
    ensures LatestOfCells(trials, 0, map[])
  {}

  /** What the map holds for a trial's own cell is the trial's predecessor. */
  lemma PriorIsLatest(trials: seq<TrialSpec>, i: nat, previous: map<string, nat>)
    requires i < |trials| && LatestOfCells(trials, i, previous)
    ensures var cell := trials[i].cellId;
      PriorInCell(trials, i) == if cell in previous then Some(previous[cell]) else None
  {}

  method PredecessorMap(trials: seq<TrialSpec>) returns (before: map<nat, nat>)
    ensures Precede(trials, before)
  {
    hide LatestOfCells, PriorInCell;
    NothingSeenYet(trials);
    var previous: map<string, nat> := map[];
    before := map[];
    for i := 0 to |trials|
      invariant LatestOfCells(trials, i, previous)
      invariant forall j :: j in before ==> j < i
      invariant forall j :: 0 <= j < i ==>
        PriorInCell(trials, j) == if j in before then Some(before[j]) else None
    {
      var cell := trials[i].cellId;
      PriorIsLatest(trials, i, previous);
      LatestStep(trials, i, previous);
      if cell in previous { before := before[i := previous[cell]]; }
      previous := previous[cell := i];
    }
  }

  function RecordOf(
    u: Setup, index: nat, owned: Owned, v: Verdict, finished: real, completedAt: real,
    events: seq<NativeEvent>, observed: nat): Record
    requires Sized(u) && index < |u.plan.trials|
  {
    Record(
      u.plan.trials[index], v.status, u.keys[index], u.targets[index],
      Some(owned.index), Some(owned.admitted), Some(finished), if v.confirmed then Some(finished) else None,
      v.artifact, v.error, v.reason, Some(owned.startedAt), Some(completedAt), Some(finished - owned.admitted),
      v.evidence, v.diagnostics, v.confirmed, events, observed, observed - |events|)
  }

  /** The hard stop an interrupted child names is in force. */
  ghost predicate InForce(v: Verdict, l: Ledger) {
    && (Interrupted(v.status) ==> l.term.Some? && v.reason == l.term)
    && (v.status == TimedOut ==> l.term == Some(TimeoutStop))
    && (v.status == Cancelled ==> l.term != Some(TimeoutStop))
    && (v.status == CleanupFailed ==> l.stop.Some?)
  }

  lemma RecordOfSettles(u: Setup, l: Ledger, w: World, i: nat, v: Verdict, at: real, events: seq<NativeEvent>, observed: nat)
    requires Sized(u) && i < |u.plan.trials| && i in l.active && Explained(w.outcome(i))
    requires Clocked(l) && StopsSound(u, l)
    requires Pronounced(v, w.outcome(i), u.timeout.Some?) && InForce(v, l)
    ensures Settles(l, i, RecordOf(u, i, l.active[i], v, l.now, at, events, observed))
  {
    assert Admitted(l, i);
  }

  lemma RecordOfReads(u: Setup, owned: Owned, w: World, i: nat, v: Verdict, now: real, at: real,
                      events: seq<NativeEvent>, observed: nat)
    requires Sized(u) && i < |u.plan.trials|
    requires Pronounced(v, w.outcome(i), u.timeout.Some?) && Observed(v, w.deliveries(i), events, observed)
    ensures var r := RecordOf(u, i, owned, v, now, at, events, observed);
      TextAccepted(r) && Faithful(r, w, i, u.timeout.Some?)
  {
    hide Bounded, Retained;
    RetainedIsBoundedPrefix(w.deliveries(i));
    if RetainsEvents(v.status) { LogIsAccepted(v.status, w.deliveries(i)); } else { NoEventsAreFine(v.status); }
  }

  lemma LabelledGrows(u: Setup, records: map<nat, Record>, i: nat, r: Record)
    requires Sized(u) && i < |u.plan.trials| && Labelled(u, records) && TextAccepted(r)
    requires r.spec == u.plan.trials[i] && r.keys == u.keys[i] && r.target == u.targets[i]
    ensures Labelled(u, records[i := r])
  {
    hide TextAccepted;
  }

  /** The record of a retrieved child takes its place in the ledger. */
  lemma ChildIsRecorded(u: Setup, l: Ledger, w: World, i: nat, v: Verdict, at: real, events: seq<NativeEvent>, observed: nat)
    requires Inv(u, l, true) && Labelled(u, l.records) && i in l.active && i < |u.plan.trials| && Explained(w.outcome(i))
    requires Pronounced(v, w.outcome(i), u.timeout.Some?) && InForce(v, l) && Observed(v, w.deliveries(i), events, observed)
    ensures var r := RecordOf(u, i, l.active[i], v, l.now, at, events, observed);
      Inv(u, Settle(l, i, r), true) && Labelled(u, l.records[i := r]) && Faithful(r, w, i, u.timeout.Some?) && i !in l.records
  {
    hide Pronounced, InForce, Observed, Faithful, TextAccepted, Settles, RecordSound, StopsSound;
    var r := RecordOf(u, i, l.active[i], v, l.now, at, events, observed);
    assert i in l.active.Keys;
    RecordOfSettles(u, l, w, i, v, at, events, observed);
    RecordOfReads(u, l.active[i], w, i, v, l.now, at, events, observed);
    LabelledGrows(u, l.records, i, r);
    Consume(u, l, i, r);
  }

  ghost predicate Unconfirmed(records: map<nat, Record>) {
    exists i :: i in records && !records[i].cleanupConfirmed
  }

  lemma UnconfirmedGrows(records: map<nat, Record>, i: nat, r: Record)
    requires i !in records
    ensures Unconfirmed(records[i := r]) <==> Unconfirmed(records) || !r.cleanupConfirmed
  {
    var grown := records[i := r];
    if Unconfirmed(records) {
      var j :| j in records && !records[j].cleanupConfirmed;
      assert j in grown && grown[j] == records[j];
    }
    if !r.cleanupConfirmed { assert i in grown; }
  }

  lemma ActiveIsDeclared(u: Setup, l: Ledger, i: nat)
    requires Inv(u, l, false) && i in l.active
    ensures i < |u.plan.trials| && i !in l.records && i !in l.pending
  {
    assert i in l.records.Keys + l.active.Keys + l.pending;
  }

  ghost predicate IndicesDiffer(active: map<nat, Owned>) {
    forall i, j :: i in active && j in active && i != j ==> active[i].index != active[j].index
  }

  lemma ActiveIndicesDiffer(u: Setup, l: Ledger)
    requires Inv(u, l, false)
    ensures IndicesDiffer(l.active)
  {
    hide StopsInv, Partition, Clocked, RecordsSound, CellsOrdered, Reserved;
    forall i, j | i in l.active && j in l.active && i != j ensures l.active[i].index != l.active[j].index {
      assert Admitted(l, i) && Admitted(l, j);
    }
  }

  ghost predicate InAdmissionOrder(batch: seq<nat>, active: map<nat, Owned>) {
    && (forall k :: 0 <= k < |batch| ==> batch[k] in active)
    && (forall j, k :: 0 <= j < k < |batch| ==> active[batch[j]].index < active[batch[k]].index)
  }

  function ByAdmission(active: map<nat, Owned>): nat -> Rank {
    (i: nat) => Rank(0.0, 0, if i in active then active[i].index else 0)
  }

  lemma SortKeepsMembers(done: seq<nat>, rank: nat -> Rank)
    ensures forall i: nat :: i in SortByRank<nat>(done, rank) <==> i in done
  {
    hide SortByRank;
    SortKeepsElements<nat>(done, rank);
    forall i: nat ensures i in SortByRank<nat>(done, rank) <==> i in done {
      assert i in SortByRank<nat>(done, rank) <==> i in multiset(SortByRank<nat>(done, rank));
      assert i in done <==> i in multiset(done);
    }
  }

  /** Sorting live children by admission index keeps them and puts them in admission order. */
  lemma SortedByAdmission(active: map<nat, Owned>, done: seq<nat>)
    requires IndicesDiffer(active)
    requires forall k :: 0 <= k < |done| ==> done[k] in active
    requires forall j, k :: 0 <= j < k < |done| ==> done[j] < done[k]
    ensures InAdmissionOrder(SortByRank<nat>(done, ByAdmission(active)), active)
    ensures forall i: nat :: i in SortByRank<nat>(done, ByAdmission(active)) <==> i in done
  {
    hide SortByRank;
    var rank := ByAdmission(active);
    SortKeepsMembers(done, rank);
    assert DistinctRanks(done, rank);
    SortIsStrict<nat>(done, rank);
    var batch := SortByRank<nat>(done, rank);
    forall k | 0 <= k < |batch| ensures batch[k] in active {
      assert batch[k] in done;
    }
    forall j, k | 0 <= j < k < |batch| ensures active[batch[j]].index < active[batch[k]].index {
      assert Before(rank(batch[j]), rank(batch[k]));
    }
  }

  lemma NothingHeld(u: Setup, at: set<nat>)
    requires Sized(u)
    ensures KeysOf(Demand(u)[..0], at) == {} && Rate(Demand(u)[..0], at) == 0
  {}

  /** A finished report reads as the ledger does. */
  lemma FinishedReads(u: Setup, l: Ledger, w: World, elapsed: real)
    requires Inv(u, l, false) && l.active == map[] && AllFaithful(l.records, w, u.timeout.Some?)
    ensures var trials := Report(u, l, elapsed).trials;
      && (forall i :: 0 <= i < |trials| ==> trials[i].status == NotRun || Faithful(trials[i], w, i, u.timeout.Some?))
      && (Unconfirmed(l.records) <==> exists i :: 0 <= i < |trials| && !trials[i].cleanupConfirmed)
      && (NamesCleanup(l) ==> Unconfirmed(l.records))
  {
    hide Faithful, Partition, RecordSound, StopsSound, Frozen, Numbered, Clocked, CellsOrdered, Reserved;
    FinishedRecords(u, l);
    var trials := Report(u, l, elapsed).trials;
    if Unconfirmed(l.records) {
      var i :| i in l.records && !l.records[i].cleanupConfirmed;
      assert trials[i] == l.records[i];
    }
  }

  lemma SameTable(u: Setup, l: Ledger, m: Ledger)
    requires Sized(u) && l.records == m.records && l.stop == m.stop
    ensures Trials(u, l) == Trials(u, m)
  {}

  lemma NoMoreLive(before: map<nat, Owned>, after: map<nat, Owned>)
    requires after.Keys <= before.Keys
    ensures |after| <= |before|
  {
    SubsetSize(after.Keys, before.Keys);
  }

  lemma HoldsMore(u: Setup, at: set<nat>, i: nat)
    requires Sized(u) && i < |u.plan.trials| && i !in at
    ensures KeysOf(Demand(u), at + {i}) == KeysOf(Demand(u), at) + u.keys[i]
    ensures Rate(Demand(u), at + {i}) == Rate(Demand(u), at) + u.targets[i]
  {
    KeysAdd(u, at, i);
    RateAdds(Demand(u), at, i);
  }

  lemma PendingIsNotLive(u: Setup, l: Ledger, i: nat)
    requires Inv(u, l, false) && i in l.pending
    ensures i !in l.active && i !in l.records
  {
    assert i !in l.active.Keys && i !in l.records.Keys;
  }

  /** Admitting a trial is work done, whether or not it has already been consumed. */
  lemma WorkShrinks(pending: set<nat>, left: set<nat>, live: map<nat, Owned>, active: map<nat, Owned>, i: nat)
    requires i in pending && left == pending - {i}
    requires (active.Keys == live.Keys + {i} && i !in live) || active == live
    ensures 2 * |left| + |active| < 2 * |pending| + |live|
  {
    assert |live.Keys| == |live| && |active.Keys| == |active|;
  }

  lemma LiveGrows(active: map<nat, Owned>, i: nat, owned: Owned)
    requires i !in active
    ensures active[i := owned].Keys == active.Keys + {i} && active[i := owned] - {i} == active
  {}

  lemma StillAdmissible(u: Setup, l: Ledger, t: real, i: nat)
    requires Sized(u) && MayAdmit(u, l, i)
    ensures MayAdmit(u, l.(now := t), i)
  {}

  /** Children that settled together were recorded in this order. */
  ghost predicate RecordedInOrder(batch: seq<nat>, records: map<nat, Record>) {
    && (forall k :: 0 <= k < |batch| ==> batch[k] in records && records[batch[k]].finished.Some?)
    && (forall j, k :: 0 <= j < k < |batch| ==> records[batch[j]].finished.value <= records[batch[k]].finished.value)
  }

  ghost predicate Kept(first: map<nat, Record>, records: map<nat, Record>) {
    forall i :: i in first ==> i in records && records[i] == first[i]
  }

  lemma KeptOn(a: map<nat, Record>, b: map<nat, Record>, c: map<nat, Record>)
    requires Kept(a, b) && Kept(b, c)
    ensures Kept(a, c)
  {}

  ghost predicate Clear(pending: set<nat>, n: nat) { forall j: nat :: j < n ==> j !in pending }

  lemma ClearOn(pending: set<nat>, n: nat)
    ensures n !in pending && Clear(pending, n) ==> Clear(pending, n + 1)
    ensures Clear(pending, 0)
  {}

  lemma KeptAsIs(records: map<nat, Record>)
    ensures Kept(records, records)
  {}

  /** The first `k` children of the batch are recorded, in order, by `now`; the rest are still live. */
  ghost predicate Consumed(todo: seq<nat>, k: nat, start: map<nat, Owned>, active: map<nat, Owned>,
                           records: map<nat, Record>, now: real)
    requires k <= |todo|
  {
    && RecordedInOrder(todo[..k], records)
    && (forall j :: 0 <= j < k ==> records[todo[j]].finished.value <= now)
    && (forall i: nat :: i in active <==> i in start && i !in todo[..k])
    && (forall i :: i in active ==> active[i] == start[i])
  }

  lemma ConsumedNext(todo: seq<nat>, k: nat, start: map<nat, Owned>, active: map<nat, Owned>, records: map<nat, Record>,
                     now: real, next: map<nat, Record>, later: real)
    requires k < |todo| && Consumed(todo, k, start, active, records, now) && now <= later
    requires Kept(records, next) && todo[k] in next && next[todo[k]].finished.Some?
    requires now <= next[todo[k]].finished.value <= later
    ensures Consumed(todo, k + 1, start, active - {todo[k]}, next, later)
  {
    assert todo[..k + 1] == todo[..k] + [todo[k]];
    forall j | 0 <= j < k ensures todo[..k][j] == todo[j] && todo[..k + 1][j] == todo[j] && next[todo[j]] == records[todo[j]] {}
  }

  lemma NothingConsumed(todo: seq<nat>, start: map<nat, Owned>, records: map<nat, Record>, now: real)
    ensures Consumed(todo, 0, start, start, records, now)
  {}

  lemma StillLive(todo: seq<nat>, k: nat, start: map<nat, Owned>, active: map<nat, Owned>, records: map<nat, Record>, now: real)
    requires k < |todo| && Consumed(todo, k, start, active, records, now) && InAdmissionOrder(todo, start)
    ensures todo[k] in active
  {
    assert todo[k] !in todo[..k];
  }

  lemma AllConsumed(todo: seq<nat>, start: map<nat, Owned>, active: map<nat, Owned>, records: map<nat, Record>, now: real)
    requires Consumed(todo, |todo|, start, active, records, now)
    ensures RecordedInOrder(todo, records)
    ensures forall i: nat :: i in active <==> i in start && i !in todo
  {
    assert todo[..|todo|] == todo;
  }

  lemma FaithfulGrows(records: map<nat, Record>, next: map<nat, Record>, i: nat, w: World, timed: bool)
    requires AllFaithful(records, w, timed) && Kept(records, next)
    requires next.Keys == records.Keys + {i} && Faithful(next[i], w, i, timed)
    ensures AllFaithful(next, w, timed)
  {
    hide Faithful;
  }

  lemma Executed(r: Record, w: World, i: nat, timed: bool)
    requires Faithful(r, w, i, timed)
    ensures r.status != NotRun
  {}

  lemma FailureReads(r: Record, w: World, i: nat, timed: bool)
    requires Faithful(r, w, i, timed)
    ensures r.status != Completed <==> w.outcome(i) != Returned(Succeeded)
  {}

  lemma NoEventsAreFine(status: Status)
    requires !RetainsEvents(status)
    ensures EvidenceAccepted(status, [], 0, 0)
  {}

  /** No child is asked to stop before a hard stop. */
  ghost predicate Spared(active: map<nat, Owned>, term: Option<StopReason>) {
    forall i :: i in active && active[i].cancellationSent ==> term.Some?
  }

  lemma SparedGrows(active: map<nat, Owned>, i: nat, owned: Owned, term: Option<StopReason>)
    requires Spared(active, term) && !owned.cancellationSent
    ensures Spared(active[i := owned], term)
  {}

  /** The trials that were run, whatever came of them. */
  ghost function EndedIn(trials: seq<Record>): set<nat> { set i: nat | i < |trials| && trials[i].status != NotRun }

  lemma EndedIsRecorded(u: Setup, l: Ledger)
    requires Inv(u, l, false) && l.active == map[]
    ensures EndedIn(Trials(u, l)) == l.records.Keys
    ensures l.records.Keys == AllTrials(u) || l.pending != {}
  {
    hide Partition, RecordSound, StopsSound, Frozen, Numbered, Clocked, CellsOrdered, Reserved;
    FinishedRecords(u, l);
    var trials := Trials(u, l);
    forall i: nat ensures i in EndedIn(trials) <==> i in l.records {}
    if l.pending == {} {
      forall i: nat ensures i in l.records <==> i in AllTrials(u) { assert i < |u.plan.trials| ==> IsTrial(u, i); }
    }
  }

  lemma UnconfirmedIsFailed(e: Execution, i: nat)
    requires HistoryAccepted(e) && i < |e.trials| && !e.trials[i].cleanupConfirmed
    ensures e.trials[i].status == CleanupFailed
  {
    hide ReservationsAccepted, StopsAccepted;
  }

  class Run {
    const u: Setup
    const world: World
    const predecessors: map<nat, nat>
    var tick: nat
    var cancelSeen: bool
    var records: map<nat, Record>
    var active: map<nat, Owned>
    var pending: set<nat>
    var admissions: nat
    var stopReason: Option<StopReason>
    var stoppedOffset: Option<real>
    var terminationReason: Option<StopReason>
    var terminationOffset: Option<real>
    var cleanupErrors: nat
    ghost var order: seq<nat>

    /** Whether the run has a deadline. */
    function Timed(): bool { u.timeout.Some? }

    ghost function Now(): real
      reads this
    {
      Reading(world, tick)
    }

    ghost function Book(): Ledger
      reads this
    {
      Ledger(records, active, pending, order, stopReason, stoppedOffset, terminationReason, terminationOffset, Now())
    }

    ghost predicate Steady()
      reads this
    {
      && SetupOk(u) && Sized(u) && Lawful(world)
      && admissions == |order|
      && Precede(u.plan.trials, predecessors)
      && Labelled(u, records)
      && (cancelSeen ==> terminationReason.Some?)
      && Spared(active, terminationReason)
    }

    ghost predicate Valid()
      reads this
    {
      Steady() && Inv(u, Book(), false) && (cleanupErrors > 0 <==> Unconfirmed(records))
    }

    /** A cancellation is waiting at this tick, or its reading is at the deadline. */
    predicate Pressed(at: nat) { world.requested(at) || (u.timeout.Some? && world.clock(at) >= u.timeout.value) }

    /** The reading of this tick is at the admission limit. */
    predicate Late(at: nat) { u.plan.stopAfterElapsed.Some? && world.clock(at) >= u.plan.stopAfterElapsed.value }

    function Conditions(): Terms { Terms(u.timeout, u.plan.stopAfterElapsed, u.plan.stopOnError) }

    /** Whatever stopped or ended the run so far has a cause. */
    ghost predicate Justified()
      reads this`records, this`tick, this`stopReason, this`terminationReason
    {
      Grounded(Conditions(), world, world.requested, records.Keys, tick, stopReason, terminationReason)
    }

    /** What is left to do: a child costs two until it is admitted and one until it is consumed. */
    ghost function Work(): nat
      reads this
    {
      2 * |pending| + |active|
    }

    constructor (u: Setup, world: World)
      requires SetupOk(u) && Sized(u) && Lawful(world)
      ensures Valid() && Justified() && this.u == u && this.world == world
      ensures records == map[] && active == map[] && pending == AllTrials(u) && tick == 0
    {
      this.u, this.world := u, world;
      tick, cancelSeen := 0, false;
      records, active, pending := map[], map[], set i: nat | i < |u.plan.trials| && IsTrial(u, i);
      admissions, cleanupErrors, order := 0, 0, [];
      stopReason, stoppedOffset, terminationReason, terminationOffset := None, None, None, None;
      var before := PredecessorMap(u.plan.trials);
      predecessors := before;
      new;
      Start(u, Book());
    }

    // ---- Clock, stops and cancellation ------------------------------------------------------

    method Offset(ghost consuming: bool) returns (t: real)
      requires Steady() && Inv(u, Book(), consuming)
      modifies this`tick
      ensures Steady() && Inv(u, Book(), consuming)
      ensures tick == old(tick) + 1 && t == Now() && t >= old(Now())
      ensures Book() == old(Book()).(now := t)
    {
      hide Inv, SetupOk, Precede, Labelled;
      assert Onward(world, tick) && (tick > 0 ==> Onward(world, tick - 1));
      Wait(u, Book(), world.clock(tick), consuming);
      t := world.clock(tick);
      tick := tick + 1;
    }

    /** `stop`: only the first reason is kept, with the offset at which it was declared. */
    method Stop(reason: StopReason, ghost consuming: bool)
      requires Steady() && Inv(u, Book(), consuming) && SoftReason(u, Book(), reason)
      modifies this`tick, this`stopReason, this`stoppedOffset
      ensures Steady() && Inv(u, Book(), consuming)
      ensures tick >= old(tick) && Now() >= old(Now())
      ensures old(stopReason).Some? ==> Book() == old(Book())
      ensures old(stopReason).None? ==> Book() == Stopped(old(Book()).(now := Now()), reason)
    {
      hide Inv, SetupOk, Reading, Lawful, Labelled, Precede, SoftReason;
      if stopReason.None? {
        var t := Offset(consuming);
        SoftReasonLasts(u, old(Book()), t, reason);
        SoftStop(u, Book(), reason, consuming);
        stopReason, stoppedOffset := Some(reason), Some(t);
      }
    }

    /** `terminate`: a hard stop is also a stop, and the first one is what interrupted children name. */
    method Terminate(reason: StopReason, ghost consuming: bool)
      requires Steady() && Inv(u, Book(), consuming) && HardReason(u, reason, consuming)
      modifies this`tick, this`stopReason, this`stoppedOffset, this`terminationReason, this`terminationOffset
      ensures Steady() && Inv(u, Book(), consuming)
      ensures tick == old(tick) + 1 && Now() >= old(Now())
      ensures Book() == Terminated(old(Book()).(now := Now()), reason)
    {
      hide Inv, SetupOk, Reading, Lawful, Labelled, Precede;
      var t := Offset(consuming);
      HardStop(u, Book(), reason, consuming);
      if stopReason.None? {
        stopReason, stoppedOffset := Some(reason), Some(t);
      }
      if terminationReason.None? {
        terminationReason, terminationOffset := Some(reason), Some(t);
      }
    }

    /** Let other work happen. The caller's first cancellation always interrupts the next await. */
    method Await() returns (raised: bool)
      requires Valid() && Justified()
      modifies this`tick, this`cancelSeen, this`stopReason, this`stoppedOffset, this`terminationReason, this`terminationOffset
      ensures Valid() && Justified() && tick > old(tick)
      ensures raised == (world.requested(old(tick)) && (!old(cancelSeen) || world.again(old(tick))))
      ensures raised ==> cancelSeen && Book() == Terminated(old(Book()).(now := Now()), CancelStop)
      ensures old(stopReason).Some? ==> stopReason == old(stopReason)
      ensures !raised ==> cancelSeen == old(cancelSeen) && Book() == old(Book()).(now := Now())
      ensures terminationReason == if raised then First(old(terminationReason), Some(CancelStop)) else old(terminationReason)
    {
      hide Inv, SetupOk, Reading, Lawful, Labelled, Precede, Caused, Grounded;
      raised := world.requested(tick) && (!cancelSeen || world.again(tick));
      var _ := Offset(false);
      if raised {
        Terminate(CancelStop, false);
        cancelSeen := true;
      }
      var t, asked, ended := Conditions(), world.requested, records.Keys;
      GroundedLater(t, world, asked, ended, old(tick), ended, tick, old(stopReason), old(terminationReason));
      if raised {
        AskedNow(t, world, asked, ended, tick, old(tick));
        GroundedBy(t, world, asked, ended, tick, old(stopReason), old(terminationReason), Some(CancelStop), Some(CancelStop));
      }
    }

    method CancelPending() returns (pendingNow: bool)
      ensures pendingNow == world.requested(tick)
    {
      return world.requested(tick);
    }

    /** Whether the deadline has been reached. */
    method Expired() returns (expired: bool)
      requires Valid()
      modifies this`tick
      ensures Valid() && tick >= old(tick) && Book() == old(Book()).(now := Now()) && Now() >= old(Now())
      ensures expired == (u.timeout.Some? && world.clock(old(tick)) >= u.timeout.value)
      ensures tick == old(tick) + if u.timeout.Some? then 1 else 0
    {
      hide Inv, SetupOk;
      if u.timeout.None? { return false; }
      var t := Offset(false);
      return t >= u.timeout.value;
    }

    /** What the deadline and the admission limit call for, read one after the other. */
    function Expiry(at: nat): Option<StopReason>
    {
      if u.timeout.Some? && world.clock(at) >= u.timeout.value then Some(TimeoutStop) else None
    }

    function Overdue(at: nat): Option<StopReason>
    {
      if u.plan.stopAfterElapsed.Some? && world.clock(at) >= u.plan.stopAfterElapsed.value then Some(ElapsedAdmissionLimit)
      else None
    }

    method CheckLimits()
      requires Valid() && Justified()
      modifies this`tick, this`stopReason, this`stoppedOffset, this`terminationReason, this`terminationOffset
      ensures Valid() && Justified() && tick >= old(tick)
      ensures terminationReason == First(old(terminationReason), Expiry(old(tick)))
      ensures stopReason == First(old(stopReason),
        First(Expiry(old(tick)), Overdue(old(tick) + if u.timeout.Some? then 1 else 0)))
      ensures old(stopReason).Some? ==> stopReason == old(stopReason)
      ensures stopReason.None? ==> Book() == old(Book()).(now := Now())
    {
      hide Inv, SetupOk, Caused, Grounded;
      var expired := Expired();
      if expired {
        Terminate(TimeoutStop, false);
      }
      if u.plan.stopAfterElapsed.Some? {
        var t := Offset(false);
        if t >= u.plan.stopAfterElapsed.value {
          Stop(ElapsedAdmissionLimit, false);
        }
      }
      LimitsGround(old(tick), old(stopReason), old(terminationReason));
    }

    /** A deadline or an admission limit reached by a reading is a cause. */
    lemma LimitsGround(at: nat, stop: Option<StopReason>, term: Option<StopReason>)
      requires Grounded(Conditions(), world, world.requested, records.Keys, at, stop, term)
      requires tick >= at + (if u.timeout.Some? then 1 else 0) + if u.plan.stopAfterElapsed.Some? then 1 else 0
      ensures Grounded(Conditions(), world, world.requested, records.Keys, tick,
        First(stop, First(Expiry(at), Overdue(at + if u.timeout.Some? then 1 else 0))), First(term, Expiry(at)))
    {
      hide Grounded, ReachedBefore, AskedBefore, SomeSpeaks;
      var t, asked, ended := Conditions(), world.requested, records.Keys;
      var next := at + if u.timeout.Some? then 1 else 0;
      GroundedLater(t, world, asked, ended, at, ended, tick, stop, term);
      if Expiry(at).Some? { ReachedNow(world, u.timeout, tick, at); }
      if Overdue(next).Some? { ReachedNow(world, u.plan.stopAfterElapsed, tick, next); }
      GroundedBy(t, world, asked, ended, tick, stop, term, First(Expiry(at), Overdue(next)), Expiry(at));
    }

    /** Ask every live child to stop, once. */
    method CancelActive()
      requires Valid() && terminationReason.Some?
      modifies this`active
      ensures Valid()
      ensures active.Keys == old(active.Keys)
      ensures forall i :: i in active ==>
        active[i] == if world.settled(i, tick) then old(active)[i] else old(active)[i].(cancellationSent := true)
    {
      hide Inv, SetupOk;
      var marked := map i | i in active ::
        if !world.settled(i, tick) && !active[i].cancellationSent then active[i].(cancellationSent := true) else active[i];
      Mark(u, Book(), marked);
      active := marked;
    }

    // ---- Consumption ------------------------------------------------------------------------

    /** A failed cleanup ends the run, under the cause it was raised from if there is one. */
    method TerminateUnconfirmed(prior: Prior)
      requires Steady() && Inv(u, Book(), true)
      modifies this`tick, this`stopReason, this`stoppedOffset, this`terminationReason, this`terminationOffset
      ensures Steady() && Inv(u, Book(), true)
      ensures tick >= old(tick) && Now() >= old(Now())
      ensures var ending := Some(CleanupEnding(prior, u.timeout.Some?));
        stopReason == First(old(stopReason), ending) && terminationReason == First(old(terminationReason), ending)
    {
      hide Inv, SetupOk, Reading, Lawful, Labelled, Precede;
      if prior.PriorCancelled? {
        Terminate(CancelStop, true);
      } else if prior.PriorTimeout? && u.timeout.Some? {
        Terminate(TimeoutStop, true);
      }
      Terminate(CleanupStop, true);
    }

    lemma LiveIsDeclared(i: nat)
      requires Valid() && i in active
      ensures i < |u.plan.trials| && i !in records && i !in pending
    {
      hide Inv, Steady;
      ActiveIsDeclared(u, Book(), i);
    }

    ghost function SettledNow(live: set<nat>, at: nat): set<nat>
    {
      set i | i in live && world.settled(i, at)
    }

    /** The settled children, sorted by admission index. */
    method Batch() returns (batch: seq<nat>)
      requires Valid()
      ensures InAdmissionOrder(batch, active)
      ensures forall i: nat :: i in batch <==> i in SettledNow(active.Keys, tick)
    {
      hide Inv, Lawful, Labelled, Precede, SetupOk;
      var done: seq<nat> := [];
      for i: nat := 0 to |u.plan.trials|
        invariant forall k :: 0 <= k < |done| ==> done[k] in active && world.settled(done[k], tick) && done[k] < i
        invariant forall j: nat :: j < i && j in active && world.settled(j, tick) ==> j in done
        invariant forall j, k :: 0 <= j < k < |done| ==> done[j] < done[k]
      {
        if i in active && world.settled(i, tick) {
          done := done + [i];
        }
      }
      ActiveIndicesDiffer(u, Book());
      SortedByAdmission(active, done);
      batch := SortByRank<nat>(done, ByAdmission(active));
      forall i | i in active ensures i < |u.plan.trials| { ActiveIsDeclared(u, Book(), i); }
    }

    /** Retrieve one settled child's outcome; a hard outcome also terminates the run. */
    method Retrieve(index: nat) returns (v: Verdict)
      requires Steady() && Inv(u, Book(), true)
      modifies this`tick, this`stopReason, this`stoppedOffset, this`terminationReason, this`terminationOffset, this`cleanupErrors
      ensures Steady() && Inv(u, Book(), true)
      ensures tick >= old(tick) && Now() >= old(Now())
      ensures cleanupErrors == old(cleanupErrors) + if v.confirmed then 0 else 1
      ensures v.confirmed == !world.outcome(index).RaisedCleanup?
      ensures var ending := Ending(world.outcome(index), u.timeout.Some?);
        stopReason == First(old(stopReason), ending) && terminationReason == First(old(terminationReason), ending)
      ensures NamesCleanup(Book()) ==> NamesCleanup(old(Book())) || !v.confirmed
      ensures Pronounced(v, world.outcome(index), Timed()) && InForce(v, Book())
    {
      hide Inv, SetupOk, Reading, Lawful, Labelled, Precede;
      v := Verdict(Completed, None, None, None, false, [], true);
      match world.outcome(index) {
        case Returned(native) =>
          v := v.(artifact := Some(native), status := FromNative(native));
        case RaisedCleanup(name, prior) =>
          cleanupErrors := cleanupErrors + 1;
          TerminateUnconfirmed(prior);
          v := v.(status := CleanupFailed, confirmed := false, reason := terminationReason, error := Some(name));
        case RaisedCancelled(name) =>
          Terminate(CancelStop, true);
          v := v.(status := if terminationReason == Some(TimeoutStop) then TimedOut else Cancelled,
                  reason := terminationReason, error := Some(name));
        case RaisedTimeout(name) =>
          if u.timeout.None? {
            v := v.(status := Exception, error := Some(name));
          } else {
            Terminate(TimeoutStop, true);
            v := v.(status := if terminationReason == Some(TimeoutStop) then TimedOut else Cancelled,
                    reason := terminationReason, error := Some(name));
          }
        case Raised(name) =>
          v := v.(status := Exception, error := Some(name));
        case Unencodable(name, notes) =>
          v := v.(status := Exception, error := Some(name), evidence := true, diagnostics := notes);
      }
    }

    /** Only exceptions and interruptions carry the events delivered before them. */
    method Observe(index: nat, v: Verdict) returns (events: seq<NativeEvent>, observed: nat)
      ensures Observed(v, world.deliveries(index), events, observed)
    {
      events, observed := [], 0;
      if RetainsEvents(v.status) {
        events, observed := Collect(world.deliveries(index));
      }
    }

    /** Write the record of a retrieved child and drop its reservation. */
    method WriteRecord(index: nat) returns (r: Record)
      requires Steady() && Inv(u, Book(), true) && index in active && index < |u.plan.trials|
      modifies this`tick, this`records, this`active, this`stopReason, this`stoppedOffset,
        this`terminationReason, this`terminationOffset, this`cleanupErrors
      ensures Steady() && Inv(u, Book(), true)
      ensures tick > old(tick) && Now() >= old(Now())
      ensures index !in old(records) && records == old(records)[index := r] && active == old(active) - {index}
      ensures r.index == Some(old(active)[index].index) && Faithful(r, world, index, Timed()) && r.finished == Some(Now())
      ensures cleanupErrors == old(cleanupErrors) + if r.cleanupConfirmed then 0 else 1
      ensures var ending := Ending(world.outcome(index), u.timeout.Some?);
        stopReason == First(old(stopReason), ending) && terminationReason == First(old(terminationReason), ending)
      ensures NamesCleanup(Book()) ==> NamesCleanup(old(Book())) || !r.cleanupConfirmed
    {
      hide Inv, SetupOk, Reading, Labelled, Precede, Pronounced, Observed, Faithful;
      var owned := active[index];
      var v := Retrieve(index);
      var finished := Offset(true);
      var events, observed := Observe(index, v);
      r := RecordOf(u, index, owned, v, finished, world.wall(tick), events, observed);
      ChildIsRecorded(u, Book(), world, index, v, world.wall(tick), events, observed);
      records, active := records[index := r], active - {index};
    }

    /** Record one settled child and release its admission. */
    method ConsumeChild(index: nat)
      requires Valid() && Justified() && index in active && index < |u.plan.trials|
      modifies this`tick, this`records, this`active, this`stopReason, this`stoppedOffset,
        this`terminationReason, this`terminationOffset, this`cleanupErrors
      ensures Valid() && Justified() && tick > old(tick) && Now() >= old(Now())
      ensures records.Keys == old(records.Keys) + {index}
      ensures forall i :: i in old(records) ==> records[i] == old(records)[i]
      ensures records[index].index == Some(old(active)[index].index) && Faithful(records[index], world, index, Timed())
      ensures records[index].finished.Some? && old(Now()) <= records[index].finished.value <= Now()
      ensures active == old(active) - {index}
      ensures terminationReason == First(old(terminationReason), Ending(world.outcome(index), u.timeout.Some?))
      ensures stopReason == First(First(old(stopReason), Ending(world.outcome(index), u.timeout.Some?)),
        if records[index].status != Completed && u.plan.stopOnError then Some(StopOnError) else None)
    {
      hide Inv, SetupOk, Labelled, Lawful, Precede, Faithful, Evidenced, Grounded, Ending;
      Consuming(u, Book());
      ghost var before := Book();
      var r := WriteRecord(index);
      if r.status != Completed && u.plan.stopOnError {
        Executed(r, world, index, Timed());
        assert Failure(Book().records[index]);
        Stop(StopOnError, true);
      }
      Executed(r, world, index, Timed());
      EvidenceRestored(u, before, Book(), index, r);
      Recorded(u, Book());
      UnconfirmedGrows(before.records, index, r);
      EndGrounds(before.records.Keys, old(tick), before.stop, before.term, index, r);
    }

    /** The stop that a recorded child calls for is caused by its outcome. */
    lemma EndGrounds(ended: set<nat>, at: nat, stop: Option<StopReason>, term: Option<StopReason>, index: nat, r: Record)
      requires Grounded(Conditions(), world, world.requested, ended, at, stop, term)
      requires tick >= at && records.Keys == ended + {index} && Faithful(r, world, index, Timed())
      ensures var e := Ending(world.outcome(index), u.timeout.Some?);
        Grounded(Conditions(), world, world.requested, records.Keys, tick,
          First(First(stop, e), if r.status != Completed && u.plan.stopOnError then Some(StopOnError) else None), First(term, e))
    {
      hide Grounded, Ending;
      FailureReads(r, world, index, Timed());
      GroundedLater(Conditions(), world, world.requested, ended, at, records.Keys, tick, stop, term);
      ChildGrounds(
        Conditions(), world, world.requested, records.Keys, tick, stop, term, index, r.status != Completed && u.plan.stopOnError);
    }

    /** Consume every child found settled, in admission order, before anything else is admitted. */
    method ConsumeDone() returns (ghost batch: seq<nat>)
      requires Valid() && Justified() && AllFaithful(records, world, Timed())
      modifies this`tick, this`records, this`active, this`stopReason, this`stoppedOffset,
        this`terminationReason, this`terminationOffset, this`cleanupErrors
      ensures Valid() && Justified() && AllFaithful(records, world, Timed())
      ensures tick >= old(tick) && (old(stopReason).Some? ==> stopReason == old(stopReason))
      ensures old(terminationReason).Some? ==> terminationReason == old(terminationReason)
      ensures Kept(old(records), records)
      ensures active.Keys == old(active.Keys) - SettledNow(old(active.Keys), old(tick))
      ensures forall i: nat :: i in batch <==> i in SettledNow(old(active.Keys), old(tick))
      ensures InAdmissionOrder(batch, old(active)) && RecordedInOrder(batch, records)
    {
      hide Valid, Steady, Faithful, Now, Consumed, RecordedInOrder, Justified, AllFaithful;
      var todo := Batch();
      batch := todo;
      NothingConsumed(todo, active, records, Now());
      for k := 0 to |todo|
        invariant Valid() && Justified() && AllFaithful(records, world, Timed()) && tick >= old(tick)
        invariant old(stopReason).Some? ==> stopReason == old(stopReason)
        invariant old(terminationReason).Some? ==> terminationReason == old(terminationReason)
        invariant Kept(old(records), records)
        invariant Consumed(todo, k, old(active), active, records, Now())
      {
        StillLive(todo, k, old(active), active, records, Now());
        LiveIsDeclared(todo[k]);
        ghost var live, before, earlier := active, records, Now();
        ConsumeChild(todo[k]);
        ConsumedNext(todo, k, old(active), live, before, earlier, records, Now());
        FaithfulGrows(before, records, todo[k], world, Timed());
      }
      AllConsumed(todo, old(active), active, records, Now());
    }

    // ---- Admission --------------------------------------------------------------------------

    /** The admission tests of the scan, from what it keeps track of. */
    lemma Fits(index: nat, reserved: set<Key>, target: nat)
      requires Valid() && stopReason.None? && index in pending
      requires |active| < u.policy.maxWorkers
      requires reserved == KeysOf(Demand(u), active.Keys) && target == Rate(Demand(u), active.Keys)
      requires index < |u.plan.trials| && (index in predecessors ==> predecessors[index] in records)
      requires reserved * u.keys[index] == {} && target + u.targets[index] <= u.policy.maxActiveTargetBps
      ensures MayAdmit(u, Book(), index)
    {
      hide Inv, SetupOk, Labelled, Lawful, KeysOf, Rate, Demand;
    }

    lemma IsBarred(index: nat)
      requires Valid() && index < |u.plan.trials|
      ensures Sized(u)
      ensures Barred(u, Book(), index) ==
        ((index in predecessors && predecessors[index] !in records)
         || KeysOf(Demand(u), active.Keys) * u.keys[index] != {}
         || Rate(Demand(u), active.Keys) + u.targets[index] > u.policy.maxActiveTargetBps)
    {
      hide Inv, SetupOk, Labelled, Lawful, KeysOf, Rate, Demand, PriorInCell;
    }

    /** With nothing live, the lowest pending trial fails no test. */
    lemma LowestFits(index: nat, reserved: set<Key>, target: nat)
      requires Valid() && stopReason.None? && active == map[] && index in pending && index < |u.plan.trials|
      requires reserved == KeysOf(Demand(u), active.Keys) && target == Rate(Demand(u), active.Keys)
      requires forall j :: 0 <= j < index ==> j !in pending
      ensures index in predecessors ==> predecessors[index] in records
      ensures reserved * u.keys[index] == {} && target + u.targets[index] <= u.policy.maxActiveTargetBps
    {
      hide Inv, SetupOk, Labelled, Lawful, KeysOf, Rate, Demand, PriorInCell;
      LowestIsAdmissible(u, Book(), index);
    }

    lemma DeclaredPending()
      requires Valid()
      ensures Sized(u) && forall i :: i in pending ==> i < |u.plan.trials|
    {
      hide Labelled, Lawful, Precede, SetupOk, StopsInv, Clocked, RecordsSound, CellsOrdered, Reserved, Numbered;
      forall i | i in pending ensures i < |u.plan.trials| {
        assert i in records.Keys + active.Keys + pending;
      }
    }

    lemma Admissible(index: nat)
      requires Valid() && MayAdmit(u, Book(), index)
      ensures stopReason.None? && index in pending && index < |u.plan.trials|
    {}

    /** Enter a trial that fits into the books. */
    method Reserve(index: nat)
      requires Valid() && MayAdmit(u, Book(), index)
      modifies this`tick, this`admissions, this`active, this`pending, this`order
      ensures Valid() && tick == old(tick) + 1 && index !in old(active) && index !in records
      ensures active.Keys == old(active.Keys) + {index} && active - {index} == old(active)
      ensures index in active && pending == old(pending) - {index}
      ensures active[index].index == old(admissions) + 1 && active[index].admitted == Now() && !active[index].cancellationSent
    {
      hide Inv, Labelled, Lawful, SetupOk, Precede, MayAdmit, Unconfirmed, Demand, Reading, Spared;
      Admissible(index);
      var admitted := Offset(false);
      var startedAt := world.wall(tick);
      StillAdmissible(u, old(Book()), admitted, index);
      ConcurrentLedger.Admit(u, Book(), index, startedAt);
      PendingIsNotLive(u, Book(), index);
      ghost var before := Book();
      admissions := admissions + 1;
      LiveGrows(active, index, Owned(admissions, admitted, startedAt, false));
      SparedGrows(active, index, Owned(admissions, admitted, startedAt, false), terminationReason);
      active := active[index := Owned(admissions, admitted, startedAt, false)];
      pending, order := pending - {index}, order + [index];
      assert Book() == AdmitOne(before, index, startedAt);
    }

    /** Admit one trial; a task factory may execute it, or fail, before returning. */
    method Admit(index: nat)
      requires Valid() && Justified() && AllFaithful(records, world, Timed()) && MayAdmit(u, Book(), index)
      modifies this
      ensures Valid() && Justified() && AllFaithful(records, world, Timed()) && tick > old(tick)
      ensures index in old(pending) && pending == old(pending) - {index} && cancelSeen == old(cancelSeen)
      ensures index in active ==>
        active.Keys == old(active.Keys) + {index} && index !in old(active) && records == old(records) && stopReason.None?
      ensures index !in active ==> active == old(active) && index in records
      ensures index in active <==> !world.settled(index, old(tick) + 1) || world.requested(old(tick) + 1)
      ensures Kept(old(records), records) && records.Keys <= old(records.Keys) + {index}
    {
      hide Valid, Grounded, AllFaithful, MayAdmit, Faithful;
      Admissible(index);
      Reserve(index);
      GroundedLater(
        Conditions(), world, world.requested, records.Keys, old(tick), records.Keys, tick, stopReason, terminationReason);
      if world.settled(index, tick) && !world.requested(tick) {
        ConsumeChild(index);
        FaithfulGrows(old(records), records, index, world, Timed());
      }
    }

    ghost predicate Holds(reserved: set<Key>, target: nat)
      reads this
    {
      Sized(u) && reserved == KeysOf(Demand(u), active.Keys) && target == Rate(Demand(u), active.Keys)
    }

    /** The keys and the target that the live children hold. */
    method Held() returns (reserved: set<Key>, target: nat)
      requires Sized(u)
      ensures Holds(reserved, target)
    {
      hide KeysOf, Rate;
      reserved, target := {}, 0;
      NothingHeld(u, active.Keys);
      for i: nat := 0 to |u.plan.trials|
        invariant reserved == KeysOf(Demand(u)[..i], active.Keys) && target == Rate(Demand(u)[..i], active.Keys)
      {
        ReservedStep(u, active.Keys, i);
        if i in active {
          reserved, target := reserved + u.keys[i], target + u.targets[i];
        }
      }
      assert Demand(u)[..|u.plan.trials|] == Demand(u);
    }

    /** Admit a trial that fits and bring what is held up to date. */
    method Take(index: nat, reserved: set<Key>, target: nat) returns (held: set<Key>, rate: nat)
      requires Valid() && Justified() && AllFaithful(records, world, Timed())
      requires Sized(u) && MayAdmit(u, Book(), index) && index < |u.plan.trials|
      requires Holds(reserved, target)
      modifies this
      ensures Valid() && Justified() && AllFaithful(records, world, Timed()) && tick >= old(tick)
      ensures Kept(old(records), records) && cancelSeen == old(cancelSeen)
      ensures records.Keys <= old(records.Keys) + {index} && old(active.Keys) <= active.Keys
      ensures pending == old(pending) - {index}
      ensures Holds(held, rate)
      ensures Work() < old(Work())
    {
      hide Valid, Faithful, Justified, AllFaithful, Rate, KeysOf, Demand, MayAdmit, Book, Kept;
      Admit(index);
      WorkShrinks(old(pending), pending, old(active), active, index);
      if index !in active {
        held, rate := Held();
        return;
      }
      HoldsMore(u, old(active).Keys, index);
      held, rate := reserved + u.keys[index], target + u.targets[index];
    }

    lemma NothingScanned()
      requires Sized(u)
      ensures Scanned(u, Book(), 0)
    {}

    twostate lemma ScannedOn(index: nat)
      requires Sized(u) && index < |u.plan.trials| && old(Scanned(u, Book(), index)) && pending <= old(pending)
      requires old(active.Keys) <= active.Keys && records.Keys <= old(records.Keys) + {index}
      requires index in pending ==> Barred(u, Book(), index)
      ensures Scanned(u, Book(), index + 1)
    {
      hide Barred, Scanned;
      ScanGoesOn(u, old(Book()), Book(), index);
    }

    lemma AllClear()
      requires Valid()
      ensures Sized(u) && (Clear(pending, |u.plan.trials|) ==> pending == {})
    {
      hide Valid;
      DeclaredPending();
      if Clear(pending, |u.plan.trials|) {
        forall i | i in pending ensures false {}
      }
    }

    lemma ScanEnds()
      requires Valid() && Sized(u)
      requires Scanned(u, Book(), |u.plan.trials|) || stopReason.Some? || |active| >= u.policy.maxWorkers
      ensures NoneAdmissible(u, Book())
    {
      hide Valid, Barred, Scanned, NoneAdmissible;
      DeclaredPending();
      ScanIsComplete(u, Book());
    }

    /** Consider one pending trial; `more` tells whether the scan goes on. */
    method Consider(index: nat, reserved: set<Key>, target: nat) returns (held: set<Key>, rate: nat, more: bool)
      requires Valid() && Justified() && AllFaithful(records, world, Timed())
      requires Sized(u) && index < |u.plan.trials| && index in pending
      requires Holds(reserved, target)
      modifies this
      ensures Valid() && Justified() && AllFaithful(records, world, Timed()) && tick >= old(tick)
      ensures Kept(old(records), records) && cancelSeen == old(cancelSeen)
      ensures Holds(held, rate)
      ensures Work() < old(Work()) || (pending == old(pending) && active == old(active))
      ensures old(active) == map[] && Clear(old(pending), index) ==>
        Work() < old(Work()) || stopReason.Some? || world.requested(tick)
      ensures old(stopReason).Some? || world.requested(old(tick)) ==> stopReason.Some? || world.requested(tick)
      ensures records.Keys <= old(records.Keys) + {index} && old(active.Keys) <= active.Keys
      ensures pending == old(pending) || pending == old(pending) - {index}
      ensures !more ==> stopReason.Some? || world.requested(tick) || |active| >= u.policy.maxWorkers
      ensures more && index in pending ==> Barred(u, Book(), index)
    {
      hide Valid, Faithful, Justified, AllFaithful, Rate, KeysOf, Demand, MayAdmit, Book, Kept, Barred;
      KeptAsIs(records);
      held, rate, more := reserved, target, false;
      var waiting := CancelPending();
      if waiting { return; }
      CheckLimits();
      if stopReason.Some? || |active| >= u.policy.maxWorkers { return; }
      more := true;
      if active == map[] && Clear(pending, index) { LowestFits(index, reserved, target); }
      IsBarred(index);
      if index in predecessors && predecessors[index] !in records { return; }
      if reserved * u.keys[index] != {} { return; }
      if target + u.targets[index] > u.policy.maxActiveTargetBps { return; }
      Fits(index, reserved, target);
      held, rate := Take(index, reserved, target);
    }

    /** One step of the scan: a trial that is no longer pending is passed over. */
    method ScanOne(index: nat, reserved: set<Key>, target: nat) returns (held: set<Key>, rate: nat, more: bool)
      requires Valid() && Justified() && AllFaithful(records, world, Timed()) && Holds(reserved, target)
      requires Sized(u) && index < |u.plan.trials| && Scanned(u, Book(), index)
      modifies this
      ensures Valid() && Justified() && AllFaithful(records, world, Timed()) && Holds(held, rate)
      ensures tick >= old(tick) && Kept(old(records), records) && cancelSeen == old(cancelSeen)
      ensures Work() < old(Work()) || (pending == old(pending) && active == old(active))
      ensures old(active) == map[] && Clear(old(pending), index) ==>
        Work() < old(Work()) || stopReason.Some? || world.requested(tick) || Clear(pending, index + 1)
      ensures old(stopReason).Some? || world.requested(old(tick)) ==> stopReason.Some? || world.requested(tick)
      ensures if more then Scanned(u, Book(), index + 1)
        else stopReason.Some? || world.requested(tick) || |active| >= u.policy.maxWorkers
    {
      hide Valid, Faithful, Justified, AllFaithful, Rate, KeysOf, Demand, Scanned, Book, Barred, Kept, Clear, MayAdmit, Holds;
      held, rate, more := reserved, target, true;
      KeptAsIs(records);
      if index in pending { held, rate, more := Consider(index, reserved, target); }
      ClearOn(pending, index);
      if more { ScannedOn(index); }
    }

    /**
     Scan the pending trials in declared order and admit whatever fits, keeping the held keys and target up
     to date. With nothing live, no stop and no cancellation waiting, at least one trial is admitted; and
     whatever is left pending could not have been admitted as well.
     */
    method AdmitReady()
      requires Valid() && Justified() && AllFaithful(records, world, Timed()) && stopReason.None?
      modifies this
      ensures Valid() && Justified() && AllFaithful(records, world, Timed()) && tick >= old(tick)
      ensures Kept(old(records), records) && cancelSeen == old(cancelSeen)
      ensures Work() < old(Work()) || (pending == old(pending) && active == old(active))
      ensures old(active) == map[] && old(pending) != {} ==>
        Work() < old(Work()) || stopReason.Some? || world.requested(tick)
      ensures NoneAdmissible(u, Book()) || world.requested(tick)
    {
      hide Valid, Faithful, Justified, AllFaithful, Rate, KeysOf, Demand, Scanned, NoneAdmissible, Book, Barred, Kept, Clear,
        Sized, MayAdmit, Holds;
      DeclaredPending();
      var reserved, target := Held();
      NothingScanned();
      KeptAsIs(records);
      ClearOn(pending, 0);
      for index: nat := 0 to |u.plan.trials|
        invariant Valid() && Justified() && AllFaithful(records, world, Timed()) && tick >= old(tick) && Sized(u)
        invariant Kept(old(records), records) && cancelSeen == old(cancelSeen)
        invariant Holds(reserved, target)
        invariant Work() < old(Work()) || (pending == old(pending) && active == old(active))
        invariant active == map[] && Work() == old(Work()) ==>
          Clear(pending, index) || stopReason.Some? || world.requested(tick)
        invariant Scanned(u, Book(), index)
      {
        ghost var earlier := records;
        var more;
        reserved, target, more := ScanOne(index, reserved, target);
        KeptOn(old(records), earlier, records);
        if !more { break; }
      }
      AllClear();
      if !world.requested(tick) { ScanEnds(); }
    }

    // ---- The whole run ----------------------------------------------------------------------

    lemma EverythingSettles(n: nat)
      requires Valid() && tick >= n && forall i: nat :: i < |u.plan.trials| ==> SettledFrom(world, i, n)
      ensures SettledNow(active.Keys, tick) == active.Keys
    {
      hide Inv, SetupOk, Labelled, Lawful, Precede;
      forall i | i in active ensures world.settled(i, tick) {
        LiveIsDeclared(i);
        assert SettledFrom(world, i, n);
      }
    }

    lemma CancelledMeansStopped()
      requires Valid()
      ensures cancelSeen ==> terminationReason.Some?
      ensures terminationReason.Some? ==> stopReason.Some? && Hard(terminationReason.value)
    {
      hide Inv, SetupOk, Labelled, Lawful, Precede;
      TerminationStops(u, Book());
    }

    /** What a reading has reached, later readings have as well. */
    lemma ClockStands(at: nat, later: nat)
      requires Valid() && at <= later
      ensures u.timeout.Some? && world.clock(at) >= u.timeout.value ==> Expiry(later).Some?
      ensures Late(at) ==> Overdue(later).Some?
    {
      hide Inv, SetupOk, Labelled, Precede;
      ReadingsRise(world, at, later);
    }

    lemma WhenAllSettle() returns (n: nat)
      requires Valid()
      ensures forall i: nat :: i < |u.plan.trials| ==> SettledFrom(world, i, n)
    {
      n := EveryChildEnds(world, |u.plan.trials|);
    }

    /** A run ended by an unconfirmed cleanup has counted it. */
    lemma CleanupIsCounted()
      requires Valid()
      ensures terminationReason.Some? && cleanupErrors == 0 ==> terminationReason.value in {CancelStop, TimeoutStop}
    {
      hide TrialsInv, Frozen, SetupOk, Labelled, Lawful, Precede, Reading;
    }

    /** Yield once and look at the clock: a waiting cancellation and a limit that is reached take effect. */
    method Yield()
      requires Valid() && Justified()
      modifies this`tick, this`cancelSeen, this`stopReason, this`stoppedOffset, this`terminationReason, this`terminationOffset
      ensures Valid() && Justified() && tick > old(tick)
      ensures old(terminationReason).Some? || Pressed(old(tick)) ==> terminationReason.Some?
      ensures old(stopReason).Some? || terminationReason.Some? || Late(old(tick)) ==> stopReason.Some?
    {
      hide Valid, Justified, Book, Expiry, Overdue, Late;
      CancelledMeansStopped();
      var _ := Await();
      CancelledMeansStopped();
      ClockStands(old(tick), tick);
      ClockStands(old(tick), tick + if u.timeout.Some? then 1 else 0);
      CheckLimits();
      CancelledMeansStopped();
    }

    /** The first half of a turn: yield, check the limits, consume whatever has settled. */
    method Harvest(ghost last: nat)
      requires Valid() && Justified() && AllFaithful(records, world, Timed())
      requires forall i: nat :: i < |u.plan.trials| ==> SettledFrom(world, i, last)
      modifies this`tick, this`cancelSeen, this`records, this`active, this`stopReason, this`stoppedOffset,
        this`terminationReason, this`terminationOffset, this`cleanupErrors
      ensures Valid() && Justified() && AllFaithful(records, world, Timed()) && tick > old(tick)
      ensures Work() <= old(Work())
      ensures old(tick) >= last ==> active == map[]
      ensures old(terminationReason).Some? || Pressed(old(tick)) ==> terminationReason.Some?
      ensures old(stopReason).Some? || terminationReason.Some? || Late(old(tick)) ==> stopReason.Some?
    {
      hide Valid, Justified, AllFaithful, Book, Kept, InAdmissionOrder, RecordedInOrder, SettledFrom, Pressed, Late;
      Yield();
      if tick >= last { EverythingSettles(last); }
      ghost var batch := ConsumeDone();
      NoMoreLive(old(active), active);
      CancelledMeansStopped();
    }

    /** The second half of a turn: a hard stop cancels the live children, then the loop waits for one of them. */
    method Settle() returns (over: bool)
      requires Valid() && Justified()
      modifies this`tick, this`cancelSeen, this`active, this`stopReason, this`stoppedOffset,
        this`terminationReason, this`terminationOffset
      ensures Valid() && Justified() && tick >= old(tick)
      ensures active.Keys == old(active.Keys) && |active| == |old(active)|
      ensures over == (active == map[] && (old(stopReason).Some? || pending == {}))
      ensures old(stopReason).Some? ==> stopReason == old(stopReason)
      ensures active == map[] ==> tick == old(tick)
      ensures old(terminationReason).Some? ==> terminationReason == old(terminationReason)
      ensures terminationReason.Some? ==> forall i :: i in active ==>
        active[i].cancellationSent || world.settled(i, old(tick)) || world.settled(i, tick)
    {
      hide Valid, Book, Justified;
      if terminationReason.Some? {
        CancelActive();
      }
      SameKeysSameSize(old(active), active);
      if active == map[] {
        return stopReason.Some? || pending == {};
      }
      var interrupted := Await();
      if interrupted {
        CancelActive();
        SameKeysSameSize(old(active), active);
      }
      return false;
    }

    static lemma SameKeysSameSize(before: map<nat, Owned>, after: map<nat, Owned>)
      requires after.Keys == before.Keys
      ensures |after| == |before| && (after == map[] <==> before == map[])
    {
      assert |after.Keys| == |after| && |before.Keys| == |before|;
      assert after == map[] <==> after.Keys == {};
      assert before == map[] <==> before.Keys == {};
    }

    /** One turn of the loop; `over` once nothing is live and nothing more may start. */
    method Turn(ghost last: nat) returns (over: bool)
      requires Valid() && Justified() && AllFaithful(records, world, Timed()) && (pending != {} || active != map[])
      requires forall i: nat :: i < |u.plan.trials| ==> SettledFrom(world, i, last)
      modifies this
      ensures Valid() && Justified() && AllFaithful(records, world, Timed())
      ensures tick > old(tick)
      ensures old(terminationReason).Some? || Pressed(old(tick)) ==> terminationReason.Some?
      ensures old(stopReason).Some? || terminationReason.Some? || Late(old(tick)) ==> stopReason.Some?
      ensures over ==> active == map[] && (pending == {} || stopReason.Some?)
      ensures !over && old(tick) >= last ==>
        Work() < old(Work()) || (Work() == old(Work()) && world.requested(tick) && !world.requested(old(tick)))
    {
      hide Valid, Justified, AllFaithful, Book, Kept, SettledFrom, Late;
      Harvest(last);
      if stopReason.None? {
        AdmitReady();
      }
      over := Settle();
      CancelledMeansStopped();
    }

    /** Turn until nothing is live and nothing more may start: the loop ends. */
    method Drain()
      requires Valid() && Justified() && AllFaithful(records, world, Timed())
      modifies this
      ensures Valid() && Justified() && AllFaithful(records, world, Timed())
      ensures active == map[] && (pending == {} || stopReason.Some?)
      ensures old(pending) != {} && Pressed(old(tick)) ==> terminationReason.Some?
      ensures old(pending) != {} && Late(old(tick)) ==> stopReason.Some?
    {
      ghost var last := WhenAllSettle();
      ghost var start, pressed, late := tick, Pressed(tick), Late(tick);
      hide Valid, Justified, AllFaithful, Pressed, Late, SettledFrom, Lawful;
      while pending != {} || active != map[]
        invariant Valid() && Justified() && AllFaithful(records, world, Timed())
        invariant start <= tick && (start == tick ==> pending == old(pending))
        invariant start < tick && pressed ==> terminationReason.Some?
        invariant start < tick && late ==> stopReason.Some?
        decreases if tick < last then last - tick else 0, Work(), if world.requested(tick) then 0 else 1
      {
        var over := Turn(last);
        if over { break; }
      }
    }

    /** The records in declared order; whatever never ran names the reason admission stopped. */
    method Tabulate() returns (trials: seq<Record>)
      requires Valid()
      ensures Sized(u) && trials == Trials(u, Book())
    {
      hide Inv, SetupOk, Labelled, Lawful, Precede;
      trials := [];
      for i: nat := 0 to |u.plan.trials|
        invariant |trials| == i
        invariant forall j :: 0 <= j < i ==>
          trials[j] == if j in records then records[j] else NotRunRecord(u, j, stopReason)
      {
        trials := trials + [if i in records then records[i] else NotRunRecord(u, i, stopReason)];
      }
    }

    /** Close the books: the finished ledger is a report the independent checker accepts. */
    method Conclude() returns (result: Execution)
      requires Valid() && Justified() && AllFaithful(records, world, Timed())
      requires active == map[] && (pending == {} || stopReason.Some?)
      modifies this`tick
      ensures HistoryAccepted(result) && |result.trials| == |u.plan.trials|
      ensures result.plan == u.plan && result.policy == u.policy && result.resources == u.resources
      ensures forall i :: 0 <= i < |result.trials| ==>
        result.trials[i].status == NotRun || Faithful(result.trials[i], world, i, Timed())
      ensures cleanupErrors > 0 <==> exists i :: 0 <= i < |result.trials| && !result.trials[i].cleanupConfirmed
      ensures result.terminationReason == terminationReason && result.stopReason == stopReason
      ensures Justified() && EndedIn(result.trials) == records.Keys
      ensures records.Keys == AllTrials(u) || stopReason.Some?
    {
      hide Inv, SetupOk, Labelled, Lawful, Precede, Reading, Faithful, Grounded, AllFaithful, HistoryAccepted, Trials, EndedIn;
      var trials := Tabulate();
      EndedIsRecorded(u, Book());
      var elapsed := Offset(false);
      GroundedLater(
        Conditions(), world, world.requested, records.Keys, old(tick), records.Keys, tick, stopReason, terminationReason);
      SameTable(u, old(Book()), Book());
      result := Execution(
        u.plan, u.policy, u.resources, trials, elapsed, stopReason, stoppedOffset, terminationReason, terminationOffset,
        u.timeout);
      FinishedIsAccepted(u, Book(), elapsed);
      FinishedReads(u, Book(), world, elapsed);
    }

    /** Run to the end: every declared trial gets exactly one record and the history passes its checker. */
    method Execute() returns (result: Execution, signal: Signal)
      requires Valid() && Justified() && AllFaithful(records, world, Timed())
      modifies this
      ensures HistoryAccepted(result) && |result.trials| == |u.plan.trials|
      ensures result.plan == u.plan && result.policy == u.policy && result.resources == u.resources
      ensures forall i :: 0 <= i < |result.trials| ==>
        result.trials[i].status == NotRun || Faithful(result.trials[i], world, i, Timed())
      ensures signal.RaisesCleanup? <==> exists i :: 0 <= i < |result.trials| && !result.trials[i].cleanupConfirmed
      ensures signal.RaisesCancelled? ==> result.terminationReason == Some(CancelStop)
      ensures signal.RaisesTimeout? ==> result.terminationReason == Some(TimeoutStop)
      ensures signal.ReturnsHistory? ==> result.terminationReason.None?
      ensures Grounded(
        Conditions(), world, world.requested, EndedIn(result.trials), tick, result.stopReason, result.terminationReason)
      ensures old(pending) != {} && Pressed(old(tick)) ==> result.terminationReason.Some?
      ensures old(pending) != {} && Late(old(tick)) ==> result.stopReason.Some?
      ensures result.stopReason.Some? || forall i :: 0 <= i < |result.trials| ==> result.trials[i].status != NotRun
      ensures Undisturbed(Conditions(), world, world.requested, |result.trials|, tick) ==>
        signal.ReturnsHistory? && forall i :: 0 <= i < |result.trials| ==> result.trials[i].status == Completed
    {
      hide Valid, AllFaithful, HistoryAccepted, Faithful, Grounded, Undisturbed, EndedIn;
      Drain();
      CleanupIsCounted();
      result := Conclude();
      NothingLeft(result);
      signal :=
        if cleanupErrors > 0 then RaisesCleanup
        else if terminationReason == Some(CancelStop) then RaisesCancelled
        else if terminationReason == Some(TimeoutStop) then RaisesTimeout
        else ReturnsHistory;
    }

    /** Without a stop every trial was run, and where nothing disturbed the run there was no stop. */
    lemma NothingLeft(result: Execution)
      requires HistoryAccepted(result) && |result.trials| == |u.plan.trials|
      requires EndedIn(result.trials) == AllTrials(u) || result.stopReason.Some?
      requires forall i :: 0 <= i < |result.trials| ==>
        result.trials[i].status == NotRun || Faithful(result.trials[i], world, i, Timed())
      requires Grounded(
        Conditions(), world, world.requested, EndedIn(result.trials), tick, result.stopReason, result.terminationReason)
      ensures result.stopReason.Some? || forall i :: 0 <= i < |result.trials| ==> result.trials[i].status != NotRun
      ensures Undisturbed(Conditions(), world, world.requested, |result.trials|, tick) ==>
        result.stopReason.None? && result.terminationReason.None?
        && forall i :: 0 <= i < |result.trials| ==> result.trials[i].status == Completed && result.trials[i].cleanupConfirmed
    {
      hide HistoryAccepted, Faithful, Grounded;
      var trials := result.trials;
      var t, asked, ended := Conditions(), world.requested, EndedIn(trials);
      if result.stopReason.None? {
        forall i | 0 <= i < |trials| ensures trials[i].status != NotRun { assert IsTrial(u, i) && i in AllTrials(u); }
      }
      if Undisturbed(t, world, asked, |trials|, tick) {
        UndisturbedGoesOn(t, world, asked, ended, |trials|, tick, result.stopReason, result.terminationReason);
        forall i | 0 <= i < |trials| ensures trials[i].status == Completed && trials[i].cleanupConfirmed {
          FailureReads(trials[i], world, i, Timed());
          if !trials[i].cleanupConfirmed { UnconfirmedIsFailed(result, i); }
        }
      }
    }
  }

  // ---- Runs exist ---------------------------------------------------------------------------

  const QUIET := World(
    (n: nat) => n as real, (n: nat) => n as real, (i: nat, n: nat) => true, (i: nat) => Returned(Succeeded),
    (i: nat) => [], (n: nat) => false, (n: nat) => false)

  const LONE := Setup(
    Plan([TrialSpec("t", "c", "host", None, 5201, None, Config(Tcp, Some(1), 1, false, false, 1, 0), None)], false, 0.0, None, true),
    Policy(1, 1), map[], [{Endpoint("host", 5201)}], [1], None)

  /** A world in which every child completes at once, and a plan of one trial. */
  lemma ARunExists()
    ensures Lawful(QUIET) && SetupOk(LONE) && Sized(LONE)
  {
    forall n: nat ensures Onward(QUIET, n) {}
    forall i: nat ensures Ends(QUIET, i) {
      assert SettledFrom(QUIET, i, 0);
    }
    HostIsCanonical();
  }

  lemma HostIsCanonical()
    ensures CanonicalHost(LONE.plan.trials[0]) == "host"
  {
    assert "host" == ['h', 'o', 's', 't'] && "host"[1..] == "ost" && "ost"[1..] == "st" && "st"[1..] == "t" && "t"[1..] == "";
    assert LowerAll("t") == "t" && LowerAll("st") == "st" && LowerAll("ost") == "ost";
  }
}
