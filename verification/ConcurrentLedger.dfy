/**
 What every step of a concurrent run keeps. The ledger is the scheduler's bookkeeping as a value; its
 invariant is strong enough that a finished ledger, read as a report, passes the independent checker.
 */
module ConcurrentLedger {
  import opened Options
  import opened PlanOutcomes
  import opened PartialEvents
  import opened Reservations
  import opened ConcurrentPlan
  import opened ConcurrentReports

  /** A live child: its admission index and offset, and whether its one cancellation was sent. */
  datatype Owned = Owned(index: nat, admitted: real, startedAt: real, cancellationSent: bool)

  datatype Setup = Setup(
    plan: Plan, policy: Ceilings, resources: map<string, seq<string>>,
    keys: seq<set<Key>>, targets: seq<nat>, timeout: Option<real>)

  /** `order` lists the admitted trials in admission order; `now` is the latest clock reading. */
  datatype Ledger = Ledger(
    records: map<nat, Record>, active: map<nat, Owned>, pending: set<nat>, order: seq<nat>,
    stop: Option<StopReason>, stopAt: Option<real>, term: Option<StopReason>, termAt: Option<real>, now: real)

  ghost predicate SetupOk(u: Setup) {
    && PlanOk(u.plan, u.policy, u.resources)
    && PreparedFrom(Prepared(u.keys, u.targets), u.plan, u.resources)
    && (u.timeout.Some? ==> u.timeout.value > 0.0)
  }

  predicate Sized(u: Setup) { |u.plan.trials| == |u.keys| == |u.targets| }

  /** The reservable demand of every trial, whether or not it is ever admitted. */
  function Demand(u: Setup): seq<Reservation>
    requires Sized(u)
  {
    seq(|u.targets|, i requires 0 <= i < |u.targets| => Reservation(None, 0.0, None, u.targets[i], u.keys[i]))
  }

  predicate Admitted(l: Ledger, i: nat) { i in l.records || i in l.active }

  function IndexOf(l: Ledger, i: nat): nat {
    if i in l.active then l.active[i].index
    else if i in l.records && l.records[i].index.Some? then l.records[i].index.value
    else 0
  }

  function AdmittedAt(l: Ledger, i: nat): real {
    if i in l.active then l.active[i].admitted
    else if i in l.records && l.records[i].admitted.Some? then l.records[i].admitted.value
    else 0.0
  }

  function ReleasedAt(l: Ledger, i: nat): Option<real> {
    if i in l.active || i !in l.records then None else l.records[i].released
  }

  // ---- The invariant ------------------------------------------------------------------------

  /** Records, active and pending always partition the declared trials. */
  ghost predicate Partition(u: Setup, l: Ledger) {
    && l.records.Keys !! l.active.Keys !! l.pending
    && l.records.Keys + l.active.Keys + l.pending == AllTrials(u)
  }

  predicate IsTrial(u: Setup, i: nat) { i < |u.plan.trials| }

  function AllTrials(u: Setup): set<nat> { set i: nat | i < |u.plan.trials| && IsTrial(u, i) }

  ghost predicate Numbered(l: Ledger) {
    && (forall k :: 0 <= k < |l.order| ==> Admitted(l, l.order[k]) && IndexOf(l, l.order[k]) == k + 1)
    && (forall i :: Admitted(l, i) ==> 1 <= IndexOf(l, i) <= |l.order| && l.order[IndexOf(l, i) - 1] == i)
  }

  ghost predicate Clocked(l: Ledger) {
    && l.now >= 0.0
    && (forall i :: Admitted(l, i) ==> 0.0 <= AdmittedAt(l, i) <= l.now)
    && (forall i, j :: Admitted(l, i) && Admitted(l, j) && IndexOf(l, i) <= IndexOf(l, j) ==>
          AdmittedAt(l, i) <= AdmittedAt(l, j))
  }

  /** A record against the instant it must not outrun and the hard stop it may name. */
  ghost predicate RecordSound(r: Record, now: real, term: Option<StopReason>, termAt: Option<real>) {
    && r.status != NotRun
    && TimingAccepted(r, now, None)
    && if Interrupted(r.status) then InterruptionAccepted(r, term, termAt)
       else if r.status == Exception then ExceptionAccepted(r)
       else NativeAccepted(r)
  }

  ghost predicate RecordsSound(l: Ledger) {
    && (forall i :: i in l.records ==> RecordSound(l.records[i], l.now, l.term, l.termAt))
    && (l.stop.None? ==> forall i :: i in l.records ==> l.records[i].cleanupConfirmed)
  }

  /** What a record says of its trial, and its texts and retained events, never changes again. */
  ghost predicate Labelled(u: Setup, records: map<nat, Record>)
    requires Sized(u)
  {
    forall i :: i in records && i < |u.plan.trials| ==>
      && records[i].spec == u.plan.trials[i] && records[i].keys == u.keys[i] && records[i].target == u.targets[i]
      && TextAccepted(records[i])
  }

  function Draft(u: Setup, l: Ledger): Execution {
    Execution(u.plan, u.policy, u.resources, [], l.now, l.stop, l.stopAt, l.term, l.termAt, u.timeout)
  }

  /** The stop decisions so far. */
  ghost predicate StopsSound(u: Setup, l: Ledger) {
    && StopsPaired(Draft(u, l))
    && (l.term.Some? ==> Hard(l.term.value))
    && (l.stop == Some(ElapsedAdmissionLimit) ==>
          u.plan.stopAfterElapsed.Some? && l.stopAt.value >= u.plan.stopAfterElapsed.value)
    && (l.stop == Some(StopOnError) ==> u.plan.stopOnError && FailedBy(l, l.stopAt.value))
  }

  ghost predicate FailedBy(l: Ledger, t: real) {
    exists i :: i in l.records && Failure(l.records[i]) && l.records[i].finished.value <= t
  }

  /** No admission after a stop, nor after an observed failure that stops admission. */
  ghost predicate Frozen(u: Setup, l: Ledger) {
    && (l.stopAt.Some? ==> forall i :: Admitted(l, i) ==> AdmittedAt(l, i) <= l.stopAt.value)
    && (u.plan.stopOnError ==> forall i, j :: i in l.records && Failure(l.records[i]) && Admitted(l, j) ==>
          AdmittedAt(l, j) <= l.records[i].finished.value)
  }

  /** Two stop decisions await the record of the child being consumed. */
  ghost predicate Evidenced(u: Setup, l: Ledger) {
    && (l.stop == Some(CleanupStop) || l.term == Some(CleanupStop) ==>
          exists i :: i in l.records && !l.records[i].cleanupConfirmed)
    && (u.plan.stopOnError && l.stop.None? ==> forall i :: i in l.records ==> !Failure(l.records[i]))
  }

  ghost predicate CellsOrdered(u: Setup, l: Ledger) {
    forall i: nat :: Admitted(l, i) && i < |u.plan.trials| ==> Follows(u, l, i)
  }

  ghost predicate Follows(u: Setup, l: Ledger, i: nat)
    requires i < |u.plan.trials|
  {
    match PriorInCell(u.plan.trials, i)
    case None => true
    case Some(p) =>
      && p in l.records && p !in l.active && IndexOf(l, p) < IndexOf(l, i)
      && l.records[p].released.Some? && l.records[p].released.value <= AdmittedAt(l, i)
  }

  /** `j` was admitted no later than `k` and not yet released when `k` was admitted. */
  ghost predicate Peer(l: Ledger, j: nat, k: nat) {
    && Admitted(l, j) && IndexOf(l, j) <= IndexOf(l, k)
    && !(ReleasedAt(l, j).Some? && ReleasedAt(l, j).value <= AdmittedAt(l, k))
  }

  ghost function Peers(u: Setup, l: Ledger, k: nat): set<nat> {
    set j | 0 <= j < |u.plan.trials| && Peer(l, j, k)
  }

  ghost predicate Reserved(u: Setup, l: Ledger)
    requires Sized(u)
  {
    && WithinLimits(Demand(u), l.active.Keys, u.policy)
    && forall k :: Admitted(l, k) ==> WithinLimits(Demand(u), Peers(u, l, k), u.policy)
  }

  /** The bookkeeping of the trials themselves. */
  ghost predicate TrialsInv(u: Setup, l: Ledger) {
    && Sized(u)
    && Partition(u, l) && Numbered(l) && Clocked(l)
    && RecordsSound(l) && CellsOrdered(u, l) && Reserved(u, l)
  }

  ghost predicate StopsInv(u: Setup, l: Ledger, consuming: bool) {
    StopsSound(u, l) && Frozen(u, l) && (consuming || Evidenced(u, l))
  }

  /** `consuming` marks the moments between taking a child's outcome and recording it. */
  ghost predicate Inv(u: Setup, l: Ledger, consuming: bool) {
    TrialsInv(u, l) && StopsInv(u, l, consuming)
  }

  lemma Start(u: Setup, l: Ledger)
    requires Sized(u)
    requires l.records == map[] && l.active == map[] && l.order == [] && l.now == 0.0
    requires l.pending == AllTrials(u)
    requires l.stop.None? && l.stopAt.None? && l.term.None? && l.termAt.None?
    ensures Inv(u, l, false) && Labelled(u, l.records)
  {
    RateOfNothing(Demand(u));
  }

  // ---- Steps that leave the trials alone ----------------------------------------------------

  ghost predicate SameTrials(l: Ledger, m: Ledger) {
    && l.records == m.records && l.pending == m.pending && l.order == m.order && l.now <= m.now
    && l.active.Keys == m.active.Keys
    && forall i :: i in l.active ==> m.active[i].index == l.active[i].index && m.active[i].admitted == l.active[i].admitted
  }

  lemma SameViews(l: Ledger, m: Ledger)
    requires SameTrials(l, m)
    ensures forall i :: Admitted(m, i) <==> Admitted(l, i)
    ensures forall i :: IndexOf(m, i) == IndexOf(l, i)
    ensures forall i :: AdmittedAt(m, i) == AdmittedAt(l, i)
    ensures forall i :: ReleasedAt(m, i) == ReleasedAt(l, i)
  {}

  lemma SameReserved(u: Setup, l: Ledger, m: Ledger)
    requires SameTrials(l, m) && Sized(u) && Reserved(u, l)
    ensures Reserved(u, m)
  {
    SameViews(l, m);
    forall k | Admitted(m, k) ensures WithinLimits(Demand(u), Peers(u, m, k), u.policy) {
      assert forall j :: Peer(m, j, k) <==> Peer(l, j, k);
      assert Peers(u, m, k) == Peers(u, l, k);
    }
  }

  lemma SameNumbered(l: Ledger, m: Ledger)
    requires SameTrials(l, m) && Numbered(l)
    ensures Numbered(m)
  {
    SameViews(l, m);
  }

  lemma SameClocked(l: Ledger, m: Ledger)
    requires SameTrials(l, m) && Clocked(l)
    ensures Clocked(m)
  {
    SameViews(l, m);
  }

  lemma SameCells(u: Setup, l: Ledger, m: Ledger)
    requires SameTrials(l, m) && CellsOrdered(u, l)
    ensures CellsOrdered(u, m)
  {
    SameViews(l, m);
    forall i: nat | Admitted(m, i) && i < |u.plan.trials| ensures Follows(u, m, i) {
      assert Follows(u, l, i);
    }
  }

  /** A hard stop, once recorded, keeps its reason and its instant. */
  ghost predicate TermKept(l: Ledger, m: Ledger) {
    && (l.term.Some? ==> m.term == l.term && m.termAt == l.termAt)
    && (l.stop.Some? ==> m.stop.Some?)
  }

  lemma SameRecords(l: Ledger, m: Ledger)
    requires SameTrials(l, m) && TermKept(l, m) && RecordsSound(l)
    ensures RecordsSound(m)
  {
    forall i | i in m.records ensures RecordSound(m.records[i], m.now, m.term, m.termAt) {
      assert RecordSound(l.records[i], l.now, l.term, l.termAt);
    }
  }

  lemma SameTrialsKeep(u: Setup, l: Ledger, m: Ledger)
    requires SameTrials(l, m) && TermKept(l, m) && TrialsInv(u, l)
    ensures TrialsInv(u, m)
  {
    SameReserved(u, l, m);
    SameNumbered(l, m);
    SameClocked(l, m);
    SameCells(u, l, m);
    SameRecords(l, m);
  }

  /** Reading the clock keeps everything. */
  lemma Wait(u: Setup, l: Ledger, t: real, consuming: bool)
    requires Inv(u, l, consuming) && t >= l.now
    ensures Inv(u, l.(now := t), consuming)
  {
    var m := l.(now := t);
    SameTrialsKeep(u, l, m);
    WaitStops(u, l, t, consuming);
  }

  lemma WaitStops(u: Setup, l: Ledger, t: real, consuming: bool)
    requires StopsInv(u, l, consuming) && t >= l.now
    ensures StopsInv(u, l.(now := t), consuming)
  {
    var m := l.(now := t);
    SameViews(l, m);
    if l.stop == Some(StopOnError) { assert FailedBy(m, m.stopAt.value); }
  }

  /** Marking children as cancelled changes no admission. */
  lemma Mark(u: Setup, l: Ledger, marked: map<nat, Owned>)
    requires Inv(u, l, false) && SameTrials(l, l.(active := marked))
    ensures Inv(u, l.(active := marked), false)
  {
    SameTrialsKeep(u, l, l.(active := marked));
    MarkStops(u, l, marked);
  }

  lemma MarkStops(u: Setup, l: Ledger, marked: map<nat, Owned>)
    requires StopsInv(u, l, false) && SameTrials(l, l.(active := marked))
    ensures StopsInv(u, l.(active := marked), false)
  {
    SameViews(l, l.(active := marked));
  }

  function Stopped(l: Ledger, reason: StopReason): Ledger {
    if l.stop.None? then l.(stop := Some(reason), stopAt := Some(l.now)) else l
  }

  /** What must be true for a soft stop to be declared. */
  ghost predicate SoftReason(u: Setup, l: Ledger, reason: StopReason) {
    && !Hard(reason)
    && (reason == ElapsedAdmissionLimit ==> u.plan.stopAfterElapsed.Some? && l.now >= u.plan.stopAfterElapsed.value)
    && (reason == StopOnError ==> u.plan.stopOnError && FailedBy(l, l.now))
  }

  lemma SoftStopTrials(u: Setup, l: Ledger, reason: StopReason)
    requires TrialsInv(u, l)
    ensures TrialsInv(u, Stopped(l, reason))
  {
    hide TrialsInv;
    SameTrialsKeep(u, l, Stopped(l, reason));
  }

  /** A soft stop freezes admission at the current instant; later ones change nothing. */
  lemma SoftStop(u: Setup, l: Ledger, reason: StopReason, consuming: bool)
    requires Inv(u, l, consuming) && SoftReason(u, l, reason)
    ensures Inv(u, Stopped(l, reason), consuming)
  {
    SoftStopTrials(u, l, reason);
    SoftStopStops(u, l, reason, consuming);
  }

  lemma SoftStopStops(u: Setup, l: Ledger, reason: StopReason, consuming: bool)
    requires StopsInv(u, l, consuming) && Clocked(l) && SoftReason(u, l, reason)
    ensures StopsInv(u, Stopped(l, reason), consuming)
  {
    var m := Stopped(l, reason);
    SameViews(l, m);
    if reason == StopOnError && l.stop.None? { assert FailedBy(m, l.now); }
  }

  function Terminated(l: Ledger, reason: StopReason): Ledger {
    var m := Stopped(l, reason);
    if m.term.None? then m.(term := Some(reason), termAt := Some(l.now)) else m
  }

  ghost predicate HardReason(u: Setup, reason: StopReason, consuming: bool) {
    && Hard(reason)
    && (reason == TimeoutStop ==> u.timeout.Some?)
    && (reason == CleanupStop ==> consuming)
  }

  lemma HardStopTrials(u: Setup, l: Ledger, reason: StopReason)
    requires TrialsInv(u, l)
    ensures TrialsInv(u, Terminated(l, reason))
  {
    hide TrialsInv;
    SameTrialsKeep(u, l, Terminated(l, reason));
  }

  /** A hard stop takes whichever of the two roles it finds vacant, and is never undone. */
  lemma HardStop(u: Setup, l: Ledger, reason: StopReason, consuming: bool)
    requires Inv(u, l, consuming) && HardReason(u, reason, consuming)
    ensures Inv(u, Terminated(l, reason), consuming)
  {
    HardStopTrials(u, l, reason);
    HardStopStops(u, l, reason, consuming);
  }

  lemma HardStopStops(u: Setup, l: Ledger, reason: StopReason, consuming: bool)
    requires StopsInv(u, l, consuming) && Clocked(l) && HardReason(u, reason, consuming)
    ensures StopsInv(u, Terminated(l, reason), consuming)
  {
    hide Admitted, AdmittedAt, IndexOf;
    var m := Terminated(l, reason);
    SameViews(l, m);
    if m.stop == Some(StopOnError) { assert FailedBy(l, m.stopAt.value); }
  }

  // ---- Admission ----------------------------------------------------------------------------

  function AdmitOne(l: Ledger, i: nat, startedAt: real): Ledger {
    l.(active := l.active[i := Owned(|l.order| + 1, l.now, startedAt, false)], pending := l.pending - {i}, order := l.order + [i])
  }

  /** What keeps a pending trial waiting: its predecessor, a held key, or the rate cap. */
  ghost predicate Barred(u: Setup, l: Ledger, i: nat)
    requires Sized(u) && i < |u.plan.trials|
  {
    || (PriorInCell(u.plan.trials, i).Some? && PriorInCell(u.plan.trials, i).value !in l.records)
    || KeysOf(Demand(u), l.active.Keys) * u.keys[i] != {}
    || Rate(Demand(u), l.active.Keys) + u.targets[i] > u.policy.maxActiveTargetBps
  }

  /** What bars a trial still does so while later trials are admitted. */
  lemma StaysBarred(u: Setup, l: Ledger, m: Ledger, i: nat, other: nat)
    requires Sized(u) && i < other && i < |u.plan.trials| && Barred(u, l, i)
    requires l.active.Keys <= m.active.Keys && m.records.Keys <= l.records.Keys + {other}
    ensures Barred(u, m, i)
  {
    hide KeysOf, Rate, Demand, PriorInCell;
    RateIsMonotone(Demand(u), l.active.Keys, m.active.Keys);
    KeysAreMonotone(u, l.active.Keys, m.active.Keys);
    assert PriorInCell(u.plan.trials, i).Some? ==> PriorInCell(u.plan.trials, i).value < i;
  }

  lemma KeysAreMonotone(u: Setup, a: set<nat>, b: set<nat>)
    requires Sized(u) && a <= b
    ensures KeysOf(Demand(u), a) <= KeysOf(Demand(u), b)
  {
    hide Demand;
  }

  /** The admission tests, in terms of what is active. */
  ghost predicate MayAdmit(u: Setup, l: Ledger, i: nat)
    requires Sized(u)
  {
    && l.stop.None? && i in l.pending && i < |u.plan.trials|
    && |l.active| < u.policy.maxWorkers && !Barred(u, l, i)
  }

  /** Every pending trial among the first `n` is barred. */
  ghost predicate Scanned(u: Setup, l: Ledger, n: nat)
    requires Sized(u) && n <= |u.plan.trials|
  {
    forall j: nat :: j < n && j in l.pending ==> Barred(u, l, j)
  }

  lemma ScanGoesOn(u: Setup, l: Ledger, m: Ledger, n: nat)
    requires Sized(u) && n < |u.plan.trials| && Scanned(u, l, n) && m.pending <= l.pending
    requires l.active.Keys <= m.active.Keys && m.records.Keys <= l.records.Keys + {n}
    requires n in m.pending ==> Barred(u, m, n)
    ensures Scanned(u, m, n + 1)
  {
    hide Barred;
    forall j: nat | j < n && j in m.pending ensures Barred(u, m, j) { StaysBarred(u, l, m, j, n); }
  }

  /** No pending trial could be admitted now. */
  ghost predicate NoneAdmissible(u: Setup, l: Ledger) {
    Sized(u) && forall i :: i in l.pending ==> i < |u.plan.trials| && !MayAdmit(u, l, i)
  }

  /** A scan that reaches the end, a stop or the worker ceiling leaves nothing admissible behind. */
  lemma ScanIsComplete(u: Setup, l: Ledger)
    requires Sized(u) && forall i :: i in l.pending ==> i < |u.plan.trials|
    requires Scanned(u, l, |u.plan.trials|) || l.stop.Some? || |l.active| >= u.policy.maxWorkers
    ensures NoneAdmissible(u, l)
  {
    hide Barred;
  }

  lemma KeysAdd(u: Setup, at: set<nat>, k: nat)
    requires Sized(u) && k < |u.plan.trials|
    ensures KeysOf(Demand(u), at + {k}) == KeysOf(Demand(u), at) + u.keys[k]
  {
    var rs := Demand(u);
    forall key | key in u.keys[k] ensures key in KeysOf(rs, at + {k}) {
      assert rs[k].keys == u.keys[k] && k in at + {k};
    }
  }

  /** What the admitted trials among the first `n` reserve. */
  lemma ReservedStep(u: Setup, at: set<nat>, n: nat)
    requires Sized(u) && n < |u.plan.trials|
    ensures KeysOf(Demand(u)[..n + 1], at) == KeysOf(Demand(u)[..n], at) + (if n in at then u.keys[n] else {})
    ensures Rate(Demand(u)[..n + 1], at) == Rate(Demand(u)[..n], at) + (if n in at then u.targets[n] else 0)
  {
    var longer, shorter := Demand(u)[..n + 1], Demand(u)[..n];
    assert longer[..n] == shorter;
    forall key | n in at && key in u.keys[n] ensures key in KeysOf(longer, at) {
      assert longer[n].keys == u.keys[n];
    }
    forall key | key in KeysOf(shorter, at) ensures key in KeysOf(longer, at) {
      var k :| 0 <= k < n && k in at && key in shorter[k].keys;
      assert longer[k] == shorter[k];
    }
    forall key | key in KeysOf(longer, at) ensures key in KeysOf(shorter, at) + (if n in at then u.keys[n] else {}) {
      var k :| 0 <= k < n + 1 && k in at && key in longer[k].keys;
      if k < n { assert longer[k] == shorter[k]; }
    }
  }

  /** With nothing live, the lowest pending trial passes every admission test. */
  lemma LowestIsAdmissible(u: Setup, l: Ledger, i: nat)
    requires SetupOk(u) && Inv(u, l, false) && l.stop.None? && l.active == map[] && i in l.pending
    requires forall j :: 0 <= j < i ==> j !in l.pending
    ensures MayAdmit(u, l, i)
  {
    hide Inv, KeysOf, Rate, Demand, PriorInCell;
    LowestIsNext(u, l, i);
    NothingIsHeld(u, i);
    assert TrialOk(u.plan.trials[i], u.policy);
  }

  /** The predecessor of the lowest pending trial is neither pending nor live, so it has its record. */
  lemma LowestIsNext(u: Setup, l: Ledger, i: nat)
    requires Inv(u, l, false) && l.active == map[] && i in l.pending
    requires forall j :: 0 <= j < i ==> j !in l.pending
    ensures i < |u.plan.trials|
    ensures PriorInCell(u.plan.trials, i).Some? ==> PriorInCell(u.plan.trials, i).value in l.records
  {
    hide StopsInv, Clocked, RecordsSound, CellsOrdered, Reserved, Numbered;
    assert i in l.records.Keys + l.active.Keys + l.pending;
    var prior := PriorInCell(u.plan.trials, i);
    if prior.Some? {
      assert IsTrial(u, prior.value);
      assert prior.value in l.records.Keys + l.active.Keys + l.pending;
    }
  }

  lemma NothingIsHeld(u: Setup, i: nat)
    requires Sized(u) && i < |u.plan.trials|
    ensures KeysOf(Demand(u), {}) == {} && Rate(Demand(u), {}) == 0
  {
    hide Demand;
    RateOfNothing(Demand(u));
  }

  lemma AdmitViews(u: Setup, l: Ledger, i: nat, startedAt: real)
    requires Partition(u, l) && i in l.pending
    ensures var m := AdmitOne(l, i, startedAt);
      && !Admitted(l, i) && Admitted(m, i) && i !in l.records
      && (forall j :: j != i ==> (Admitted(m, j) <==> Admitted(l, j)))
      && (forall j :: j != i ==> IndexOf(m, j) == IndexOf(l, j))
      && (forall j :: j != i ==> AdmittedAt(m, j) == AdmittedAt(l, j))
      && (forall j :: ReleasedAt(m, j) == ReleasedAt(l, j))
      && IndexOf(m, i) == |l.order| + 1 && AdmittedAt(m, i) == l.now
      && m.active.Keys == l.active.Keys + {i}
  {
    assert i !in l.records.Keys && i !in l.active.Keys;
  }

  lemma AdmissionFits(u: Setup, l: Ledger, i: nat)
    requires Sized(u) && MayAdmit(u, l, i) && i !in l.active && WithinLimits(Demand(u), l.active.Keys, u.policy)
    ensures WithinLimits(Demand(u), l.active.Keys + {i}, u.policy)
  {
    RateAdds(Demand(u), l.active.Keys, i);
    ExclusionGrows(Demand(u), l.active.Keys, i);
    assert |l.active.Keys| == |l.active|;
  }

  /** Whoever the newcomer shares an instant with is active now: confirmed records have released. */
  lemma NewcomerPeers(u: Setup, l: Ledger, i: nat, startedAt: real)
    requires Partition(u, l) && RecordsSound(l) && l.stop.None? && i in l.pending
    ensures Peers(u, AdmitOne(l, i, startedAt), i) <= l.active.Keys + {i}
  {
    var m := AdmitOne(l, i, startedAt);
    AdmitViews(u, l, i, startedAt);
    forall j | j in Peers(u, m, i) ensures j in l.active.Keys + {i} {
      if j in l.records { assert RecordSound(l.records[j], l.now, l.term, l.termAt); }
    }
  }

  lemma OldPeers(u: Setup, l: Ledger, i: nat, startedAt: real, k: nat)
    requires Partition(u, l) && Numbered(l) && i in l.pending && Admitted(l, k)
    ensures Peers(u, AdmitOne(l, i, startedAt), k) == Peers(u, l, k)
  {
    var m := AdmitOne(l, i, startedAt);
    AdmitViews(u, l, i, startedAt);
    assert forall j :: Peer(m, j, k) <==> Peer(l, j, k);
  }

  lemma AdmitReserved(u: Setup, l: Ledger, i: nat, startedAt: real)
    requires Sized(u) && Partition(u, l) && Numbered(l) && RecordsSound(l) && Reserved(u, l) && MayAdmit(u, l, i)
    ensures Reserved(u, AdmitOne(l, i, startedAt))
  {
    var m := AdmitOne(l, i, startedAt);
    AdmitViews(u, l, i, startedAt);
    AdmissionFits(u, l, i);
    NewcomerPeers(u, l, i, startedAt);
    LimitsAreMonotone(Demand(u), Peers(u, m, i), l.active.Keys + {i}, u.policy);
    forall k | Admitted(m, k) ensures WithinLimits(Demand(u), Peers(u, m, k), u.policy) {
      if k != i { OldPeers(u, l, i, startedAt, k); }
    }
  }

  lemma AdmitNumbered(u: Setup, l: Ledger, i: nat, startedAt: real)
    requires Partition(u, l) && Numbered(l) && i in l.pending
    ensures var m := AdmitOne(l, i, startedAt); Partition(u, m) && Numbered(m)
  {
    AdmitViews(u, l, i, startedAt);
  }

  lemma AdmitClocked(u: Setup, l: Ledger, i: nat, startedAt: real)
    requires Partition(u, l) && Numbered(l) && Clocked(l) && i in l.pending
    ensures Clocked(AdmitOne(l, i, startedAt))
  {
    AdmitViews(u, l, i, startedAt);
  }

  lemma AdmitStops(u: Setup, l: Ledger, i: nat, startedAt: real)
    requires Partition(u, l) && StopsInv(u, l, false) && l.stop.None? && i in l.pending
    ensures StopsInv(u, AdmitOne(l, i, startedAt), false)
  {
    AdmitViews(u, l, i, startedAt);
  }

  lemma AdmitCells(u: Setup, l: Ledger, i: nat, startedAt: real)
    requires Sized(u) && Partition(u, l) && Numbered(l) && RecordsSound(l) && CellsOrdered(u, l) && MayAdmit(u, l, i)
    ensures CellsOrdered(u, AdmitOne(l, i, startedAt))
  {
    var m := AdmitOne(l, i, startedAt);
    AdmitViews(u, l, i, startedAt);
    forall j: nat | Admitted(m, j) && j < |u.plan.trials| ensures Follows(u, m, j) {
      var prior := PriorInCell(u.plan.trials, j);
      if prior.Some? {
        if j == i {
          assert RecordSound(l.records[prior.value], l.now, l.term, l.termAt);
          assert Admitted(l, prior.value);
        } else {
          assert Follows(u, l, j);
        }
      }
    }
  }

  /** Admitting a trial that passes the tests keeps every reservation limit and ordering. */
  lemma Admit(u: Setup, l: Ledger, i: nat, startedAt: real)
    requires Inv(u, l, false) && MayAdmit(u, l, i)
    ensures Inv(u, AdmitOne(l, i, startedAt), false)
  {
    AdmitReserved(u, l, i, startedAt);
    AdmitNumbered(u, l, i, startedAt);
    AdmitClocked(u, l, i, startedAt);
    AdmitStops(u, l, i, startedAt);
    AdmitCells(u, l, i, startedAt);
  }

  // ---- Consumption --------------------------------------------------------------------------

  function Settle(l: Ledger, i: nat, r: Record): Ledger {
    l.(records := l.records[i := r], active := l.active - {i})
  }

  /** The record of a consumed child continues its admission and is sound at the current instant. */
  ghost predicate Settles(l: Ledger, i: nat, r: Record) {
    && i in l.active
    && RecordSound(r, l.now, l.term, l.termAt)
    && r.index == Some(l.active[i].index) && r.admitted == Some(l.active[i].admitted) && r.finished == Some(l.now)
    && (r.status == CleanupFailed ==> l.stop.Some?)
  }

  lemma SettleViews(u: Setup, l: Ledger, i: nat, r: Record)
    requires Partition(u, l) && Settles(l, i, r)
    ensures var m := Settle(l, i, r);
      && (forall j :: Admitted(m, j) <==> Admitted(l, j))
      && (forall j :: IndexOf(m, j) == IndexOf(l, j))
      && (forall j :: AdmittedAt(m, j) == AdmittedAt(l, j))
      && (forall j :: j != i ==> ReleasedAt(m, j) == ReleasedAt(l, j))
      && ReleasedAt(l, i).None?
      && m.active.Keys == l.active.Keys - {i}
      && m.records.Keys == l.records.Keys + {i}
      && i !in l.records
  {
    assert i in l.active.Keys;
  }

  lemma ConsumeReserved(u: Setup, l: Ledger, i: nat, r: Record)
    requires Sized(u) && Partition(u, l) && Reserved(u, l) && Settles(l, i, r)
    ensures Reserved(u, Settle(l, i, r))
  {
    hide RecordSound, WithinLimits, Partition;
    var m := Settle(l, i, r);
    SettleViews(u, l, i, r);
    forall k | Admitted(m, k) ensures WithinLimits(Demand(u), Peers(u, m, k), u.policy) {
      assert forall j :: Peer(m, j, k) ==> Peer(l, j, k);
      LimitsAreMonotone(Demand(u), Peers(u, m, k), Peers(u, l, k), u.policy);
    }
    LimitsAreMonotone(Demand(u), m.active.Keys, l.active.Keys, u.policy);
  }

  lemma ConsumeNumbered(u: Setup, l: Ledger, i: nat, r: Record)
    requires Partition(u, l) && Numbered(l) && Settles(l, i, r)
    ensures var m := Settle(l, i, r); Partition(u, m) && Numbered(m)
  {
    SettleViews(u, l, i, r);
  }

  lemma ConsumeClocked(u: Setup, l: Ledger, i: nat, r: Record)
    requires Partition(u, l) && Clocked(l) && Settles(l, i, r)
    ensures Clocked(Settle(l, i, r))
  {
    SettleViews(u, l, i, r);
  }

  lemma ConsumeStops(u: Setup, l: Ledger, i: nat, r: Record)
    requires Partition(u, l) && Clocked(l) && StopsInv(u, l, true) && Settles(l, i, r)
    ensures StopsInv(u, Settle(l, i, r), true)
  {
    var m := Settle(l, i, r);
    SettleViews(u, l, i, r);
    if l.stop == Some(StopOnError) {
      var j :| j in l.records && Failure(l.records[j]) && l.records[j].finished.value <= l.stopAt.value;
      assert j in m.records && m.records[j] == l.records[j];
      assert FailedBy(m, m.stopAt.value);
    }
  }

  lemma ConsumeRecords(u: Setup, l: Ledger, i: nat, r: Record)
    requires Partition(u, l) && RecordsSound(l) && Settles(l, i, r)
    ensures RecordsSound(Settle(l, i, r))
  {
    var m := Settle(l, i, r);
    SettleViews(u, l, i, r);
    forall j | j in m.records ensures RecordSound(m.records[j], m.now, m.term, m.termAt) {
      if j != i { assert RecordSound(l.records[j], l.now, l.term, l.termAt); }
    }
  }

  lemma ConsumeCells(u: Setup, l: Ledger, i: nat, r: Record)
    requires Partition(u, l) && CellsOrdered(u, l) && Settles(l, i, r)
    ensures CellsOrdered(u, Settle(l, i, r))
  {
    var m := Settle(l, i, r);
    SettleViews(u, l, i, r);
    forall j: nat | Admitted(m, j) && j < |u.plan.trials| ensures Follows(u, m, j) {
      assert Follows(u, l, j);
      var prior := PriorInCell(u.plan.trials, j);
      if prior.Some? { assert m.records[prior.value] == l.records[prior.value]; }
    }
  }

  /** Consuming a child shrinks what later admissions compete with and keeps the rest. */
  lemma Consume(u: Setup, l: Ledger, i: nat, r: Record)
    requires Inv(u, l, true) && Settles(l, i, r)
    ensures Inv(u, Settle(l, i, r), true)
  {
    ConsumeReserved(u, l, i, r);
    ConsumeNumbered(u, l, i, r);
    ConsumeClocked(u, l, i, r);
    ConsumeStops(u, l, i, r);
    ConsumeRecords(u, l, i, r);
    ConsumeCells(u, l, i, r);
  }

  /** Taking a child's outcome suspends only what its own record will restore. */
  lemma Consuming(u: Setup, l: Ledger)
    requires Inv(u, l, false)
    ensures Inv(u, l, true) && Evidenced(u, l)
  {
    hide TrialsInv, StopsSound, Frozen, Evidenced;
  }

  lemma Recorded(u: Setup, l: Ledger)
    requires Inv(u, l, true) && Evidenced(u, l)
    ensures Inv(u, l, false)
  {
    hide TrialsInv, StopsSound, Frozen, Evidenced;
  }

  lemma TerminationStops(u: Setup, l: Ledger)
    requires Inv(u, l, false)
    ensures l.term.Some? ==> l.stop.Some? && Hard(l.term.value)
  {
    hide TrialsInv, Frozen, Evidenced;
  }

  predicate NamesCleanup(l: Ledger) { l.stop == Some(CleanupStop) || l.term == Some(CleanupStop) }

  /** Recording the child restores the evidence for whatever stop its outcome caused. */
  lemma EvidenceRestored(u: Setup, l: Ledger, m: Ledger, i: nat, r: Record)
    requires Evidenced(u, l) && i !in l.records && m.records == l.records[i := r]
    requires l.stop.Some? ==> m.stop.Some?
    requires NamesCleanup(m) ==> NamesCleanup(l) || !r.cleanupConfirmed
    requires u.plan.stopOnError && Failure(r) ==> m.stop.Some?
    ensures Evidenced(u, m)
  {
    if NamesCleanup(m) && NamesCleanup(l) {
      var j :| j in l.records && !l.records[j].cleanupConfirmed;
      assert j in m.records && m.records[j] == l.records[j];
    }
    if !r.cleanupConfirmed { assert i in m.records; }
  }

  /** A soft reason, once true, stays true as time passes. */
  lemma SoftReasonLasts(u: Setup, l: Ledger, t: real, reason: StopReason)
    requires SoftReason(u, l, reason) && t >= l.now
    ensures SoftReason(u, l.(now := t), reason)
  {
    if reason == StopOnError { assert FailedBy(l.(now := t), t); }
  }

  // ---- The finished ledger is an accepted history -------------------------------------------

  function NotRunRecord(u: Setup, i: nat, stop: Option<StopReason>): Record
    requires Sized(u) && i < |u.plan.trials|
  {
    Record(u.plan.trials[i], NotRun, u.keys[i], u.targets[i], None, None, None, None, None, None, stop,
           None, None, None, false, [], true, [], 0, 0)
  }

  function Trials(u: Setup, l: Ledger): seq<Record>
    requires Sized(u)
  {
    seq(|u.plan.trials|, i requires 0 <= i < |u.plan.trials| =>
      if i in l.records then l.records[i] else NotRunRecord(u, i, l.stop))
  }

  function Report(u: Setup, l: Ledger, elapsed: real): Execution
    requires Sized(u)
  {
    Execution(u.plan, u.policy, u.resources, Trials(u, l), elapsed, l.stop, l.stopAt, l.term, l.termAt, u.timeout)
  }

  /** Nothing is live, and whatever never started has a stop to name. */
  predicate Finished(l: Ledger) { l.active == map[] && (l.pending == {} || l.stop.Some?) }

  lemma FinishedRecords(u: Setup, l: Ledger)
    requires Sized(u) && Partition(u, l) && l.active == map[] && RecordsSound(l)
    ensures forall i :: i in l.records ==> i < |u.plan.trials| && Trials(u, l)[i] == l.records[i] && l.records[i].status != NotRun
    ensures forall i :: 0 <= i < |u.plan.trials| && i !in l.records ==>
      i in l.pending && Trials(u, l)[i] == NotRunRecord(u, i, l.stop)
    ensures forall i :: Admitted(l, i) <==> i in l.records
  {
    forall i | i in l.records ensures i < |u.plan.trials| && l.records[i].status != NotRun {
      assert i in l.records.Keys + l.active.Keys + l.pending;
      assert RecordSound(l.records[i], l.now, l.term, l.termAt);
    }
    forall i | 0 <= i < |u.plan.trials| && i !in l.records ensures i in l.pending {
      assert IsTrial(u, i);
      assert i in l.records.Keys + l.active.Keys + l.pending;
    }
  }

  lemma FinishedErrorStop(u: Setup, l: Ledger, elapsed: real)
    requires Sized(u) && Partition(u, l) && RecordsSound(l) && StopsSound(u, l) && Frozen(u, l) && Evidenced(u, l)
    requires l.active == map[]
    ensures ErrorStopAccepted(Report(u, l, elapsed))
  {
    hide RecordSound, Partition, RecordsSound;
    var e := Report(u, l, elapsed);
    FinishedRecords(u, l);
    if l.stop == Some(StopOnError) {
      var i :| i in l.records && Failure(l.records[i]) && l.records[i].finished.value <= l.stopAt.value;
      assert e.trials[i] == l.records[i];
    }
    if u.plan.stopOnError {
      forall i | 0 <= i < |e.trials| && Failure(e.trials[i])
        ensures i in l.records && e.stopReason.Some?
      {}
      forall i, j | 0 <= i < |e.trials| && Failure(e.trials[i]) && 0 <= j < |e.trials| && e.trials[j].admitted.Some?
        ensures e.trials[j].admitted.value <= e.trials[i].finished.value
      {
        assert j in l.records && AdmittedAt(l, j) == e.trials[j].admitted.value;
      }
    }
  }

  lemma FinishedStops(u: Setup, l: Ledger, elapsed: real)
    requires Sized(u) && Partition(u, l) && RecordsSound(l) && StopsInv(u, l, false) && l.active == map[] && elapsed >= l.now
    ensures StopsAccepted(Report(u, l, elapsed))
  {
    hide RecordSound, Partition, ErrorStopAccepted, Frozen;
    var e := Report(u, l, elapsed);
    FinishedErrorStop(u, l, elapsed);
    FinishedRecords(u, l);
    if l.stop == Some(CleanupStop) || l.term == Some(CleanupStop) {
      var i :| i in l.records && !l.records[i].cleanupConfirmed;
      assert !e.trials[i].cleanupConfirmed;
    }
  }

  lemma SoundIsAccepted(u: Setup, l: Ledger, elapsed: real, r: Record)
    requires Sized(u) && RecordSound(r, l.now, l.term, l.termAt) && TextAccepted(r) && elapsed >= l.now
    requires l.stopAt.Some? ==> r.admitted.value <= l.stopAt.value
    ensures OutcomeAccepted(r, Report(u, l, elapsed))
  {
    hide TextAccepted, ExceptionAccepted, NativeAccepted, Trials;
  }

  lemma FinishedOutcome(u: Setup, l: Ledger, elapsed: real, i: nat)
    requires Sized(u) && Partition(u, l) && RecordsSound(l) && Labelled(u, l.records) && StopsSound(u, l) && Frozen(u, l)
    requires Finished(l) && elapsed >= l.now && i < |u.plan.trials|
    ensures OutcomeAccepted(Trials(u, l)[i], Report(u, l, elapsed))
  {
    hide EvidenceAccepted, NonBlank, Partition, StopsSound;
    FinishedRecords(u, l);
    var r := Trials(u, l)[i];
    if i in l.records {
      hide TextAccepted, OutcomeAccepted;
      assert RecordSound(r, l.now, l.term, l.termAt);
      assert Admitted(l, i) && AdmittedAt(l, i) == r.admitted.value;
      SoundIsAccepted(u, l, elapsed, r);
    } else {
      NothingRetained();
    }
  }

  lemma NothingRetained()
    ensures EvidenceAccepted(NotRun, [], 0, 0)
  {}

  lemma FinishedIndices(u: Setup, l: Ledger)
    requires Sized(u) && Partition(u, l) && RecordsSound(l) && l.active == map[]
    ensures |Trials(u, l)| == |u.plan.trials|
    ensures forall i :: i in l.records ==>
      i < |Trials(u, l)| && Trials(u, l)[i].index == Some(IndexOf(l, i)) && Trials(u, l)[i].admitted == Some(AdmittedAt(l, i))
      && Trials(u, l)[i].status != NotRun
    ensures forall i :: 0 <= i < |u.plan.trials| && i !in l.records ==>
      Trials(u, l)[i].index.None? && Trials(u, l)[i].status == NotRun
    ensures forall i :: Admitted(l, i) <==> i in l.records
  {
    hide Partition;
    FinishedRecords(u, l);
    forall i | i in l.records
      ensures Trials(u, l)[i].index == Some(IndexOf(l, i)) && Trials(u, l)[i].admitted == Some(AdmittedAt(l, i))
    {
      assert RecordSound(l.records[i], l.now, l.term, l.termAt);
    }
  }

  lemma FinishedOrder(u: Setup, l: Ledger)
    requires Sized(u) && Partition(u, l) && RecordsSound(l) && Numbered(l) && l.active == map[]
    ensures AdmissionOrder(Trials(u, l), l.order)
  {
    hide RecordsSound, Partition, Trials, IndexOf, AdmittedAt, Numbered;
    var trials := Trials(u, l);
    forall k | 0 <= k < |l.order|
      ensures l.order[k] < |trials| && trials[l.order[k]].status != NotRun && trials[l.order[k]].index == Some(k + 1)
    {
      OrderIsRecorded(u, l, k);
    }
    forall i | 0 <= i < |trials| && trials[i].status != NotRun
      ensures trials[i].index.Some? && 1 <= trials[i].index.value <= |l.order| && l.order[trials[i].index.value - 1] == i
    {
      RecordIsOrdered(u, l, i);
    }
  }

  lemma OrderIsRecorded(u: Setup, l: Ledger, k: nat)
    requires Sized(u) && Partition(u, l) && RecordsSound(l) && Numbered(l) && l.active == map[] && k < |l.order|
    ensures l.order[k] < |Trials(u, l)|
    ensures Trials(u, l)[l.order[k]].status != NotRun && Trials(u, l)[l.order[k]].index == Some(k + 1)
  {
    hide RecordsSound, Partition, Trials, IndexOf, AdmittedAt;
    FinishedIndices(u, l);
    assert Admitted(l, l.order[k]);
  }

  lemma RecordIsOrdered(u: Setup, l: Ledger, i: nat)
    requires Sized(u) && Partition(u, l) && RecordsSound(l) && Numbered(l) && l.active == map[]
    requires i < |Trials(u, l)| && Trials(u, l)[i].status != NotRun
    ensures var index := Trials(u, l)[i].index;
      index.Some? && 1 <= index.value <= |l.order| && l.order[index.value - 1] == i
  {
    hide RecordsSound, Partition, Trials, IndexOf, AdmittedAt;
    FinishedIndices(u, l);
    assert Admitted(l, i);
  }

  lemma FinishedMonotone(u: Setup, l: Ledger)
    requires Sized(u) && Partition(u, l) && RecordsSound(l) && Clocked(l) && l.active == map[]
    ensures AdmissionsMonotone(Trials(u, l))
  {
    var trials := Trials(u, l);
    FinishedIndices(u, l);
    hide RecordsSound, Partition, Admitted, IndexOf, AdmittedAt;
    forall i, j | 0 <= i < |trials| && 0 <= j < |trials| ensures AdmissionsAgree(trials[i], trials[j]) {
      if i in l.records && j in l.records {
        assert Admitted(l, i) && Admitted(l, j);
      }
    }
  }

  lemma FinishedCells(u: Setup, l: Ledger)
    requires Sized(u) && Partition(u, l) && RecordsSound(l) && CellsOrdered(u, l) && l.active == map[]
    ensures PredecessorsReleased(u.plan, Trials(u, l))
  {
    var trials := Trials(u, l);
    FinishedRecords(u, l);
    forall i | 0 <= i < |trials| ensures PredecessorReleased(u.plan, trials, i) {
      if i in l.records {
        assert Follows(u, l, i);
        assert RecordSound(l.records[i], l.now, l.term, l.termAt);
        var prior := PriorInCell(u.plan.trials, i);
        if prior.Some? { assert RecordSound(l.records[prior.value], l.now, l.term, l.termAt); }
      }
    }
  }

  /** Limits look at targets and keys only. */
  lemma {:induction false} SameDemand(a: seq<Reservation>, b: seq<Reservation>, at: set<nat>, policy: Policy)
    requires |a| == |b| && forall k :: 0 <= k < |a| ==> a[k].target == b[k].target && a[k].keys == b[k].keys
    ensures WithinLimits(a, at, policy) <==> WithinLimits(b, at, policy)
  {
    SameRate(a, b, at);
  }

  lemma {:induction false} SameRate(a: seq<Reservation>, b: seq<Reservation>, at: set<nat>)
    requires |a| == |b| && forall k :: 0 <= k < |a| ==> a[k].target == b[k].target
    ensures Rate(a, at) == Rate(b, at)
  {
    if a != [] { SameRate(a[..|a| - 1], b[..|b| - 1], at); }
  }

  /** Some member of a nonempty set of admitted trials was admitted last. */
  lemma LastAdmitted(l: Ledger, s: set<nat>) returns (k: nat)
    requires s != {}
    ensures k in s && forall j :: j in s ==> IndexOf(l, j) <= IndexOf(l, k)
    decreases s
  {
    k :| k in s;
    if s != {k} {
      var other := LastAdmitted(l, s - {k});
      if IndexOf(l, k) <= IndexOf(l, other) { k := other; }
    }
  }

  lemma ReservationFacts(u: Setup, l: Ledger, j: nat, t: real)
    requires Sized(u) && Partition(u, l) && RecordsSound(l) && l.active == map[]
    requires j in OccupiedAt(ReservationsOf(Trials(u, l)), t)
    ensures j < |u.plan.trials| && Admitted(l, j) && AdmittedAt(l, j) <= t
    ensures ReleasedAt(l, j).Some? ==> t < ReleasedAt(l, j).value
  {
    FinishedRecords(u, l);
    if j in l.records { assert RecordSound(l.records[j], l.now, l.term, l.termAt); }
  }

  /** Whatever is occupied at an instant was jointly admissible when the last of it was admitted. */
  lemma OccupiedArePeers(u: Setup, l: Ledger, t: real) returns (k: nat)
    requires Sized(u) && Partition(u, l) && RecordsSound(l) && l.active == map[]
    requires OccupiedAt(ReservationsOf(Trials(u, l)), t) != {}
    ensures Admitted(l, k) && OccupiedAt(ReservationsOf(Trials(u, l)), t) <= Peers(u, l, k)
  {
    var at := OccupiedAt(ReservationsOf(Trials(u, l)), t);
    k := LastAdmitted(l, at);
    ReservationFacts(u, l, k, t);
    forall j | j in at ensures j in Peers(u, l, k) {
      ReservationFacts(u, l, j, t);
    }
  }

  lemma FinishedReservations(u: Setup, l: Ledger, elapsed: real)
    requires Sized(u) && Partition(u, l) && RecordsSound(l) && Labelled(u, l.records) && Reserved(u, l) && l.active == map[]
    ensures NeverOverCommitted(Report(u, l, elapsed))
  {
    var rs := ReservationsOf(Trials(u, l));
    forall t ensures WithinLimits(rs, OccupiedAt(rs, t), u.policy) {
      SameAsDemand(u, l, OccupiedAt(rs, t));
      if OccupiedAt(rs, t) == {} {
        RateOfNothing(rs);
      } else {
        var k := OccupiedArePeers(u, l, t);
        LimitsAreMonotone(Demand(u), OccupiedAt(rs, t), Peers(u, l, k), u.policy);
      }
    }
  }

  lemma SameAsDemand(u: Setup, l: Ledger, at: set<nat>)
    requires Sized(u) && Partition(u, l) && RecordsSound(l) && Labelled(u, l.records) && l.active == map[]
    ensures WithinLimits(ReservationsOf(Trials(u, l)), at, u.policy) <==> WithinLimits(Demand(u), at, u.policy)
  {
    hide RecordSound, TextAccepted;
    FinishedRecords(u, l);
    SameDemand(ReservationsOf(Trials(u, l)), Demand(u), at, u.policy);
  }

  lemma FinishedTrials(u: Setup, l: Ledger, elapsed: real)
    requires SetupOk(u) && TrialsInv(u, l) && StopsInv(u, l, false) && Labelled(u, l.records) && Finished(l) && elapsed >= l.now
    ensures TrialsAccepted(Report(u, l, elapsed))
  {
    hide PlanOk, RecordSound, TextAccepted;
    var e := Report(u, l, elapsed);
    FinishedRecords(u, l);
    forall i | 0 <= i < |e.trials|
      ensures ConcurrentReports.Declared(e.trials[i], e.plan.trials[i], e.resources) && OutcomeAccepted(e.trials[i], e)
    {
      FinishedOutcome(u, l, elapsed, i);
    }
  }

  /** Every finished ledger, read as a report, is accepted by the whole independent validator. */
  lemma FinishedIsAccepted(u: Setup, l: Ledger, elapsed: real)
    requires SetupOk(u) && Inv(u, l, false) && Labelled(u, l.records) && Finished(l) && elapsed >= l.now
    ensures HistoryAccepted(Report(u, l, elapsed))
  {
    var e := Report(u, l, elapsed);
    FinishedStops(u, l, elapsed);
    FinishedOrder(u, l);
    FinishedMonotone(u, l);
    FinishedCells(u, l);
    FinishedReservations(u, l, elapsed);
    FinishedTrials(u, l, elapsed);
  }
}
