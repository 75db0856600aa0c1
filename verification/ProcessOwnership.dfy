/**
 Cancellation arbitration, process ownership and server admission (`_cancellation.py`, `iperf_server.py`) as an
 interleaved system: every block under a lock, every callback and every observation of the process is one step.
 Operations of one server share its admission lock; each has its own control, calling thread and process owner.
 */
module ProcessOwnership {
  import opened Options

  /** The disposable process: it may exit at any time, and only then can its exit be collected. */
  datatype Process = NoProcess | Alive | Exited

  /** The thread that owns shutdown: watching, stopping, running reap callbacks, or still waiting after a failed cleanup. */
  datatype Owner = NoOwner | WatchingExit | StoppingProcess | RunningCallbacks | Lingering | Retired | Abandoned

  /** The thread that invoked the operation. */
  datatype Caller =
    | Queued | Begun | Admitted | Working | Closing | Leaving(cleanupFailed: bool) | Deferring | CallingBack | Gone

  /**
   `callbacks` counts releases waiting for the reap, `calls` those taken by `_mark_reaped` and not yet called.
   `late` remembers that cancellation won before `begin`; `releases` counts releases of the admission lock.
   */
  datatype Operation = Operation(
    cause: Option<nat>, completed: bool, started: bool, process: Process, reaped: bool, stop: bool,
    attempted: bool, failed: bool, callbacks: nat, calls: nat, owner: Owner, caller: Caller,
    acquired: bool, releases: nat, late: bool, given: bool)

  /** `given`: the caller passed its own control, so its confirmation is consulted even without a cleanup error. */
  function Fresh(given: bool): Operation {
    Operation(None, false, false, NoProcess, false, false, false, false, 0, 0, NoOwner, Queued, false, 0, false, given)
  }

  datatype Server = Server(lock: Option<nat>, operations: seq<Operation>)

  datatype Action =
    | Submit(given: bool)
    | Abort(op: nat, cause: nat)
    | Begin(op: nat)
    | Acquire(op: nat)
    | Spawn(op: nat, ownerStarts: bool)
    | FailEarly(op: nat)
    | Exit(op: nat)
    | Observe(op: nat)
    | SeeStop(op: nat)
    | ObserveFails(op: nat, cause: nat)
    | StopSucceeds(op: nat)
    | StopFails(op: nat, reaperStarts: bool)
    | ReapLate(op: nat)
    | CallBack(op: nat)
    | FinishCallbacks(op: nat)
    | Complete(op: nat)
    | Close(op: nat)
    | Closed(op: nat)
    | Leave(op: nat)
    | Defer(op: nat)
    | CallNow(op: nat)

  predicate Confirmed(o: Operation) { o.process == NoProcess || o.reaped }

  /** `_mark_reaped`, its part under the lock: publish the reap and take the callbacks. */
  function Reaping(o: Operation): Operation {
    o.(reaped := true, calls := o.calls + o.callbacks, callbacks := 0, owner := RunningCallbacks)
  }

  /** `abort`: only the first cause counts, and none after completion. */
  function Aborted(o: Operation, cause: nat): Operation {
    if !o.completed && o.cause.None? then o.(cause := Some(cause), stop := true, late := o.late || !o.started) else o
  }

  predicate OpMay(o: Operation, a: Action, free: bool) {
    match a
    case Submit(_) => false
    case Abort(_, _) => true
    case Begin(_) => o.caller == Queued
    case Acquire(_) => o.caller == Begun
    case Spawn(_, _) => o.caller == Admitted && o.cause.None?
    case FailEarly(_) => o.caller == Admitted
    case Exit(_) => o.process == Alive
    case Observe(_) => o.owner == WatchingExit && !o.stop && o.process == Exited
    case SeeStop(_) => o.owner == WatchingExit
    case StopSucceeds(_) => o.owner == StoppingProcess
    case StopFails(_, _) => o.owner == StoppingProcess
    case ObserveFails(_, _) => o.owner == WatchingExit && !o.stop
    case ReapLate(_) => o.owner == Lingering && o.process == Exited
    case CallBack(_) => o.owner == RunningCallbacks && o.calls > 0
    case FinishCallbacks(_) => o.owner == RunningCallbacks && o.calls == 0
    case Complete(_) => o.caller == Working && o.reaped
    case Close(_) => o.caller == Working
    case Closed(_) => o.caller == Closing && o.attempted
    case Leave(_) => o.caller.Leaving?
    case Defer(_) => o.caller == Deferring
    case CallNow(_) => o.caller == CallingBack
  }

  function Released(o: Operation): Operation { o.(releases := o.releases + 1) }

  /** One step of one operation; `free` is whether the admission lock is free. */
  function OpStep(o: Operation, a: Action, free: bool): Operation
    requires OpMay(o, a, free)
  {
    match a
    case Abort(_, cause) => Aborted(o, cause)
    case Begin(_) => if o.cause.Some? then o.(caller := Gone) else o.(started := true, caller := Begun)
    case Acquire(_) => if free then o.(acquired := true, caller := Admitted) else o.(caller := Gone)
    case Spawn(_, ownerStarts) =>
      o.(process := Alive, owner := if ownerStarts then WatchingExit else NoOwner, caller := Working)
    case FailEarly(_) => o.(caller := Leaving(false))
    case Exit(_) => o.(process := Exited)
    case Observe(_) => Reaping(o)
    case SeeStop(_) => if o.stop then o.(owner := StoppingProcess) else o
    case StopSucceeds(_) => Reaping(o.(process := Exited))
    case StopFails(_, reaperStarts) => o.(failed := true, attempted := true, owner := if reaperStarts then Lingering else Abandoned)
    case ObserveFails(_, cause) => Aborted(o, cause).(owner := StoppingProcess)
    case ReapLate(_) => Reaping(o)
    case CallBack(_) => Released(o.(calls := o.calls - 1))
    case FinishCallbacks(_) => o.(attempted := true, owner := Retired)
    case Complete(_) => if o.cause.Some? then o.(caller := Working) else o.(completed := true)
    case Close(_) => o.(stop := true, owner := if o.owner == NoOwner then StoppingProcess else o.owner, caller := Closing)
    case Closed(_) => o.(caller := Leaving(o.failed))
    case Leave(_) =>
      if (!o.given && !o.caller.cleanupFailed) || Confirmed(o) then Released(o.(caller := Gone)) else o.(caller := Deferring)
    case Defer(_) => if o.process != NoProcess && !o.reaped then o.(callbacks := o.callbacks + 1, caller := Gone) else o.(caller := CallingBack)
    case CallNow(_) => Released(o.(caller := Gone))
    case Submit(_) => o
  }

  predicate May(s: Server, a: Action) {
    a.Submit? || (a.op < |s.operations| && OpMay(s.operations[a.op], a, s.lock.None?))
  }

  /** Acquiring and releasing are the only steps that move the admission lock. */
  function LockAfter(s: Server, a: Action, before: Operation, after: Operation): Option<nat>
    requires !a.Submit?
  {
    if after.acquired && !before.acquired then Some(a.op)
    else if after.releases > before.releases then None
    else s.lock
  }

  function Step(s: Server, a: Action): Server
    requires May(s, a)
  {
    if a.Submit? then s.(operations := s.operations + [Fresh(a.given)])
    else
      var before := s.operations[a.op];
      var after := OpStep(before, a, s.lock.None?);
      Server(LockAfter(s, a, before, after), s.operations[a.op := after])
  }

  function Reached(actions: seq<Action>): Option<Server> {
    if actions == [] then Some(Server(None, []))
    else
      match Reached(actions[..|actions| - 1])
      case None => None
      case Some(s) => if May(s, actions[|actions| - 1]) then Some(Step(s, actions[|actions| - 1])) else None
  }

  // ---- What every step keeps ----------------------------------------------------------------

  predicate Holds(o: Operation) { o.acquired && o.releases == 0 }

  /** The release still to come: by the caller, by a callback waiting for the reap, or by one being called. */
  function Owed(o: Operation): nat {
    o.callbacks + o.calls + if o.acquired && o.caller != Gone then 1 else 0
  }

  predicate ArbitrationOk(o: Operation) {
    && !(o.cause.Some? && o.completed)
    && (o.late ==> !o.started && o.cause.Some?)
    && (!o.started ==> o.caller in {Queued, Gone} && !o.acquired && o.process == NoProcess && o.owner == NoOwner)
    && (o.caller == Queued ==> !o.started)
    && (o.completed ==> o.reaped)
  }

  /** Every acquisition has exactly one release, made or still owed, and none before the process is confirmed gone. */
  predicate ReleaseOk(o: Operation) {
    && (if o.acquired then o.releases + Owed(o) == 1 && o.caller !in {Queued, Begun}
        else o.releases + o.callbacks + o.calls == 0 && o.process == NoProcess && o.caller in {Queued, Begun, Gone})
    && (o.releases > 0 ==> Confirmed(o))
    && (o.callbacks > 0 ==> o.caller == Gone && !o.reaped && o.process != NoProcess)
    && (o.calls > 0 ==> o.caller == Gone && o.owner == RunningCallbacks)
    && (o.caller == CallingBack ==> o.reaped)
  }

  predicate ProcessOk(o: Operation) {
    && (o.reaped ==> o.process == Exited)
    && (o.reaped <==> o.owner in {RunningCallbacks, Retired})
    && (o.process == NoProcess ==>
          && o.owner == NoOwner && !o.attempted && !o.failed && !o.reaped
          && o.caller in {Queued, Begun, Admitted, Leaving(false), Gone})
    && (o.process != NoProcess ==> o.caller !in {Queued, Begun, Admitted})
    && (o.owner == NoOwner && o.process != NoProcess ==> o.caller == Working && !o.attempted)
    && (o.owner in {WatchingExit, StoppingProcess} ==> !o.attempted)
    && (o.owner in {Lingering, Abandoned} ==> o.failed)
    && (o.failed ==> o.attempted) && (o.attempted ==> o.failed || o.reaped)
    && (o.process != NoProcess && (o.caller.Leaving? || o.caller in {Deferring, CallingBack, Gone}) ==> o.attempted)
    && (o.process != NoProcess && o.caller.Leaving? ==> o.caller.cleanupFailed == o.failed)
  }

  predicate OpOk(o: Operation) { ArbitrationOk(o) && ReleaseOk(o) && ProcessOk(o) }

  ghost predicate Inv(s: Server) {
    && (forall i :: 0 <= i < |s.operations| ==> OpOk(s.operations[i]))
    && (s.lock.Some? ==> s.lock.value < |s.operations|)
    && forall i :: 0 <= i < |s.operations| ==> (Holds(s.operations[i]) <==> s.lock == Some(i))
  }

  lemma StepKeepsArbitration(o: Operation, a: Action, free: bool)
    requires OpOk(o) && OpMay(o, a, free)
    ensures ArbitrationOk(OpStep(o, a, free))
  {}

  lemma StepKeepsProcess(o: Operation, a: Action, free: bool)
    requires OpOk(o) && OpMay(o, a, free)
    ensures ProcessOk(OpStep(o, a, free))
  {}

  lemma StepKeepsRelease(o: Operation, a: Action, free: bool)
    requires OpOk(o) && OpMay(o, a, free)
    ensures ReleaseOk(OpStep(o, a, free))
  {}

  /** One step never changes a cause that is set, and a completed operation never gets one. */
  lemma CauseIsKept(o: Operation, a: Action, free: bool)
    requires OpOk(o) && OpMay(o, a, free)
    ensures o.cause.Some? ==> OpStep(o, a, free).cause == o.cause
    ensures o.completed ==> OpStep(o, a, free).completed && OpStep(o, a, free).cause.None?
    ensures OpStep(o, a, free).releases >= o.releases
    ensures OpStep(o, a, free).releases > o.releases ==> Confirmed(OpStep(o, a, free)) && Holds(o)
  {}

  lemma StepKeepsInv(s: Server, a: Action)
    requires Inv(s) && May(s, a)
    ensures Inv(Step(s, a))
  {
    hide Inv, Step, May;
    if a.Submit? { SubmitKeepsInv(s, a); } else { OperateKeepsInv(s, a); }
  }

  lemma SubmitKeepsInv(s: Server, a: Action)
    requires Inv(s) && a.Submit?
    ensures Inv(Step(s, a))
  {
    hide ArbitrationOk, ReleaseOk, ProcessOk, Holds, Fresh;
    FreshIsOk(a.given);
  }

  lemma OperateKeepsInv(s: Server, a: Action)
    requires Inv(s) && May(s, a) && !a.Submit?
    ensures Inv(Step(s, a))
  {
    hide OpStep, OpMay, ArbitrationOk, ReleaseOk, ProcessOk, Holds, Fresh;
    var before := s.operations[a.op];
    StepKeepsArbitration(before, a, s.lock.None?);
    StepKeepsProcess(before, a, s.lock.None?);
    StepKeepsRelease(before, a, s.lock.None?);
    HoldingFollowsLock(before, a, s.lock.None?);
  }

  lemma FreshIsOk(given: bool)
    ensures OpOk(Fresh(given)) && !Holds(Fresh(given))
  {}

  /** A step acquires only a free lock and releases only a held one. */
  lemma HoldingFollowsLock(o: Operation, a: Action, free: bool)
    requires OpOk(o) && OpMay(o, a, free)
    ensures var p := OpStep(o, a, free);
      && (p.acquired && !o.acquired ==> free && Holds(p))
      && (p.releases > o.releases ==> Holds(o) && !Holds(p) && p.acquired == o.acquired)
      && (p.acquired == o.acquired && p.releases <= o.releases ==> (Holds(p) <==> Holds(o)))
      && (o.acquired ==> p.acquired)
  {}

  lemma {:induction false} RunsKeepInv(actions: seq<Action>)
    requires Reached(actions).Some?
    ensures Inv(Reached(actions).value)
  {
    hide Inv, Step, May;
    if actions == [] {
      NothingSubmitted();
    } else {
      RunsKeepInv(actions[..|actions| - 1]);
      StepKeepsInv(Reached(actions[..|actions| - 1]).value, actions[|actions| - 1]);
    }
  }

  lemma NothingSubmitted()
    ensures Inv(Server(None, []))
  {}

  /**
   Over every interleaving: no operation both completes and has a cause, none cancelled before it began ever runs,
   its admission lock is released at most once and only when its process is confirmed gone.
   */
  lemma OwnershipHolds(actions: seq<Action>, i: nat)
    requires Reached(actions).Some? && i < |Reached(actions).value.operations|
    ensures var s := Reached(actions).value;
      var o := s.operations[i];
      && !(o.cause.Some? && o.completed)
      && (o.late ==> !o.started && !o.acquired && o.process == NoProcess)
      && o.releases <= 1 && (o.releases == 1 ==> Confirmed(o))
      && (o.process == Alive ==> s.lock == Some(i))
  {
    hide Reached;
    RunsKeepInv(actions);
    var o := Reached(actions).value.operations[i];
    assert OpOk(o);
  }

  /** At most one operation's worker is alive at a time. */
  lemma OneWorkerAtATime(actions: seq<Action>, i: nat, j: nat)
    requires Reached(actions).Some?
    requires i < |Reached(actions).value.operations| && j < |Reached(actions).value.operations|
    requires Reached(actions).value.operations[i].process == Alive && Reached(actions).value.operations[j].process == Alive
    ensures i == j
  {
    hide Reached;
    OwnershipHolds(actions, i);
    OwnershipHolds(actions, j);
  }

  /** When the calling thread and the process owner have both ended, the lock has been released exactly once. */
  lemma RetiredIsReleased(actions: seq<Action>, i: nat)
    requires Reached(actions).Some? && i < |Reached(actions).value.operations|
    requires var o := Reached(actions).value.operations[i];
      o.acquired && o.caller == Gone && (o.process == NoProcess || o.owner == Retired)
    ensures Reached(actions).value.operations[i].releases == 1
  {
    hide Reached;
    RunsKeepInv(actions);
    var o := Reached(actions).value.operations[i];
    assert OpOk(o);
  }

  /** What a cause or a completion leaves to happen afterwards. */
  predicate Settled(before: Operation, after: Operation) {
    && (before.cause.Some? ==> after.cause == before.cause && !after.completed)
    && (before.completed ==> after.completed && after.cause.None?)
    && after.releases >= before.releases
  }

  lemma StepSettles(s: Server, a: Action, i: nat)
    requires Inv(s) && May(s, a) && i < |s.operations|
    ensures i < |Step(s, a).operations| && Settled(s.operations[i], Step(s, a).operations[i])
  {
    hide OpStep, OpMay;
    StepKeepsInv(s, a);
    InvIsOk(s, i);
    InvIsOk(Step(s, a), i);
    if !a.Submit? && a.op == i { CauseIsKept(s.operations[i], a, s.lock.None?); }
  }

  /** Whatever happens after, the first cause of an operation stays and a completed operation never gets one. */
  lemma {:induction false} FirstCauseWins(actions: seq<Action>, more: seq<Action>, i: nat)
    requires Reached(actions + more).Some?
    requires Reached(actions).Some? ==> i < |Reached(actions).value.operations|
    ensures Reached(actions).Some? && i < |Reached(actions + more).value.operations|
    ensures Settled(Reached(actions).value.operations[i], Reached(actions + more).value.operations[i])
    decreases |more|
  {
    hide Inv, Step, May;
    if more == [] {
      assert actions + more == actions;
      RunsKeepInv(actions);
      InvIsOk(Reached(actions).value, i);
    } else {
      var n := |more| - 1;
      assert (actions + more)[..|actions + more| - 1] == actions + more[..n] && (actions + more)[|actions + more| - 1] == more[n];
      FirstCauseWins(actions, more[..n], i);
      RunsKeepInv(actions + more[..n]);
      StepSettles(Reached(actions + more[..n]).value, more[n], i);
    }
  }

  lemma InvIsOk(s: Server, i: nat)
    requires Inv(s) && i < |s.operations|
    ensures OpOk(s.operations[i]) && !(s.operations[i].cause.Some? && s.operations[i].completed)
  {}

  // ---- The control object -------------------------------------------------------------------

  /** Every registered callback is still waiting or has fired, once. */
  ghost predicate Accounted(registered: seq<nat>, callbacks: seq<nat>, fired: seq<nat>) {
    multiset(registered) == multiset(callbacks) + multiset(fired)
  }

  /** A new callback joins either those that wait or those that have fired. */
  lemma Joined(registered: seq<nat>, callbacks: seq<nat>, fired: seq<nat>, x: nat)
    requires Accounted(registered, callbacks, fired)
    ensures Accounted(registered + [x], callbacks + [x], fired) && Accounted(registered + [x], callbacks, fired + [x])
  {}

  lemma AllFired(registered: seq<nat>, callbacks: seq<nat>, fired: seq<nat>)
    requires Accounted(registered, callbacks, fired)
    ensures Accounted(registered, [], fired + callbacks)
  {}

  /** The part of an operation that its control stores. */
  datatype Control = Control(
    cause: Option<nat>, completed: bool, started: bool, stop: bool, owning: bool, reaped: bool, callbacks: nat)

  function ControlOf(o: Operation): Control {
    Control(o.cause, o.completed, o.started, o.stop, o.process != NoProcess, o.reaped, o.callbacks)
  }

  lemma DeferStep(o: Operation, free: bool)
    requires OpMay(o, Defer(0), free)
    ensures var k := ControlOf(o);
      ControlOf(OpStep(o, Defer(0), free)) == if k.owning && !k.reaped then k.(callbacks := k.callbacks + 1) else k
  {}

  lemma SpawnStep(o: Operation, ownerStarts: bool, free: bool)
    requires OpMay(o, Spawn(0, ownerStarts), free)
    ensures ControlOf(OpStep(o, Spawn(0, ownerStarts), free)) == ControlOf(o).(owning := true)
  {}

  lemma ReapingStep(o: Operation)
    ensures ControlOf(Reaping(o)) == ControlOf(o).(reaped := true, callbacks := 0)
  {}

  /**
   `_ExecutionControl`: each method body is one critical section; reap callbacks are kept until the process is gone.
   Each method takes the operation it belongs to and makes that operation's step.
   */
  class ExecutionControl {
    var cause: Option<nat>
    var completed: bool
    var started: bool
    var stop: bool
    var owning: bool
    var reaped: bool
    var callbacks: seq<nat>
    ghost var registered: seq<nat>
    ghost var fired: seq<nat>
    ghost var early: nat

    /**
     Every registered callback is still waiting or has fired, once. Those asked for before there was a process, `early`
     of them, fired at once; none fires while a process is owned and not confirmed gone.
     */
    ghost predicate Valid()
      reads this
    {
      && !(cause.Some? && completed)
      && Accounted(registered, callbacks, fired)
      && (owning && !reaped ==> |fired| == early)
      && (reaped ==> owning)
      && (callbacks != [] ==> owning && !reaped)
    }

    ghost predicate Models(o: Operation)
      reads this
    {
      ControlOf(o) == Control(cause, completed, started, stop, owning, reaped, |callbacks|)
    }

    constructor (given: bool)
      ensures Valid() && Models(Fresh(given)) && registered == []
    {
      cause, completed, started, stop, owning, reaped, callbacks := None, false, false, false, false, false, [];
      registered, fired, early := [], [], 0;
    }

    /** Admit the invocation unless cancellation already won. */
    method Begin(ghost o: Operation, ghost free: bool) returns (ok: bool)
      requires Valid() && Models(o) && OpMay(o, Action.Begin(0), free)
      modifies this`started
      ensures Valid() && ok == cause.None? && started == (old(started) || ok)
      ensures Models(OpStep(o, Action.Begin(0), free))
    {
      if cause.Some? { return false; }
      started := true;
      return true;
    }

    method Abort(error: nat, ghost o: Operation, ghost free: bool)
      requires Valid() && Models(o)
      modifies this`cause, this`stop
      ensures Valid() && Models(OpStep(o, Action.Abort(0, error), free))
      ensures cause == if !completed && old(cause).None? then Some(error) else old(cause)
      ensures stop == (old(stop) || (!completed && old(cause).None?))
    {
      if !completed && cause.None? {
        cause := Some(error);
        stop := true;
      }
    }

    /** Commit completion unless a cause has won; the cause is then what the caller raises. */
    method Complete(ghost o: Operation, ghost free: bool) returns (raised: Option<nat>)
      requires Valid() && Models(o) && OpMay(o, Action.Complete(0), free)
      modifies this`completed
      ensures Valid() && Models(OpStep(o, Action.Complete(0), free))
      ensures raised == cause && completed == (old(completed) || cause.None?)
    {
      if cause.Some? { return cause; }
      completed := true;
      return None;
    }

    /** Own a just-created process; a control owns at most one. */
    method Register(ghost o: Operation, ghost free: bool, ghost ownerStarts: bool) returns (ok: bool)
      requires Valid() && Models(o)
      modifies this`owning, this`early
      ensures Valid() && ok == !old(owning) && owning
      ensures ok && OpMay(o, Spawn(0, ownerStarts), free) ==> Models(OpStep(o, Spawn(0, ownerStarts), free))
    {
      hide OpMay, OpStep, Accounted, ControlOf;
      if owning { return false; }
      if OpMay(o, Spawn(0, ownerStarts), free) { SpawnStep(o, ownerStarts, free); }
      owning := true;
      early := |fired|;
      return true;
    }

    /** Keep the callback for the reap, or call it at once if nothing is left to wait for. */
    method WhenReaped(callback: nat, ghost o: Operation, ghost free: bool)
      requires Valid() && Models(o) && OpMay(o, Defer(0), free)
      modifies this`callbacks, this`registered, this`fired
      ensures Valid() && Models(OpStep(o, Defer(0), free)) && registered == old(registered) + [callback]
      ensures if owning && !reaped then callbacks == old(callbacks) + [callback] && fired == old(fired)
              else callbacks == old(callbacks) && fired == old(fired) + [callback]
    {
      hide OpMay, OpStep, Accounted, ControlOf;
      DeferStep(o, free);
      Joined(registered, callbacks, fired, callback);
      registered := registered + [callback];
      if owning && !reaped {
        callbacks := callbacks + [callback];
      } else {
        fired := fired + [callback];
      }
    }

    /** The process is gone: every waiting callback fires, in order, and a second reap fires nothing. */
    method MarkReaped(ghost o: Operation)
      requires Valid() && owning && Models(o)
      modifies this`reaped, this`callbacks, this`fired
      ensures Valid() && Models(Reaping(o))
      ensures reaped && callbacks == [] && fired == old(fired) + old(callbacks)
      ensures old(reaped) ==> fired == old(fired)
    {
      hide Accounted, Reaping, ControlOf;
      ReapingStep(o);
      AllFired(registered, callbacks, fired);
      reaped := true;
      var due := callbacks;
      callbacks := [];
      fired := fired + due;
    }
  }
}
