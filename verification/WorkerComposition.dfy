/**
 Worker and parent compose: along every run of the session's transition system the parent accepts every frame,
 no bounded queue overflows its control allowance, and every live event is accounted for.
 */
module WorkerComposition {
  import opened Options
  import opened JsonFrames
  import opened WorkerMessages
  import opened WorkerSystem

  // ---- Accepting a sequence of frames -------------------------------------------------------

  /** The parent's view once it has accepted all the frames, if it does. */
  function AcceptAll(x: Expectation, v: View, frames: seq<Frame>): Option<View>
    decreases frames
  {
    if frames == [] then Some(v)
    else if Accepts(x, v, frames[0]) then AcceptAll(x, After(x, v, frames[0].body), frames[1..])
    else None
  }

  lemma {:induction false} AcceptOneMore(x: Expectation, v: View, frames: seq<Frame>, f: Frame)
    requires AcceptAll(x, v, frames).Some? && Accepts(x, AcceptAll(x, v, frames).value, f)
    ensures AcceptAll(x, v, frames + [f]) == Some(After(x, AcceptAll(x, v, frames).value, f.body))
    decreases frames
  {
    hide Accepts, WorkerMessages.After;
    if frames == [] {
      assert ([] + [f])[1..] == [];
    } else {
      assert (frames + [f])[1..] == frames[1..] + [f];
      AcceptOneMore(x, WorkerMessages.After(x, v, frames[0].body), frames[1..], f);
    }
  }

  /** Accepting keeps the run and never loses a report. */
  lemma {:induction false} AcceptKeepsRun(x: Expectation, v: View, frames: seq<Frame>)
    requires AcceptAll(x, v, frames).Some?
    ensures var w := AcceptAll(x, v, frames).value;
      && w.run == v.run && w.incoming == v.incoming + |frames|
      && w.runs >= v.runs && (v.failed ==> w.failed)
      && (v.phase == Closed ==> frames == [])
      && (v.phase in {Ending, Closed} ==> w.phase in {Ending, Closed})
      && (frames != [] ==> w.phase != Startup)
      && (v.phase == Continuation ==> frames == [] || (w.failed && w.phase in {Ending, Closed} && frames[0].body.Failure?))
      && (forall i :: 0 <= i < |frames| ==> frames[i].run == v.run)
    decreases frames
  {
    if frames != [] {
      AcceptKeepsRun(x, WorkerMessages.After(x, v, frames[0].body), frames[1..]);
    }
  }

  // ---- Alignment: what is in flight will be accepted ----------------------------------------

  ghost predicate EmissionSeen(e: Emission, v: View) {
    && v.eventSequence <= e.events
    && e.liveDropped <= e.liveEmitted && v.liveReceived == e.liveEmitted - e.liveDropped
    && v.captureSequence <= e.lastSequence && v.arrivalOffset <= e.lastOffset
    && forall stage :: stage in v.gaps ==> stage in e.gaps && v.gaps[stage] == e.gaps[stage]
  }

  ghost predicate Fresh(v: View) {
    v.eventSequence == 0 && v.liveReceived == 0 && v.captureSequence == 0 && v.arrivalOffset == 0.0 && v.gaps == map[]
  }

  ghost predicate Introduced(w: Worker, v: View) { v.producer.Some? && v.producer.value.native == w.version }

  predicate RunsLeft(c: Session, count: nat) { c.maxRuns.None? || count < c.maxRuns.value }

  ghost predicate AwaitingMatches(c: Session, w: Worker, command: Option<bool>, v: View) {
    && Introduced(w, v) && v.runs == w.count
    && match command
       case None => v.phase == Continuation && v.run == w.run
       case Some(on) =>
         if on then v.phase == Running && v.run == w.run + 1 && Fresh(v) && RunsLeft(c, w.count)
         else v.phase == Ending && v.run == w.run
  }

  /** The parent's view, once everything in flight has arrived, against the worker's own position. */
  ghost predicate Matches(c: Session, w: Worker, command: Option<bool>, v: View) {
    && v.incoming == w.sent && v.failed == w.failed
    && match w.pc
       case Starting => v == Opening && command.None?
       case Executing =>
         v.phase == Running && v.run == w.run && v.runs == w.count && Introduced(w, v) && EmissionSeen(w.emission, v) && command.None?
       case Awaiting => AwaitingMatches(c, w, command, v)
       case Failing =>
         && v.run == w.run && v.runs == w.count
         && if w.interrupted then v.phase in {Continuation, Ending} else v.phase in {Startup, Running}
       case Finishing => v.run == w.run && v.runs == w.count && v.phase == Ending
       case Done => v.run == w.run && v.runs == w.count && v.phase == Closed
  }

  function InFlight(s: System): seq<Frame> { s.pipe + s.outgoing }

  ghost predicate Aligned(c: Session, s: System) {
    && AcceptAll(c.x, s.view, InFlight(s)).Some?
    && Matches(c, s.worker, s.command, AcceptAll(c.x, s.view, InFlight(s)).value)
  }

  /** The worker gave up waiting for a command after, or before, the parent authorised the next run. */
  predicate Crossed(s: System) { s.worker.interrupted && s.view.run == s.worker.run + 1 }

  /** Where the worker stands, by itself. */
  ghost predicate WorkerOk(c: Session, w: Worker) {
    && w.run >= 1 && (!c.x.server ==> w.run == 1)
    && (w.failed ==> w.pc in {Finishing, Done})
    && (w.interrupted ==> c.x.server && w.pc in {Failing, Finishing, Done} && w.count == w.run && (w.pc != Failing ==> w.failed))
    && (w.pc == Starting ==> w.run == 1 && w.sent == 0 && w.version == [] && w.emission == Silence)
    && match w.pc
       case Starting => w.count == w.run - 1
       case Executing => w.count == w.run - 1
       case Awaiting => c.x.server && w.count == w.run
       case Failing => w.interrupted || w.count == w.run - 1
       case _ => if w.failed && !w.interrupted then w.count == w.run - 1 else w.count == w.run
  }

  /** One report per finished run. */
  ghost predicate ViewOk(v: View) {
    && v.run >= 1
    && (v.phase in {Startup, Running} ==> v.runs == v.run - 1 && !v.failed)
    && (v.phase == Continuation ==> v.runs == v.run && !v.failed)
  }

  ghost predicate Ordered(c: Session, s: System) {
    && WorkerOk(c, s.worker) && ViewOk(s.view)
    && (forall i :: 0 <= i < |InFlight(s)| ==> InFlight(s)[i].run == s.worker.run)
    && s.worker.run <= s.view.run <= s.worker.run + 1
    && (!s.worker.interrupted ==> s.parent == Watching)
    && (s.parent == Watching && !Crossed(s) ==> Aligned(c, s))
    && (s.parent == Broken ==> Crossed(s))
    && (Crossed(s) ==> s.view.phase == Running)
    && (s.command == Some(true) ==> s.view.run == s.worker.run + 1 && s.view.phase == Running)
    && (s.command == Some(false) ==> s.view.phase in {Ending, Closed})
  }

  lemma InitialIsOrdered(c: Session)
    ensures Ordered(c, Initial())
  {}

  // ---- Worker actions keep alignment --------------------------------------------------------

  function NextFrame(c: Session, w: Worker, b: Body, wire: nat): Frame { Frame(c.x.identity, w.sent + 1, w.run, b, wire) }

  /** A frame the settled view would accept may be sent. */
  lemma SendKeepsOrder(c: Session, s: System, b: Body, wire: nat, v: View, t: System)
    requires AcceptAll(c.x, s.view, InFlight(s)) == Some(v)
    requires v.incoming == s.worker.sent && v.run == s.worker.run && v.phase != Closed && BodyOk(c.x, v, b)
    requires t.outgoing == s.outgoing + [NextFrame(c, s.worker, b, wire)] && t.pipe == s.pipe && t.view == s.view
    requires t.worker.run == s.worker.run
    requires forall i :: 0 <= i < |InFlight(s)| ==> InFlight(s)[i].run == s.worker.run
    ensures AcceptAll(c.x, t.view, InFlight(t)) == Some(WorkerMessages.After(c.x, v, b))
    ensures forall i :: 0 <= i < |InFlight(t)| ==> InFlight(t)[i].run == t.worker.run
  {
    hide AcceptAll, BodyOk, WorkerMessages.After;
    var f := NextFrame(c, s.worker, b, wire);
    assert InFlight(t) == InFlight(s) + [f];
    AcceptOneMore(c.x, s.view, InFlight(s), f);
  }

  /** What a conforming capture offers, the settled view accepts; and it keeps counting alike. */
  lemma OfferIsAccepted(c: Session, e: Emission, b: Body, v: View)
    requires MayEmit(c.x.live, e, b) && EmissionSeen(e, v) && v.phase == Running
    ensures BodyOk(c.x, v, b)
    ensures EmissionSeen(Offered(e, b, true), WorkerMessages.After(c.x, v, b))
    ensures EmissionSeen(Offered(e, b, false), v)
  {}

  lemma OfferKeepsView(c: Session, v: View, b: Body)
    requires IsEventBody(b)
    ensures var u := WorkerMessages.After(c.x, v, b);
      u.phase == v.phase && u.run == v.run && u.runs == v.runs && u.producer == v.producer && u.failed == v.failed
      && u.incoming == v.incoming + 1
  {}

  lemma OffersAreEvents(live: bool, e: Emission, b: Body)
    requires MayEmit(live, e, b)
    ensures IsEventBody(b)
  {}

  lemma AttemptKeepsOrder(c: Session, s: System, b: Body, wire: nat)
    requires Ordered(c, s) && s.worker.pc == Executing && MayEmit(c.x.live, s.worker.emission, b)
    ensures Ordered(c, Offer(c, s, b, wire))
  {
    hide AcceptAll, MayEmit, Offered, BodyOk, EventFits, WorkerMessages.After;
    var t := Offer(c, s, b, wire);
    var v := AcceptAll(c.x, s.view, InFlight(s)).value;
    OfferIsAccepted(c, s.worker.emission, b, v);
    OffersAreEvents(c.x.live, s.worker.emission, b);
    OfferKeepsView(c, v, b);
    if EventFits(s.outgoing, wire) {
      SendKeepsOrder(c, s, b, wire, v, t);
    }
  }

  lemma ReportIsAccepted(c: Session, version: Text, e: Emission, b: Body, v: View)
    requires ReportCloses(c.x.live, version, e, b) && EmissionSeen(e, v) && v.phase == Running
    requires v.producer.Some? && v.producer.value.native == version
    ensures BodyOk(c.x, v, b)
  {
    hide ReceiptOk;
  }

  predicate IsControlSend(a: Action) { a.SendReady? || a.SendReport? || a.SendFailure? || a.SendTerminal? }

  function ControlWire(a: Action): nat
    requires IsControlSend(a)
  {
    match a
    case SendReady(_, wire) => wire
    case SendReport(_, wire) => wire
    case SendFailure(_, _, wire) => wire
    case SendTerminal(wire) => wire
  }

  lemma ReadyKeepsOrder(c: Session, s: System, a: Action)
    requires Ordered(c, s) && a.SendReady? && WorkerMay(c, s.worker, s.command, a) && ControlFits(s.outgoing, a.wire)
    ensures Ordered(c, WorkerStep(c, s, a))
  {
    hide AcceptAll, ControlFits;
    var v := AcceptAll(c.x, s.view, InFlight(s)).value;
    var b := Ready(c.x.pid, a.producer);
    SendKeepsOrder(c, s, b, a.wire, v, WorkerStep(c, s, a));
  }

  lemma ReportKeepsOrder(c: Session, s: System, a: Action)
    requires Ordered(c, s) && a.SendReport? && WorkerMay(c, s.worker, s.command, a) && ControlFits(s.outgoing, a.wire)
    ensures Ordered(c, WorkerStep(c, s, a))
  {
    hide AcceptAll, ControlFits, ReportOk, EmissionSeen, ReceiptCloses;
    var v := AcceptAll(c.x, s.view, InFlight(s)).value;
    ReportIsAccepted(c, s.worker.version, s.worker.emission, a.body, v);
    SendKeepsOrder(c, s, a.body, a.wire, v, WorkerStep(c, s, a));
  }

  lemma FailureKeepsOrder(c: Session, s: System, a: Action)
    requires Ordered(c, s) && a.SendFailure? && WorkerMay(c, s.worker, s.command, a) && ControlFits(s.outgoing, a.wire)
    ensures Ordered(c, WorkerStep(c, s, a))
  {
    hide AcceptAll, ControlFits;
    var t := WorkerStep(c, s, a);
    var b := Failure(a.className, a.message);
    assert InFlight(t) == InFlight(s) + [NextFrame(c, s.worker, b, a.wire)];
    if s.parent == Watching && !Crossed(s) {
      var v := AcceptAll(c.x, s.view, InFlight(s)).value;
      SendKeepsOrder(c, s, b, a.wire, v, t);
    }
  }

  lemma TerminalKeepsOrder(c: Session, s: System, a: Action)
    requires Ordered(c, s) && a.SendTerminal? && WorkerMay(c, s.worker, s.command, a) && ControlFits(s.outgoing, a.wire)
    ensures Ordered(c, WorkerStep(c, s, a))
  {
    hide AcceptAll, ControlFits;
    var t := WorkerStep(c, s, a);
    var b := Terminal(s.worker.failed, s.worker.count);
    assert InFlight(t) == InFlight(s) + [NextFrame(c, s.worker, b, a.wire)];
    if s.parent == Watching && !Crossed(s) {
      var v := AcceptAll(c.x, s.view, InFlight(s)).value;
      SendKeepsOrder(c, s, b, a.wire, v, t);
    }
  }

  /** The worker's other actions send nothing. */
  predicate IsQuiet(a: Action) { a.Fail? || a.Interrupt? || a.Receive? || a.Vanish? }

  lemma FailKeepsOrder(c: Session, s: System)
    requires Ordered(c, s) && WorkerMay(c, s.worker, s.command, Fail)
    ensures Ordered(c, WorkerStep(c, s, Fail))
  {
    hide AcceptAll;
    assert InFlight(WorkerStep(c, s, Fail)) == InFlight(s);
  }

  lemma InterruptKeepsOrder(c: Session, s: System)
    requires Ordered(c, s) && WorkerMay(c, s.worker, s.command, Interrupt)
    ensures Ordered(c, WorkerStep(c, s, Interrupt))
  {
    hide AcceptAll;
    assert InFlight(WorkerStep(c, s, Interrupt)) == InFlight(s);
    AcceptKeepsRun(c.x, s.view, InFlight(s));
  }

  lemma VanishKeepsOrder(c: Session, s: System)
    requires Ordered(c, s) && s.worker.alive
    ensures Ordered(c, WorkerStep(c, s, Vanish))
  {
    hide AcceptAll;
    assert InFlight(WorkerStep(c, s, Vanish)) == InFlight(s);
  }

  /** Taking a command: nothing is in flight, so the run may change. */
  lemma ReceiveKeepsOrder(c: Session, s: System)
    requires Ordered(c, s) && WorkerMay(c, s.worker, s.command, Receive)
    ensures Ordered(c, WorkerStep(c, s, Receive))
  {
    hide AcceptAll;
    assert InFlight(WorkerStep(c, s, Receive)) == InFlight(s);
    AcceptKeepsRun(c.x, s.view, InFlight(s));
    OneRunOnly(InFlight(s), s.view.run, s.worker.run);
  }

  lemma OneRunOnly(q: seq<Frame>, a: int, b: int)
    requires forall i :: 0 <= i < |q| ==> q[i].run == a
    requires forall i :: 0 <= i < |q| ==> q[i].run == b
    ensures q != [] ==> a == b
  {
    if q != [] { assert q[0].run == a; }
  }

  lemma QuietKeepsOrder(c: Session, s: System, a: Action)
    requires Ordered(c, s) && IsQuiet(a) && WorkerMay(c, s.worker, s.command, a)
    ensures Ordered(c, WorkerStep(c, s, a))
  {
    hide Ordered;
    match a
    case Fail => FailKeepsOrder(c, s);
    case Interrupt => InterruptKeepsOrder(c, s);
    case Receive => ReceiveKeepsOrder(c, s);
    case Vanish => VanishKeepsOrder(c, s);
  }

  lemma WriteKeepsOrder(c: Session, s: System)
    requires Ordered(c, s) && s.outgoing != []
    ensures Ordered(c, Step(c, s, Write))
  {
    hide AcceptAll;
    var t := Step(c, s, Write);
    assert InFlight(t) == InFlight(s);
  }

  // ---- Parent actions keep alignment --------------------------------------------------------

  lemma AcceptedKeepsView(c: Session, s: System)
    requires Ordered(c, s) && s.pipe != [] && s.parent == Watching && Accepts(c.x, s.view, s.pipe[0])
    ensures ViewOk(WorkerMessages.After(c.x, s.view, s.pipe[0].body))
    ensures WorkerMessages.After(c.x, s.view, s.pipe[0].body).run == s.view.run
  {
    hide AcceptAll;
  }

  /** In a session that has not crossed, the frame at the head of the pipe is accepted. */
  lemma HeadIsAccepted(c: Session, s: System)
    requires Ordered(c, s) && s.pipe != [] && s.parent == Watching && !Crossed(s)
    ensures Accepts(c.x, s.view, s.pipe[0])
    ensures AcceptAll(c.x, WorkerMessages.After(c.x, s.view, s.pipe[0].body), s.pipe[1..] + s.outgoing)
      == AcceptAll(c.x, s.view, InFlight(s))
  {
    assert InFlight(s)[0] == s.pipe[0] && InFlight(s)[1..] == s.pipe[1..] + s.outgoing;
  }

  /** Once crossed, the next frame is refused: it names a run the parent has already left. */
  lemma CrossedIsRefused(c: Session, s: System)
    requires Ordered(c, s) && s.pipe != [] && Crossed(s)
    ensures !Accepts(c.x, s.view, s.pipe[0])
    ensures s.parent == Watching ==> ReadStep(c, s).parent == Broken
  {
    hide AcceptAll;
    assert InFlight(s)[0] == s.pipe[0];
  }

  lemma ReadKeepsOrder(c: Session, s: System)
    requires Ordered(c, s) && s.pipe != [] && s.parent == Watching
    requires !IsEventBody(s.pipe[0].body) ==> ControlFits(Frames(s.inbox), s.pipe[0].wire)
    ensures Ordered(c, ReadStep(c, s))
  {
    hide AcceptAll, ControlFits, EventFits, Frames;
    var t := ReadStep(c, s);
    assert InFlight(t) == InFlight(s)[1..];
    assert InFlight(s)[0] == s.pipe[0];
    if Crossed(s) {
      CrossedIsRefused(c, s);
    } else {
      HeadIsAccepted(c, s);
      AcceptedKeepsView(c, s);
    }
  }

  /** Authorising is harmless when the worker still waits; declining is harmless in any case. */
  lemma AuthoriseKeepsOrder(c: Session, s: System, on: bool, t: System)
    requires Ordered(c, s) && s.parent == Watching && s.view.phase == Continuation && s.command.None?
    requires on ==> RunsLeft(c, s.worker.count)
    requires t.view == Authorised(s.view, on) && t.command == Some(on) && t.worker == s.worker && t.parent == s.parent
    requires t.pipe == s.pipe && t.outgoing == s.outgoing
    ensures Ordered(c, t)
  {
    hide AcceptAll;
    AcceptKeepsRun(c.x, s.view, InFlight(s)) by {
      assert !Crossed(s);
    }
    assert InFlight(t) == InFlight(s);
    if InFlight(s) == [] {
      NothingToAccept(c.x, s.view);
      NothingToAccept(c.x, t.view);
    } else if on {
      assert s.worker.interrupted;
    } else {
      DeclineIsHarmless(c.x, s.view, InFlight(s));
    }
  }

  lemma NothingToAccept(x: Expectation, v: View)
    ensures AcceptAll(x, v, []) == Some(v)
  {}

  /** A failure in flight is accepted with or without the declined continuation. */
  lemma DeclineIsHarmless(x: Expectation, v: View, frames: seq<Frame>)
    requires v.phase == Continuation && frames != [] && AcceptAll(x, v, frames).Some?
    ensures AcceptAll(x, Authorised(v, false), frames) == AcceptAll(x, v, frames)
  {
    AcceptKeepsRun(x, v, frames);
    var u := Authorised(v, false);
    assert WorkerMessages.After(x, u, frames[0].body) == WorkerMessages.After(x, v, frames[0].body);
  }

  // ---- Control frames between worker and consumer -------------------------------------------

  datatype Kind = ReadyKind | ReportKind | FailureKind | TerminalKind | EventKind

  function KindOf(b: Body): Kind {
    match b
    case Ready(_, _) => ReadyKind
    case Report(_, _, _, _, _, _, _, _, _, _) => ReportKind
    case Failure(_, _) => FailureKind
    case Terminal(_, _) => TerminalKind
    case _ => EventKind
  }

  /** The most bytes a conforming control frame of a kind takes. */
  function KindWire(k: Kind): nat {
    match k
    case ReadyKind => MAX_FRAME_BYTES + HEADER_BYTES
    case ReportKind => MAX_FRAME_BYTES + HEADER_BYTES
    case FailureKind => MAX_FAILURE_WIRE
    case TerminalKind => MAX_TERMINAL_WIRE
    case EventKind => 0
  }

  function Count(q: seq<Frame>, k: Kind): nat {
    if q == [] then 0 else Count(q[..|q| - 1], k) + if KindOf(q[|q| - 1].body) == k then 1 else 0
  }

  predicate FrameSized(f: Frame) { IsEventBody(f.body) || f.wire <= KindWire(KindOf(f.body)) }

  predicate Sized(q: seq<Frame>) { forall i :: 0 <= i < |q| ==> FrameSized(q[i]) }

  lemma {:induction false} CountConcat(a: seq<Frame>, b: seq<Frame>, k: Kind)
    ensures Count(a + b, k) == Count(a, k) + Count(b, k)
  {
    if b == [] {
      assert a + b == a;
    } else {
      assert (a + b)[..|a + b| - 1] == a + b[..|b| - 1];
      CountConcat(a, b[..|b| - 1], k);
    }
  }

  lemma CountOne(f: Frame, k: Kind)
    ensures Count([f], k) == if KindOf(f.body) == k then 1 else 0
  {
    assert [f][..0] == [];
  }

  function WireBound(ready: nat, report: nat, failure: nat, terminal: nat): nat {
    (ready + report) * (MAX_FRAME_BYTES + HEADER_BYTES) + failure * MAX_FAILURE_WIRE + terminal * MAX_TERMINAL_WIRE
  }

  function BoundOf(q: seq<Frame>): nat {
    WireBound(Count(q, ReadyKind), Count(q, ReportKind), Count(q, FailureKind), Count(q, TerminalKind))
  }

  lemma {:induction false} ControlsCounted(q: seq<Frame>)
    ensures ControlCount(q) == Count(q, ReadyKind) + Count(q, ReportKind) + Count(q, FailureKind) + Count(q, TerminalKind)
  {
    if q != [] { ControlsCounted(q[..|q| - 1]); }
  }

  lemma BoundGrows(q: seq<Frame>)
    requires q != []
    ensures BoundOf(q) == BoundOf(q[..|q| - 1]) + KindWire(KindOf(q[|q| - 1].body))
  {}

  /** Control bytes of a queue are bounded kind by kind. */
  lemma {:induction false} ControlsWeighed(q: seq<Frame>)
    requires Sized(q)
    ensures ControlBytes(q) <= BoundOf(q)
  {
    hide BoundOf, KindWire;
    if q == [] {
    } else {
      assert FrameSized(q[|q| - 1]);
      BoundGrows(q);
      ControlsWeighed(q[..|q| - 1]);
    }
  }

  /** Everything sent and not yet consumed, oldest first. */
  function Pipeline(s: System): seq<Frame> { Frames(s.inbox) + s.pipe + s.outgoing }

  /** A report may be on its way only until its run is answered. */
  predicate ReportAllowed(c: Session, s: System) {
    && s.worker.pc !in {Starting, Executing}
    && s.command.None? && s.worker.count == s.worker.run
    && (s.worker.pc == Awaiting || s.worker.interrupted || !c.x.server)
  }

  /** At most one control frame of each kind is on its way, whatever the interleaving. */
  ghost predicate Sparse(c: Session, s: System) {
    && Sized(Pipeline(s)) && !s.overflow
    && Count(Pipeline(s), ReadyKind) <= (if s.worker.pc == Starting then 0 else 1)
    && Count(Pipeline(s), ReportKind) <= (if ReportAllowed(c, s) then 1 else 0)
    && Count(Pipeline(s), FailureKind) <= (if s.worker.failed then 1 else 0)
    && Count(Pipeline(s), TerminalKind) <= (if s.worker.pc == Done then 1 else 0)
  }

  lemma InitialIsSparse(c: Session)
    ensures Sparse(c, Initial())
  {
    assert Pipeline(Initial()) == [];
  }

  lemma {:induction false} CountIsMonotone(a: seq<Frame>, b: seq<Frame>, c: seq<Frame>, k: Kind)
    ensures Count(b, k) <= Count(a + b + c, k)
  {
    CountConcat(a, b, k);
    CountConcat(a + b, c, k);
  }

  /** One more control frame fits wherever no frame of its kind is on its way yet. */
  lemma OneMoreFits(q: seq<Frame>, f: Frame)
    requires Sized(q) && FrameSized(f) && !IsEventBody(f.body)
    requires Count(q, KindOf(f.body)) == 0
    requires Count(q, ReadyKind) <= 1 && Count(q, ReportKind) <= 1 && Count(q, FailureKind) <= 1 && Count(q, TerminalKind) <= 1
    ensures ControlFits(q, f.wire)
  {
    ControlsCounted(q);
    ControlsWeighed(q);
  }

  lemma OutgoingFits(c: Session, s: System, f: Frame)
    requires Sparse(c, s) && FrameSized(f) && !IsEventBody(f.body) && Count(Pipeline(s), KindOf(f.body)) == 0
    ensures ControlFits(s.outgoing, f.wire)
  {
    hide ControlFits;
    var front := Frames(s.inbox) + s.pipe;
    assert Pipeline(s) == front + s.outgoing + [];
    CountIsMonotone(front, s.outgoing, [], ReadyKind);
    CountIsMonotone(front, s.outgoing, [], ReportKind);
    CountIsMonotone(front, s.outgoing, [], FailureKind);
    CountIsMonotone(front, s.outgoing, [], TerminalKind);
    forall i | 0 <= i < |s.outgoing| ensures FrameSized(s.outgoing[i]) {
      assert Pipeline(s)[|front| + i] == s.outgoing[i];
    }
    OneMoreFits(s.outgoing, f);
  }

  /** A conforming worker's control frames always fit its own queue. */
  lemma WorkerNeverOverflows(c: Session, s: System, a: Action)
    requires Ordered(c, s) && Sparse(c, s) && IsControlSend(a) && WorkerMay(c, s.worker, s.command, a)
    ensures ControlFits(s.outgoing, ControlWire(a))
  {
    hide AcceptAll, Aligned, ReportCloses, ProducerOk;
    match a
    case SendReady(p, wire) => OutgoingFits(c, s, NextFrame(c, s.worker, Ready(c.x.pid, p), wire));
    case SendReport(b, wire) =>
      ReportsAreReports(c.x.live, s.worker.version, s.worker.emission, b);
      OutgoingFits(c, s, NextFrame(c, s.worker, b, wire));
    case SendFailure(n, m, wire) => OutgoingFits(c, s, NextFrame(c, s.worker, Failure(n, m), wire));
    case SendTerminal(wire) => OutgoingFits(c, s, NextFrame(c, s.worker, Terminal(s.worker.failed, s.worker.count), wire));
  }

  lemma ReportsAreReports(live: bool, version: Text, e: Emission, b: Body)
    requires ReportCloses(live, version, e, b)
    ensures b.Report?
  {}

  /** Nor do they ever exceed the parent's inbox, however far the consumer lags. */
  lemma InboxNeverOverflows(c: Session, s: System)
    requires Sparse(c, s) && s.pipe != [] && !IsEventBody(s.pipe[0].body)
    ensures ControlFits(Frames(s.inbox), s.pipe[0].wire)
  {
    hide ControlFits;
    var q, f := Frames(s.inbox), s.pipe[0];
    var rest := s.pipe[1..] + s.outgoing;
    assert Pipeline(s) == [] + (q + [f]) + rest;
    assert Pipeline(s)[|q|] == f;
    forall i | 0 <= i < |q| ensures FrameSized(q[i]) { assert Pipeline(s)[i] == q[i]; }
    CountIsMonotone([], q + [f], rest, ReadyKind);
    CountIsMonotone([], q + [f], rest, ReportKind);
    CountIsMonotone([], q + [f], rest, FailureKind);
    CountIsMonotone([], q + [f], rest, TerminalKind);
    CountConcat(q, [f], ReadyKind);
    CountConcat(q, [f], ReportKind);
    CountConcat(q, [f], FailureKind);
    CountConcat(q, [f], TerminalKind);
    CountOne(f, KindOf(f.body));
    OneMoreFits(q, f);
  }

  // ---- Every action keeps the pipeline sparse -----------------------------------------------

  lemma AppendKeepsSparse(c: Session, s: System, b: Body, wire: nat, t: System)
    requires Sparse(c, s) && FrameSized(NextFrame(c, s.worker, b, wire))
    requires t.inbox == s.inbox && t.pipe == s.pipe && t.outgoing == s.outgoing + [NextFrame(c, s.worker, b, wire)]
    ensures Sized(Pipeline(t))
    ensures forall k :: Count(Pipeline(t), k) == Count(Pipeline(s), k) + if KindOf(b) == k then 1 else 0
  {
    var f := NextFrame(c, s.worker, b, wire);
    assert Pipeline(t) == Pipeline(s) + [f];
    forall k ensures Count(Pipeline(t), k) == Count(Pipeline(s), k) + if KindOf(b) == k then 1 else 0 {
      CountConcat(Pipeline(s), [f], k);
      CountOne(f, k);
    }
  }

  lemma SendKeepsSparse(c: Session, s: System, a: Action)
    requires Ordered(c, s) && Sparse(c, s) && IsControlSend(a) && WorkerMay(c, s.worker, s.command, a)
    requires ControlFits(s.outgoing, ControlWire(a))
    ensures Sparse(c, WorkerStep(c, s, a))
  {
    hide AcceptAll, Aligned, ReportCloses, ProducerOk, ControlFits, Count, Pipeline, Sized;
    var t := WorkerStep(c, s, a);
    match a
    case SendReady(p, wire) => AppendKeepsSparse(c, s, Ready(c.x.pid, p), wire, t);
    case SendReport(b, wire) =>
      ReportsAreReports(c.x.live, s.worker.version, s.worker.emission, b);
      AwaitingHasNoCommand(c, s);
      AppendKeepsSparse(c, s, b, wire, t);
    case SendFailure(n, m, wire) => AppendKeepsSparse(c, s, Failure(n, m), wire, t);
    case SendTerminal(wire) => AppendKeepsSparse(c, s, Terminal(s.worker.failed, s.worker.count), wire, t);
  }

  lemma AwaitingHasNoCommand(c: Session, s: System)
    requires Ordered(c, s) && s.worker.pc == Executing
    ensures s.command.None?
  {
    hide AcceptAll;
  }

  lemma AttemptKeepsSparse(c: Session, s: System, b: Body, wire: nat)
    requires Sparse(c, s) && s.worker.pc == Executing && IsEventBody(b)
    ensures Sparse(c, Offer(c, s, b, wire))
  {
    hide Count, Pipeline, Sized, Offered, EventFits;
    var t := Offer(c, s, b, wire);
    if EventFits(s.outgoing, wire) {
      AppendKeepsSparse(c, s, b, wire, t);
    } else {
      SamePipeline(s, t);
    }
  }

  lemma SamePipeline(s: System, t: System)
    requires t.inbox == s.inbox && t.pipe + t.outgoing == s.pipe + s.outgoing
    ensures Pipeline(t) == Pipeline(s)
  {
    assert Pipeline(s) == Frames(s.inbox) + (s.pipe + s.outgoing);
    assert Pipeline(t) == Frames(t.inbox) + (t.pipe + t.outgoing);
  }

  lemma QuietKeepsSparse(c: Session, s: System, a: Action)
    requires Ordered(c, s) && Sparse(c, s) && IsQuiet(a) && WorkerMay(c, s.worker, s.command, a)
    ensures Sparse(c, WorkerStep(c, s, a))
  {
    hide AcceptAll, Aligned, Count, Pipeline, Sized;
    SamePipeline(s, WorkerStep(c, s, a));
  }

  lemma WriteKeepsSparse(c: Session, s: System)
    requires Sparse(c, s) && s.outgoing != []
    ensures Sparse(c, Step(c, s, Write))
  {
    hide Count, Pipeline, Sized;
    var t := Step(c, s, Write);
    assert t.pipe + t.outgoing == s.pipe + s.outgoing;
    SamePipeline(s, t);
  }

  /** Reading either moves the head into the inbox or, for an event alone, drops it. */
  lemma ReadPipeline(c: Session, s: System)
    requires s.pipe != []
    ensures var t := ReadStep(c, s);
      if t.inbox == s.inbox then Pipeline(t) == Frames(s.inbox) + (s.pipe[1..] + s.outgoing) else Pipeline(t) == Pipeline(s)
    ensures Pipeline(s) == Frames(s.inbox) + [s.pipe[0]] + (s.pipe[1..] + s.outgoing)
  {
    hide Accepts, WorkerMessages.After, EventFits, ControlFits;
    var t := ReadStep(c, s);
    assert Pipeline(s) == Frames(s.inbox) + [s.pipe[0]] + (s.pipe[1..] + s.outgoing);
    if t.inbox != s.inbox {
      assert Frames(t.inbox) == Frames(s.inbox) + [s.pipe[0]];
      assert Pipeline(t) == Pipeline(s);
    }
  }

  lemma RemovalKeepsCounts(a: seq<Frame>, f: Frame, b: seq<Frame>)
    requires Sized(a + [f] + b)
    ensures Sized(a + b)
    ensures forall k :: Count(a + b, k) <= Count(a + [f] + b, k) - if KindOf(f.body) == k then 1 else 0
  {
    forall i | 0 <= i < |a + b| ensures FrameSized((a + b)[i]) {
      var j := if i < |a| then i else i + 1;
      assert (a + [f] + b)[j] == (a + b)[i];
    }
    forall k ensures Count(a + b, k) <= Count(a + [f] + b, k) - if KindOf(f.body) == k then 1 else 0 {
      CountConcat(a, b, k);
      CountConcat(a + [f], b, k);
      CountConcat(a, [f], k);
      CountOne(f, k);
    }
  }

  lemma ReadKeepsSparse(c: Session, s: System)
    requires Sparse(c, s) && s.pipe != []
    requires !IsEventBody(s.pipe[0].body) ==> ControlFits(Frames(s.inbox), s.pipe[0].wire)
    ensures Sparse(c, ReadStep(c, s))
  {
    ReadPipeline(c, s);
    hide Count, Pipeline, Sized, Accepts, WorkerMessages.After, EventFits, ControlFits, Frames;
    var t := ReadStep(c, s);
    if t.inbox == s.inbox {
      RemovalKeepsCounts(Frames(s.inbox), s.pipe[0], s.pipe[1..] + s.outgoing);
    }
  }

  lemma ConsumePipeline(s: System)
    requires s.inbox != []
    ensures Pipeline(s) == [] + [s.inbox[0].frame] + (Frames(s.inbox[1..]) + s.pipe + s.outgoing)
  {
    assert Frames(s.inbox) == [s.inbox[0].frame] + Frames(s.inbox[1..]);
  }

  lemma ConsumeKeepsSparse(c: Session, s: System, projected: bool, fails: Option<nat>, keep: bool)
    requires Sparse(c, s) && s.inbox != []
    ensures Sparse(c, ConsumeStep(c, s, projected, fails, keep))
  {
    hide Count, Sized, Frames;
    var t := ConsumeStep(c, s, projected, fails, keep);
    ConsumePipeline(s);
    var rest := Frames(s.inbox[1..]) + s.pipe + s.outgoing;
    RemovalKeepsCounts([], s.inbox[0].frame, rest);
    assert [] + rest == rest && Pipeline(t) == rest;
  }

  // ---- Every live event is accounted for ----------------------------------------------------

  function LiveCount(inbox: seq<Item>): nat {
    if inbox == [] then 0 else LiveCount(inbox[1..]) + if inbox[0].frame.body.Live? then 1 else 0
  }

  function ReportCount(inbox: seq<Item>): nat {
    if inbox == [] then 0 else ReportCount(inbox[1..]) + if inbox[0].frame.body.Report? then 1 else 0
  }

  lemma {:induction false} LiveConcat(a: seq<Item>, b: seq<Item>)
    ensures LiveCount(a + b) == LiveCount(a) + LiveCount(b) && ReportCount(a + b) == ReportCount(a) + ReportCount(b)
  {
    if a == [] {
      assert a + b == b;
    } else {
      assert (a + b)[1..] == a[1..] + b;
      LiveConcat(a[1..], b);
    }
  }

  lemma ItemCounts(item: Item)
    ensures LiveCount([item]) == if item.frame.body.Live? then 1 else 0
    ensures ReportCount([item]) == if item.frame.body.Report? then 1 else 0
  {
    assert [item][1..] == [];
  }

  /** Live events of the current run that reached the consumer. */
  function Reached(k: Consumer): nat { k.handed + k.unprojected + k.skipped }

  /** Every loss of the run, announced in order. */
  function AllAnnounced(a: Account): seq<Announcement> {
    Announcements(a.sequence, Losses(a.receipt, a.parentDropped, a.unprojected))
  }

  ghost predicate AccountOk(a: Account) {
    && a.receipt.liveEmitted == a.receipt.liveDropped + a.parentDropped + a.unprojected + a.handed + a.skipped
    && a.announced <= AllAnnounced(a)
  }

  /** Nothing was withheld from the sink. */
  ghost predicate FullyTold(a: Account) { a.skipped == 0 && a.announced == AllAnnounced(a) }

  ghost predicate AccountsOk(k: Consumer) {
    && (forall i :: 0 <= i < |k.accounts| ==> AccountOk(k.accounts[i]))
    && (!k.muted ==> k.skipped == 0 && forall i :: 0 <= i < |k.accounts| ==> FullyTold(k.accounts[i]))
  }

  /** The report waiting at `i`, with the losses it carries and what is still before it, closes its run. */
  ghost predicate ReportBalances(inbox: seq<Item>, i: nat, k: Consumer)
    requires i < |inbox|
  {
    var b := inbox[i].frame.body;
    && b.Report?
    && (b.capture.Some? ==>
          b.capture.value.liveEmitted - b.capture.value.liveDropped == inbox[i].parentDropped + LiveCount(inbox) + Reached(k))
    && forall j :: i <= j < |inbox| ==> !IsEventBody(inbox[j].frame.body)
  }

  ghost predicate Balanced(s: System) {
    && s.consumer.reports + ReportCount(s.inbox) == s.view.runs
    && ReportCount(s.inbox) <= 1
    && (ReportCount(s.inbox) == 1 ==>
          s.liveLost == 0 && s.view.phase !in {Startup, Running} && exists i :: 0 <= i < |s.inbox| && ReportBalances(s.inbox, i, s.consumer))
    && (ReportCount(s.inbox) == 0 && s.view.phase in {Startup, Running} ==>
          s.view.liveReceived == s.liveLost + LiveCount(s.inbox) + Reached(s.consumer))
    && AccountsOk(s.consumer)
  }

  lemma InitialIsBalanced()
    ensures Balanced(Initial())
  {}

  lemma {:induction false} ReportsByKind(inbox: seq<Item>)
    ensures Count(Frames(inbox), ReportKind) == ReportCount(inbox)
  {
    if inbox == [] {
      assert Frames(inbox) == [];
    } else {
      assert Frames(inbox) == [inbox[0].frame] + Frames(inbox[1..]);
      CountConcat([inbox[0].frame], Frames(inbox[1..]), ReportKind);
      CountOne(inbox[0].frame, ReportKind);
      ReportsByKind(inbox[1..]);
    }
  }

  /** A report at the head of the pipe finds none in the inbox. */
  lemma ReportsArriveOneByOne(c: Session, s: System)
    requires Sparse(c, s) && s.pipe != []
    ensures ReportCount(s.inbox) + (if s.pipe[0].body.Report? then 1 else 0) <= 1
  {
    hide Sized;
    var rest := s.pipe[1..] + s.outgoing;
    assert Pipeline(s) == [] + (Frames(s.inbox) + [s.pipe[0]]) + rest;
    CountIsMonotone([], Frames(s.inbox) + [s.pipe[0]], rest, ReportKind);
    CountConcat(Frames(s.inbox), [s.pipe[0]], ReportKind);
    CountOne(s.pipe[0], ReportKind);
    ReportsByKind(s.inbox);
  }

  lemma ReportStays(inbox: seq<Item>, item: Item, k: Consumer, i: nat)
    requires i < |inbox| && ReportBalances(inbox, i, k) && !IsEventBody(item.frame.body)
    ensures ReportBalances(inbox + [item], i, k)
  {
    LiveConcat(inbox, [item]);
    ItemCounts(item);
  }

  /** What a body changes of the figures the ledger reads. */
  lemma AcceptedFigures(x: Expectation, v: View, f: Frame)
    requires Accepts(x, v, f)
    ensures var u := WorkerMessages.After(x, v, f.body);
      && u.runs == v.runs + (if f.body.Report? then 1 else 0)
      && u.liveReceived == v.liveReceived + (if f.body.Live? then 1 else 0)
      && (IsEventBody(f.body) || f.body.Report? ==> v.phase == Running)
      && (f.body.Report? || v.phase !in {Startup, Running} ==> u.phase !in {Startup, Running})
      && (f.body.Report? && f.body.capture.Some? ==>
            f.body.capture.value.liveEmitted - f.body.capture.value.liveDropped == v.liveReceived)
  {
    hide ReceiptOk, LiveFrameOk, ProducerOk;
  }

  lemma ReadKeepsBalance(c: Session, s: System)
    requires Balanced(s) && s.pipe != [] && ReportCount(s.inbox) + (if s.pipe[0].body.Report? then 1 else 0) <= 1
    requires !IsEventBody(s.pipe[0].body) ==> ControlFits(Frames(s.inbox), s.pipe[0].wire)
    ensures Balanced(ReadStep(c, s))
  {
    hide Accepts, WorkerMessages.After, EventFits, ControlFits, Frames, ReportBalances, AccountsOk;
    var t, f := ReadStep(c, s), s.pipe[0];
    if Accepts(c.x, s.view, f) {
      AcceptedFigures(c.x, s.view, f);
      if t.inbox != s.inbox {
        var item := t.inbox[|s.inbox|];
        assert t.inbox == s.inbox + [item];
        LiveConcat(s.inbox, [item]);
        ItemCounts(item);
        if f.body.Report? {
          NewReportBalances(s.inbox, item, s.consumer);
        } else if ReportCount(s.inbox) == 1 {
          var i :| 0 <= i < |s.inbox| && ReportBalances(s.inbox, i, s.consumer);
          ReportStays(s.inbox, item, s.consumer, i);
        }
      }
    }
  }

  lemma NewReportBalances(inbox: seq<Item>, item: Item, k: Consumer)
    requires item.frame.body.Report?
    requires item.frame.body.capture.Some? ==>
      item.frame.body.capture.value.liveEmitted - item.frame.body.capture.value.liveDropped
      == item.parentDropped + LiveCount(inbox) + Reached(k)
    ensures ReportBalances(inbox + [item], |inbox|, k)
  {
    LiveConcat(inbox, [item]);
    ItemCounts(item);
  }

  lemma ReportShifts(inbox: seq<Item>, i: nat, k: Consumer, l: Consumer)
    requires 0 < i < |inbox| && ReportBalances(inbox, i, k)
    requires Reached(l) == Reached(k) + if inbox[0].frame.body.Live? then 1 else 0
    ensures ReportBalances(inbox[1..], i - 1, l)
  {}

  lemma {:induction false} NoEventsNoLive(inbox: seq<Item>)
    requires forall j :: 0 <= j < |inbox| ==> !IsEventBody(inbox[j].frame.body)
    ensures LiveCount(inbox) == 0
  {
    if inbox != [] { NoEventsNoLive(inbox[1..]); }
  }

  /** The report at the head closes its run: every live event of the run is in its account. */
  lemma HeadClosesRun(inbox: seq<Item>, k: Consumer)
    requires inbox != [] && ReportBalances(inbox, 0, k)
    ensures LiveCount(inbox) == 0 && LiveCount(inbox[1..]) == 0
    ensures inbox[0].frame.body.capture.Some? ==>
      inbox[0].frame.body.capture.value.liveEmitted == inbox[0].frame.body.capture.value.liveDropped
        + inbox[0].parentDropped + k.unprojected + k.handed + k.skipped
  {
    NoEventsNoLive(inbox);
  }

  /** The account that a report closes is in order, and complete unless a callback has failed. */
  lemma ClosedKeepsAccounts(k: Consumer, b: Body, parentDropped: nat, live: bool, fails: Option<nat>)
    requires AccountsOk(k) && b.Report?
    requires b.capture.Some? ==>
      b.capture.value.liveEmitted == b.capture.value.liveDropped + parentDropped + k.unprojected + k.handed + k.skipped
    ensures var l := WorkerSystem.Closed(k, b, parentDropped, live, fails);
      AccountsOk(l) && Reached(l) == 0 && l.reports == k.reports + 1
  {
    hide Announcements, Losses;
  }

  /** Handing over a message that is not a report closes no account. */
  lemma AccountsStay(k: Consumer, l: Consumer)
    requires AccountsOk(k) && l.accounts == k.accounts && (k.muted ==> l.muted) && (!l.muted ==> l.skipped == k.skipped)
    ensures AccountsOk(l)
  {
    hide AccountOk, FullyTold;
  }

  lemma ReportAtHead(inbox: seq<Item>, i: nat, k: Consumer)
    requires i < |inbox| && ReportBalances(inbox, i, k) && ReportCount(inbox) <= 1 && inbox[0].frame.body.Report?
    ensures i == 0
  {
    if i > 0 { ReportSomewhere(inbox[1..], i - 1); }
  }

  lemma {:induction false} ReportSomewhere(inbox: seq<Item>, i: nat)
    requires i < |inbox| && inbox[i].frame.body.Report?
    ensures ReportCount(inbox) >= 1
  {
    if i > 0 { ReportSomewhere(inbox[1..], i - 1); }
  }

  lemma ConsumeReportKeepsBalance(c: Session, s: System, projected: bool, fails: Option<nat>, keep: bool)
    requires Balanced(s) && s.inbox != [] && s.inbox[0].frame.body.Report?
    ensures Balanced(ConsumeStep(c, s, projected, fails, keep))
  {
    hide ReportBalances, AccountsOk, WorkerSystem.Closed;
    var i :| 0 <= i < |s.inbox| && ReportBalances(s.inbox, i, s.consumer);
    ReportAtHead(s.inbox, i, s.consumer);
    HeadClosesRun(s.inbox, s.consumer);
    ClosedKeepsAccounts(s.consumer, s.inbox[0].frame.body, s.inbox[0].parentDropped, c.x.live, fails);
  }

  /** A message that is not a report leaves the inbox for the consumer, which counts it if it is live. */
  lemma PassOn(s: System, l: Consumer)
    requires Balanced(s) && s.inbox != [] && !s.inbox[0].frame.body.Report?
    requires AccountsOk(l) && l.reports == s.consumer.reports
    requires Reached(l) == Reached(s.consumer) + if s.inbox[0].frame.body.Live? then 1 else 0
    ensures Balanced(s.(inbox := s.inbox[1..], consumer := l))
  {
    hide AccountsOk, Reached;
    if ReportCount(s.inbox) == 1 {
      var i :| 0 <= i < |s.inbox| && ReportBalances(s.inbox, i, s.consumer);
      ReportShifts(s.inbox, i, s.consumer, l);
    }
  }

  lemma ConsumeOtherKeepsBalance(c: Session, s: System, projected: bool, fails: Option<nat>, keep: bool)
    requires Balanced(s) && s.inbox != [] && !s.inbox[0].frame.body.Report?
    ensures Balanced(ConsumeStep(c, s, projected, fails, keep))
  {
    var t := ConsumeStep(c, s, projected, fails, keep);
    BalancedAccounts(s);
    hide AccountsOk, Balanced;
    AccountsStay(s.consumer, t.consumer);
    PassOn(s, t.consumer);
    assert t == s.(inbox := s.inbox[1..], consumer := t.consumer);
  }

  lemma BalancedAccounts(s: System)
    requires Balanced(s)
    ensures AccountsOk(s.consumer)
  {}

  lemma HeadReportCounts(s: System)
    requires Balanced(s) && s.inbox != [] && s.inbox[0].frame.body.Report?
    ensures s.consumer.reports + 1 == s.view.runs
  {
    hide ReportBalances, AccountsOk, LiveCount, ReportCount;
    ReportSomewhere(s.inbox, 0);
  }

  lemma ConsumeKeepsOrder(c: Session, s: System, projected: bool, fails: Option<nat>, keep: bool)
    requires Ordered(c, s) && Sparse(c, s) && Balanced(s) && s.inbox != [] && s.parent == Watching
    ensures Ordered(c, ConsumeStep(c, s, projected, fails, keep))
  {
    hide AcceptAll, Balanced, Sparse;
    var t := ConsumeStep(c, s, projected, fails, keep);
    assert InFlight(t) == InFlight(s);
    if s.inbox[0].frame.body.Report? && c.x.server {
      if s.view.phase == Continuation {
        CountsAgree(c, s);
        HeadReportCounts(s);
        assert s.command.None?;
        assert t.command.value ==> RunsLeft(c, s.worker.count);
        AuthoriseKeepsOrder(c, s, t.command.value, t);
      } else {
        StoppedWasInterrupted(c, s);
      }
    }
  }

  /** When the parent may continue, it has consumed as many reports as the worker has sent. */
  lemma CountsAgree(c: Session, s: System)
    requires Ordered(c, s) && s.parent == Watching && s.view.phase == Continuation
    ensures s.worker.count == s.view.runs
  {
    hide AcceptAll;
    AcceptKeepsRun(c.x, s.view, InFlight(s));
    NothingToAccept(c.x, s.view);
  }

  /** A report nobody may continue after can only mean that the worker has given up waiting. */
  lemma StoppedWasInterrupted(c: Session, s: System)
    requires Ordered(c, s) && Sparse(c, s) && Balanced(s) && s.parent == Watching && c.x.server
    requires s.inbox != [] && s.inbox[0].frame.body.Report? && s.view.phase != Continuation
    ensures s.worker.interrupted
  {
    hide AcceptAll, Sized, ReportBalances, AccountsOk, LiveCount, Frames, Count;
    assert Pipeline(s) == [] + Frames(s.inbox) + (s.pipe + s.outgoing);
    CountIsMonotone([], Frames(s.inbox), s.pipe + s.outgoing, ReportKind);
    ReportsByKind(s.inbox);
    ReportSomewhere(s.inbox, 0);
    if !s.worker.interrupted {
      AcceptKeepsRun(c.x, s.view, InFlight(s));
    }
  }

  // ---- Along every run ----------------------------------------------------------------------

  ghost predicate Inv(c: Session, s: System) { Ordered(c, s) && Sparse(c, s) && Balanced(s) }

  lemma WorkerKeepsBalance(c: Session, s: System, a: Action)
    requires Balanced(s) && WorkerMay(c, s.worker, s.command, a)
    ensures Balanced(WorkerStep(c, s, a))
  {
    hide ReportBalances, AccountsOk, ControlFits, EventFits, Offered, MayEmit;
  }

  lemma WriteKeepsBalance(c: Session, s: System)
    requires Balanced(s) && s.outgoing != []
    ensures Balanced(Step(c, s, Write))
  {
    hide ReportBalances, AccountsOk;
  }

  lemma WorkerKeepsInv(c: Session, s: System, a: Action)
    requires Inv(c, s) && WorkerMay(c, s.worker, s.command, a)
    ensures Inv(c, WorkerStep(c, s, a))
  {
    hide Ordered, Sparse, Balanced, ControlFits;
    WorkerKeepsBalance(c, s, a);
    if IsControlSend(a) {
      WorkerNeverOverflows(c, s, a);
      SendKeepsSparse(c, s, a);
      match a
      case SendReady(_, _) => ReadyKeepsOrder(c, s, a);
      case SendReport(_, _) => ReportKeepsOrder(c, s, a);
      case SendFailure(_, _, _) => FailureKeepsOrder(c, s, a);
      case SendTerminal(_) => TerminalKeepsOrder(c, s, a);
    } else if a.Attempt? {
      OffersAreEvents(c.x.live, s.worker.emission, a.body);
      AttemptKeepsOrder(c, s, a.body, a.wire);
      AttemptKeepsSparse(c, s, a.body, a.wire);
    } else {
      QuietKeepsOrder(c, s, a);
      QuietKeepsSparse(c, s, a);
    }
  }

  /** Whatever happens next, the session stays in order, sparse and balanced. */
  lemma StepKeepsInv(c: Session, s: System, a: Action)
    requires Inv(c, s) && May(c, s, a)
    ensures Inv(c, Step(c, s, a))
  {
    hide Ordered, Sparse, Balanced, ControlFits, WorkerMay, WorkerStep;
    match a
    case Write =>
      WriteKeepsOrder(c, s);
      WriteKeepsSparse(c, s);
      WriteKeepsBalance(c, s);
    case Read =>
      if !IsEventBody(s.pipe[0].body) { InboxNeverOverflows(c, s); }
      ReportsArriveOneByOne(c, s);
      ReadKeepsOrder(c, s);
      ReadKeepsSparse(c, s);
      ReadKeepsBalance(c, s);
    case Consume(projected, fails, keep) =>
      ConsumeKeepsOrder(c, s, projected, fails, keep);
      ConsumeKeepsSparse(c, s, projected, fails, keep);
      if s.inbox[0].frame.body.Report? {
        ConsumeReportKeepsBalance(c, s, projected, fails, keep);
      } else {
        ConsumeOtherKeepsBalance(c, s, projected, fails, keep);
      }
    case _ => WorkerKeepsInv(c, s, a);
  }

  lemma {:induction false} RunsKeepInv(c: Session, actions: seq<Action>)
    requires WorkerSystem.Reached(c, actions).Some?
    ensures Inv(c, WorkerSystem.Reached(c, actions).value)
  {
    hide Inv, Step, May;
    if actions == [] {
      InitialIsOrdered(c);
      InitialIsSparse(c);
      InitialIsBalanced();
      InvOf(c, Initial());
    } else {
      RunsKeepInv(c, actions[..|actions| - 1]);
      StepKeepsInv(c, WorkerSystem.Reached(c, actions[..|actions| - 1]).value, actions[|actions| - 1]);
    }
  }

  lemma InvOf(c: Session, s: System)
    requires Ordered(c, s) && Sparse(c, s) && Balanced(s)
    ensures Inv(c, s)
  {}

  /**
   Composition: in every reachable state the next frame on the pipe is accepted exactly unless the worker gave
   up waiting for a command while the parent authorised the run after it.
   */
  lemma EveryFrameIsAccepted(c: Session, actions: seq<Action>)
    requires WorkerSystem.Reached(c, actions).Some?
    ensures var s := WorkerSystem.Reached(c, actions).value;
      && (s.parent == Watching && s.pipe != [] ==> (Accepts(c.x, s.view, s.pipe[0]) <==> !Crossed(s)))
      && (s.parent == Broken ==> Crossed(s))
  {
    var s := WorkerSystem.Reached(c, actions).value;
    RunsKeepInv(c, actions);
    hide Accepts, AcceptAll, Sparse, Balanced, Aligned;
    if s.parent == Watching && s.pipe != [] {
      if Crossed(s) { CrossedIsRefused(c, s); } else { HeadIsAccepted(c, s); }
    }
  }

  /** A client session, and any session whose worker never abandons its wait, is accepted to the end. */
  lemma UninterruptedIsNeverBroken(c: Session, actions: seq<Action>)
    requires WorkerSystem.Reached(c, actions).Some? && !WorkerSystem.Reached(c, actions).value.worker.interrupted
    ensures WorkerSystem.Reached(c, actions).value.parent == Watching
  {
    RunsKeepInv(c, actions);
    hide Sparse, Balanced, Aligned;
  }

  /** Neither bounded queue ever exceeds its control allowance, in count or in bytes. */
  lemma ControlAllowanceHolds(c: Session, actions: seq<Action>)
    requires WorkerSystem.Reached(c, actions).Some?
    ensures var s := WorkerSystem.Reached(c, actions).value;
      && !s.overflow
      && ControlCount(s.outgoing) <= MAX_PENDING_CONTROLS && ControlBytes(s.outgoing) <= MAX_PENDING_CONTROL_BYTES
      && ControlCount(Frames(s.inbox)) <= MAX_PENDING_CONTROLS && ControlBytes(Frames(s.inbox)) <= MAX_PENDING_CONTROL_BYTES
  {
    hide WorkerSystem.Reached, Inv, Ordered, Balanced, Sparse, Frames, ControlCount, ControlBytes;
    RunsKeepInv(c, actions);
    SparseIsBounded(c, WorkerSystem.Reached(c, actions).value);
  }

  lemma SparseIsBounded(c: Session, s: System)
    requires Inv(c, s)
    ensures !s.overflow
    ensures ControlCount(s.outgoing) <= MAX_PENDING_CONTROLS && ControlBytes(s.outgoing) <= MAX_PENDING_CONTROL_BYTES
    ensures ControlCount(Frames(s.inbox)) <= MAX_PENDING_CONTROLS && ControlBytes(Frames(s.inbox)) <= MAX_PENDING_CONTROL_BYTES
  {
    hide Ordered, Balanced, Frames, ControlCount, ControlBytes, Count, Sized, ReportAllowed;
    assert Pipeline(s) == [] + Frames(s.inbox) + (s.pipe + s.outgoing);
    assert Pipeline(s) == (Frames(s.inbox) + s.pipe) + s.outgoing + [];
    PartOfPipeline(Frames(s.inbox) + s.pipe, s.outgoing, []);
    PartOfPipeline([], Frames(s.inbox), s.pipe + s.outgoing);
  }

  lemma PartOfPipeline(a: seq<Frame>, b: seq<Frame>, d: seq<Frame>)
    requires Sized(a + b + d)
    requires Count(a + b + d, ReadyKind) <= 1 && Count(a + b + d, ReportKind) <= 1
    requires Count(a + b + d, FailureKind) <= 1 && Count(a + b + d, TerminalKind) <= 1
    ensures ControlCount(b) <= MAX_PENDING_CONTROLS && ControlBytes(b) <= MAX_PENDING_CONTROL_BYTES
  {
    hide Count, ControlCount, ControlBytes;
    CountIsMonotone(a, b, d, ReadyKind);
    CountIsMonotone(a, b, d, ReportKind);
    CountIsMonotone(a, b, d, FailureKind);
    CountIsMonotone(a, b, d, TerminalKind);
    forall i | 0 <= i < |b| ensures FrameSized(b[i]) { assert (a + b + d)[|a| + i] == b[i]; }
    ControlsCounted(b);
    ControlsWeighed(b);
  }

  /**
   Loss accounting: every live event that the capture of a reported run emitted was dropped by the worker's queue, by the
   parent's or in projection, handed to the sink, or skipped after a callback failed. The sink is handed gap events for
   the losses, in order, and all of them unless a callback failed: then what it was handed adds up to what was emitted.
   */
  lemma LiveEventsAreConserved(c: Session, actions: seq<Action>, i: nat)
    requires WorkerSystem.Reached(c, actions).Some? && i < |WorkerSystem.Reached(c, actions).value.consumer.accounts|
    ensures var k := WorkerSystem.Reached(c, actions).value.consumer;
      var a := k.accounts[i];
      && a.receipt.liveEmitted == a.receipt.liveDropped + a.parentDropped + a.unprojected + a.handed + a.skipped
      && a.announced <= AllAnnounced(a)
      && (!k.muted ==> a.skipped == 0 && a.announced == AllAnnounced(a) && a.receipt.liveEmitted == a.handed + Told(a.announced))
  {
    RunsKeepInv(c, actions);
    hide Ordered, Sparse, Announcements, Told;
    var a := WorkerSystem.Reached(c, actions).value.consumer.accounts[i];
    LossesAddUp(a.sequence, Losses(a.receipt, a.parentDropped, a.unprojected));
    ThreeLosses(a.receipt, a.parentDropped, a.unprojected);
  }

  /** The losses that gap events announce. */
  function Told(gaps: seq<Announcement>): int { if gaps == [] then 0 else gaps[0].dropped + Told(gaps[1..]) }

  function Lost(losses: seq<(DeliveryStage, int)>): int { if losses == [] then 0 else losses[0].1 + Lost(losses[1..]) }

  lemma {:induction false} LossesAddUp(sequence: nat, losses: seq<(DeliveryStage, int)>)
    ensures Told(Announcements(sequence, losses)) == Lost(losses)
    decreases losses
  {
    if losses != [] {
      var next := if losses[0].1 == 0 then sequence else sequence + 1;
      LossesAddUp(next, losses[1..]);
      if losses[0].1 != 0 {
        assert Announcements(sequence, losses)[1..] == Announcements(next, losses[1..]);
      }
    }
  }

  lemma ThreeLosses(receipt: Receipt, parentDropped: nat, unprojected: nat)
    ensures Lost(Losses(receipt, parentDropped, unprojected)) == receipt.liveDropped + parentDropped + unprojected
  {
    var losses := Losses(receipt, parentDropped, unprojected);
    assert losses[1..] == [(ParentDelivery, parentDropped), (ProjectionStage, unprojected)];
    assert losses[1..][1..] == [(ProjectionStage, unprojected)] && losses[1..][1..][1..] == [];
    assert Lost(losses[1..][1..]) == unprojected + Lost([]);
    assert Lost(losses[1..]) == parentDropped + Lost(losses[1..][1..]);
  }

  /** Gap events are numbered on without a hole, and each names a loss that is not zero. */
  lemma {:induction false} AnnouncementsAreNumbered(sequence: nat, losses: seq<(DeliveryStage, int)>, i: nat)
    requires i < |Announcements(sequence, losses)|
    ensures var gap := Announcements(sequence, losses)[i];
      gap.sequence == sequence + 1 + i && gap.dropped != 0 && (gap.stage, gap.dropped) in losses
    decreases losses
  {
    if losses[0].1 == 0 {
      AnnouncementsAreNumbered(sequence, losses[1..], i);
    } else if i > 0 {
      AnnouncementsAreNumbered(sequence + 1, losses[1..], i - 1);
    }
  }

  predicate DistinctStages(gaps: seq<Announcement>) {
    forall i, j :: 0 <= i < j < |gaps| ==> gaps[i].stage != gaps[j].stage
  }

  /** Each stage with a loss is announced exactly once, with its own count. */
  lemma {:induction false} EveryLossIsAnnouncedOnce(sequence: nat, losses: seq<(DeliveryStage, int)>, stage: DeliveryStage)
    requires forall i, j :: 0 <= i < j < |losses| ==> losses[i].0 != losses[j].0
    ensures var gaps := Announcements(sequence, losses);
      && DistinctStages(gaps)
      && (forall k :: 0 <= k < |losses| && losses[k].0 == stage && losses[k].1 != 0 ==>
            exists i :: 0 <= i < |gaps| && gaps[i].stage == stage && gaps[i].dropped == losses[k].1)
    decreases losses
  {
    var gaps := Announcements(sequence, losses);
    if losses != [] {
      var next := if losses[0].1 == 0 then sequence else sequence + 1;
      var rest := Announcements(next, losses[1..]);
      EveryLossIsAnnouncedOnce(next, losses[1..], stage);
      if losses[0].1 != 0 {
        assert gaps == [Announcement(losses[0].0, losses[0].1, sequence + 1)] + rest;
        forall j | 0 <= j < |rest| ensures rest[j].stage != losses[0].0 {
          AnnouncementsAreNumbered(next, losses[1..], j);
        }
        assert DistinctStages(rest) && DistinctStages(gaps);
      }
      forall k | 0 <= k < |losses| && losses[k].0 == stage && losses[k].1 != 0
        ensures exists i :: 0 <= i < |gaps| && gaps[i].stage == stage && gaps[i].dropped == losses[k].1
      {
        if k == 0 {
          assert gaps[0].stage == stage && gaps[0].dropped == losses[k].1;
        } else {
          assert losses[1..][k - 1] == losses[k];
          var i :| 0 <= i < |rest| && rest[i].stage == stage && rest[i].dropped == losses[k].1;
          var shift := if losses[0].1 == 0 then 0 else 1;
          assert gaps[i + shift] == rest[i];
        }
      }
    }
  }

  // ---- The one way a conforming worker is refused -------------------------------------------

  const EXAMPLE := Session(Expectation(Identity("", ""), true, 1, false), None)
  const PRODUCER := Producer([120], [120], [120], true)
  const RECEIPT := Receipt(0, 0, 0, 0, 0, 0, 0, false, None, None, true, [], true)
  const REPORT := Report(Obj([]), Obj([]), None, Some(0.0), Some(0.0), Some(0.0), 0, 0, [120], Some(RECEIPT))

  function ExampleFrame(sequence: int, b: Body): Frame { Frame(EXAMPLE.x.identity, sequence, 1, b, 4) }

  function ExampleView(incoming: nat, run: int, runs: nat, phase: Phase): View {
    View(incoming, run, runs, phase, Some(PRODUCER), false, 0, 0, 0, 0.0, map[])
  }

  function ExampleWorker(pc: Pc, count: nat, sent: nat, failed: bool, interrupted: bool): Worker {
    Worker(pc, true, 1, count, sent, [120], Silence, failed, interrupted)
  }

  /** The example session while its first run executes. */
  function Running1(): System {
    System(ExampleWorker(Executing, 0, 1, false, false), [], [], ExampleView(1, 1, 0, Running), [], 0, None,
           Idle(0, 2), Watching, false)
  }

  /** Its report has reached the inbox and the worker waits for a command. */
  function Reported1(): System {
    System(ExampleWorker(Awaiting, 1, 2, false, false), [], [], ExampleView(2, 1, 1, Continuation),
           [Item(ExampleFrame(2, REPORT), 0)], 0, None, Idle(0, 2), Watching, false)
  }

  /** The parent has authorised the second run; the worker has not read the command. */
  function Authorised1(): System {
    System(ExampleWorker(Awaiting, 1, 2, false, false), [], [], ExampleView(2, 2, 1, Running), [], 0, Some(true),
           Idle(1, 2), Watching, false)
  }

  /** The worker gave up instead and its error receipt is on the pipe. */
  function GaveUp1(): System {
    Authorised1().(
      worker := ExampleWorker(Finishing, 1, 3, true, true), pipe := [ExampleFrame(3, Failure([120], []))])
  }

  lemma Extend(c: Session, actions: seq<Action>, s: System, a: Action, t: System) returns (more: seq<Action>)
    requires WorkerSystem.Reached(c, actions) == Some(s) && May(c, s, a) && Step(c, s, a) == t
    ensures more == actions + [a] && WorkerSystem.Reached(c, more) == Some(t)
  {
    hide May, Step;
    more := actions + [a];
    assert more[..|more| - 1] == actions;
  }

  lemma NothingYet(c: Session)
    ensures WorkerSystem.Reached(c, []) == Some(Initial())
  {}

  lemma ExampleReadyArrives()
    ensures Accepts(EXAMPLE.x, Opening, ExampleFrame(1, Ready(1, PRODUCER)))
    ensures WorkerMessages.After(EXAMPLE.x, Opening, Ready(1, PRODUCER)) == ExampleView(1, 1, 0, Running)
  {}

  lemma SendsReady() returns (actions: seq<Action>)
    ensures WorkerSystem.Reached(EXAMPLE, actions) == Some(
      System(ExampleWorker(Executing, 0, 1, false, false), [ExampleFrame(1, Ready(1, PRODUCER))], [], Opening, [], 0, None,
             Idle(0, 1), Watching, false))
  {
    NothingYet(EXAMPLE);
    hide WorkerSystem.Reached, ControlFits, REPORT, RECEIPT;
    NothingQueued(4);
    var ready := ExampleFrame(1, Ready(1, PRODUCER));
    assert Initial().outgoing + [ready] == [ready];
    actions := Extend(EXAMPLE, [], Initial(), SendReady(PRODUCER, 4), Step(EXAMPLE, Initial(), SendReady(PRODUCER, 4)));
  }

  lemma StartsRunning() returns (actions: seq<Action>)
    ensures WorkerSystem.Reached(EXAMPLE, actions) == Some(Running1())
  {
    hide WorkerSystem.Reached;
    hide Accepts, WorkerMessages.After, ControlFits, Frames, REPORT, RECEIPT;
    ExampleReadyArrives();
    NothingQueued(4);
    var ready := ExampleFrame(1, Ready(1, PRODUCER));
    var w := ExampleWorker(Executing, 0, 1, false, false);
    var k := Idle(0, 1);
    var s1 := System(w, [ready], [], Opening, [], 0, None, k, Watching, false);
    var s2 := System(w, [], [ready], Opening, [], 0, None, k, Watching, false);
    var s3 := System(w, [], [], ExampleView(1, 1, 0, Running), [Item(ready, 0)], 0, None, k, Watching, false);
    actions := SendsReady();
    assert s1.outgoing[1..] == [] && s1.pipe + [s1.outgoing[0]] == [ready];
    actions := Extend(EXAMPLE, actions, s1, Write, s2);
    assert s2.pipe[1..] == [] && s2.inbox + [Item(ready, 0)] == [Item(ready, 0)];
    actions := Extend(EXAMPLE, actions, s2, Read, s3);
    assert s3.inbox[1..] == [];
    actions := Extend(EXAMPLE, actions, s3, Consume(true, None, true), Running1());
  }

  lemma ExampleReportCloses()
    ensures ReportCloses(false, [120], Silence, REPORT)
  {}

  lemma EnvelopeArrives(x: Expectation, v: View, f: Frame)
    requires f.identity == x.identity && f.sequence == v.incoming + 1 && v.phase != Closed && f.run == v.run
    requires BodyOk(x, v, f.body)
    ensures Accepts(x, v, f)
  {
    hide BodyOk;
  }

  lemma SilenceIsSeen()
    ensures EmissionSeen(Silence, ExampleView(1, 1, 0, Running))
  {}

  lemma ExampleReportArrives()
    ensures Accepts(EXAMPLE.x, ExampleView(1, 1, 0, Running), ExampleFrame(2, REPORT))
  {
    hide BodyOk, ReportCloses, REPORT, RECEIPT, Accepts, EmissionSeen, Silence;
    ExampleReportCloses();
    SilenceIsSeen();
    ReportIsAccepted(EXAMPLE, [120], Silence, REPORT, ExampleView(1, 1, 0, Running));
    EnvelopeArrives(EXAMPLE.x, ExampleView(1, 1, 0, Running), ExampleFrame(2, REPORT));
  }

  lemma ExampleReportCounts()
    ensures WorkerMessages.After(EXAMPLE.x, ExampleView(1, 1, 0, Running), REPORT) == ExampleView(2, 1, 1, Continuation)
  {}

  lemma NothingQueued(wire: nat)
    requires wire <= 4
    ensures ControlFits([], wire) && Frames([]) == []
  {}

  lemma Reports(before: seq<Action>) returns (actions: seq<Action>)
    requires WorkerSystem.Reached(EXAMPLE, before) == Some(Running1())
    ensures WorkerSystem.Reached(EXAMPLE, actions) == Some(Reported1())
  {
    hide WorkerSystem.Reached, ReportCloses, Accepts, WorkerMessages.After, ControlFits, Frames;
    ExampleReportCloses();
    ExampleReportArrives();
    ExampleReportCounts();
    NothingQueued(4);
    var report := ExampleFrame(2, REPORT);
    var w := ExampleWorker(Awaiting, 1, 2, false, false);
    var s1 := Running1().(worker := w, outgoing := [report]);
    var s2 := Running1().(worker := w, pipe := [report]);
    assert Running1().outgoing + [report] == [report];
    actions := Extend(EXAMPLE, before, Running1(), SendReport(REPORT, 4), s1);
    assert s1.outgoing[1..] == [] && s1.pipe + [s1.outgoing[0]] == [report];
    actions := Extend(EXAMPLE, actions, s1, Write, s2);
    assert s2.pipe[1..] == [] && s2.inbox + [Item(report, 0)] == [Item(report, 0)];
    actions := Extend(EXAMPLE, actions, s2, Read, Reported1());
  }

  lemma Authorises(before: seq<Action>) returns (actions: seq<Action>)
    requires WorkerSystem.Reached(EXAMPLE, before) == Some(Reported1())
    ensures WorkerSystem.Reached(EXAMPLE, actions) == Some(Authorised1())
  {
    hide WorkerSystem.Reached, RECEIPT, PRODUCER;
    assert Reported1().inbox[1..] == [];
    actions := Extend(EXAMPLE, before, Reported1(), Consume(true, None, true), Authorised1());
  }

  lemma GivesUp(before: seq<Action>) returns (actions: seq<Action>)
    requires WorkerSystem.Reached(EXAMPLE, before) == Some(Authorised1())
    ensures WorkerSystem.Reached(EXAMPLE, actions) == Some(GaveUp1())
  {
    hide WorkerSystem.Reached, ControlFits, RECEIPT, PRODUCER, REPORT;
    NothingQueued(4);
    var failure := ExampleFrame(3, Failure([120], []));
    actions := before;
    var s1 := Authorised1().(worker := ExampleWorker(Failing, 1, 2, false, true));
    actions := Extend(EXAMPLE, actions, Authorised1(), Interrupt, s1);
    var s2 := Authorised1().(worker := ExampleWorker(Finishing, 1, 3, true, true), outgoing := [failure]);
    assert s1.outgoing + [failure] == [failure];
    actions := Extend(EXAMPLE, actions, s1, SendFailure([120], [], 4), s2);
    assert s2.outgoing[1..] == [] && s2.pipe + [s2.outgoing[0]] == [failure];
    actions := Extend(EXAMPLE, actions, s2, Write, GaveUp1());
  }

  /**
   A server worker that fails while waiting, after the parent has authorised the next run, sends an error receipt for a
   run the parent has left: the receipt is refused.
   */
  lemma CrossingBreaksTheSession()
    ensures exists c: Session, actions: seq<Action> ::
      WorkerSystem.Reached(c, actions).Some? && WorkerSystem.Reached(c, actions).value.parent == Broken
  {
    hide WorkerSystem.Reached;
    var a1 := StartsRunning();
    var a2 := Reports(a1);
    var authorised := Authorises(a2);
    var a3 := GivesUp(authorised);
    var a4 := Extend(EXAMPLE, a3, GaveUp1(), Read, Step(EXAMPLE, GaveUp1(), Read));
    assert WorkerSystem.Reached(EXAMPLE, a4).value.parent == Broken;
  }
}
