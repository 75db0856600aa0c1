/**
 One worker session as an interleaved transition system: the worker (`_worker.py`), its outgoing queue, the
 pipe, the parent's reader, its inbox and the consumer loop (`_execution.py`). Every action is atomic; any
 interleaving of enabled actions is a run.
 */
module WorkerSystem {
  import opened Options
  import opened JsonFrames
  import opened WorkerMessages

  const MAX_PENDING_EVENTS := 256
  const MAX_PENDING_EVENT_BYTES := 8 * 1024 * 1024
  const MAX_PENDING_CONTROLS := 4
  const MAX_PENDING_CONTROL_BYTES := 2 * MAX_FRAME_BYTES + 64 * 1024
  const HEADER_BYTES := 4

  /** Frames an error report and a terminal receipt need, header included. */
  const MAX_FAILURE_WIRE := 48 * 1024
  const MAX_TERMINAL_WIRE := 2 * 1024
  const MAX_FAILURE_TEXT := 4096

  // ---- Bounded queues -----------------------------------------------------------------------

  function EventCount(q: seq<Frame>): nat {
    if q == [] then 0 else EventCount(q[..|q| - 1]) + if IsEventBody(q[|q| - 1].body) then 1 else 0
  }

  function EventBytes(q: seq<Frame>): nat {
    if q == [] then 0 else EventBytes(q[..|q| - 1]) + if IsEventBody(q[|q| - 1].body) then q[|q| - 1].wire else 0
  }

  function ControlCount(q: seq<Frame>): nat {
    if q == [] then 0 else ControlCount(q[..|q| - 1]) + if IsEventBody(q[|q| - 1].body) then 0 else 1
  }

  function ControlBytes(q: seq<Frame>): nat {
    if q == [] then 0 else ControlBytes(q[..|q| - 1]) + if IsEventBody(q[|q| - 1].body) then 0 else q[|q| - 1].wire
  }

  predicate EventFits(q: seq<Frame>, wire: nat) {
    && wire <= MAX_EVENT_BYTES + HEADER_BYTES
    && EventCount(q) < MAX_PENDING_EVENTS
    && EventBytes(q) + wire <= MAX_PENDING_EVENT_BYTES
  }

  predicate ControlFits(q: seq<Frame>, wire: nat) {
    ControlCount(q) < MAX_PENDING_CONTROLS && ControlBytes(q) + wire <= MAX_PENDING_CONTROL_BYTES
  }

  // ---- What a capture may emit --------------------------------------------------------------

  /** Everything one run's parser has offered for delivery, admitted or not. */
  datatype Emission = Emission(
    events: int, liveEmitted: nat, liveDropped: nat, lastSequence: int, lastOffset: real, gaps: map<Stage, int>)

  const Silence := Emission(0, 0, 0, 0, 0.0, map[])

  /** A conforming parser: numbered upwards, in arrival order, gaps last and once per stage. */
  predicate MayEmit(live: bool, e: Emission, b: Body) {
    match b
    case Event(_, _, sequence, time) => sequence > e.events && FiniteNumber(time)
    case Live(_, data, captureSequence, offset, _) =>
      && live && LiveFrameOk(b)
      && (captureSequence.Some? ==>
            captureSequence.value > e.lastSequence && e.gaps == map[] && offset.value >= e.lastOffset)
      && (captureSequence.None? ==> data.stage !in e.gaps)
    case _ => false
  }

  function Offered(e: Emission, b: Body, admitted: bool): Emission {
    match b
    case Event(_, _, sequence, _) => e.(events := sequence)
    case Live(_, data, captureSequence, offset, _) =>
      var counted := e.(liveEmitted := e.liveEmitted + 1, liveDropped := e.liveDropped + if admitted then 0 else 1);
      if captureSequence.Some? && offset.Some?
      then counted.(lastSequence := captureSequence.value, lastOffset := offset.value)
      else if data.Gap? then counted.(gaps := e.gaps[data.stage := data.dropped])
      else counted
    case _ => e
  }

  /** The final receipt of a settled parser agrees with everything it offered. */
  predicate ReceiptCloses(live: bool, e: Emission, r: Receipt) {
    && ReceiptOk(r)
    && r.liveEmitted == e.liveEmitted && r.liveDropped == e.liveDropped
    && e.lastSequence <= r.callbacks
    && (!live ==> r.liveEmitted == 0)
    && forall stage :: stage in e.gaps ==> Dropped(r, stage) == e.gaps[stage]
  }

  predicate ReportCloses(live: bool, version: Text, e: Emission, b: Body) {
    && b.Report? && b.raw.Obj? && b.evidence.Obj?
    && FiniteNumber(b.startedAt) && FiniteNumber(b.completedAt) && FiniteNumber(b.elapsed)
    && 0 <= b.dropped <= b.emitted && e.events <= b.emitted
    && b.version == version
    && b.capture.Some? && ReceiptCloses(live, e, b.capture.value)
  }

  // ---- State --------------------------------------------------------------------------------

  datatype Pc = Starting | Executing | Awaiting | Failing | Finishing | Done

  /** `interrupted`: the worker failed while waiting for a continuation command. */
  datatype Worker = Worker(
    pc: Pc, alive: bool, run: int, count: nat, sent: nat, version: Text, emission: Emission,
    failed: bool, interrupted: bool)

  /** A decoded frame in the parent's inbox; a report carries the losses of its run so far. */
  datatype Item = Item(frame: Frame, parentDropped: nat)

  /** Where live events of a run were lost on the way to the sink. */
  datatype DeliveryStage = WorkerDelivery | ParentDelivery | ProjectionStage

  /** A synthetic gap event handed to the sink. */
  datatype Announcement = Announcement(stage: DeliveryStage, dropped: int, sequence: nat)

  /** How the live events of one finished run were accounted for; `sequence` is the last delivery before its gap events. */
  datatype Account = Account(
    receipt: Receipt, parentDropped: nat, unprojected: nat, handed: nat, skipped: nat, sequence: nat,
    announced: seq<Announcement>)

  /** The consumer loop; `muted` once a callback has failed. */
  datatype Consumer = Consumer(
    handed: nat, unprojected: nat, skipped: nat, muted: bool, reports: nat, sequence: nat, accounts: seq<Account>)

  /** A consumer that has handed over the starting notice and what followed it. */
  function Idle(reports: nat, sequence: nat): Consumer { Consumer(0, 0, 0, false, reports, sequence, []) }

  datatype Parent = Watching | Broken | Stopped

  datatype System = System(
    worker: Worker, outgoing: seq<Frame>, pipe: seq<Frame>, view: View, inbox: seq<Item>, liveLost: nat,
    command: Option<bool>, consumer: Consumer, parent: Parent, overflow: bool)

  datatype Session = Session(x: Expectation, maxRuns: Option<nat>)

  function Initial(): System {
    System(
      Worker(Starting, true, 1, 0, 0, [], Silence, false, false), [], [], Opening, [], 0, None,
      Idle(0, 1), Watching, false)
  }

  datatype Action =
    | SendReady(producer: Producer, wire: nat)
    | Attempt(body: Body, wire: nat)
    | SendReport(body: Body, wire: nat)
    | Fail
    | Interrupt
    | SendFailure(className: Text, message: Text, wire: nat)
    | SendTerminal(wire: nat)
    | Receive
    | Vanish
    | Write
    | Read
    | Consume(projected: bool, fails: Option<nat>, keep: bool)

  // ---- Worker actions -----------------------------------------------------------------------

  /** Emit a control frame: it takes the next sequence number, or the queue overflows. */
  function Send(c: Session, s: System, b: Body, wire: nat): System {
    var f := Frame(c.x.identity, s.worker.sent + 1, s.worker.run, b, wire);
    if ControlFits(s.outgoing, wire)
    then s.(outgoing := s.outgoing + [f], worker := s.worker.(sent := s.worker.sent + 1))
    else s.(overflow := true)
  }

  /** Offer an event: a refused one is dropped and takes no sequence number. */
  function Offer(c: Session, s: System, b: Body, wire: nat): System {
    var admitted := EventFits(s.outgoing, wire);
    var emission := Offered(s.worker.emission, b, admitted);
    if admitted then
      var f := Frame(c.x.identity, s.worker.sent + 1, s.worker.run, b, wire);
      s.(outgoing := s.outgoing + [f], worker := s.worker.(sent := s.worker.sent + 1, emission := emission))
    else s.(worker := s.worker.(emission := emission))
  }

  predicate WorkerMay(c: Session, w: Worker, command: Option<bool>, a: Action) {
    && w.alive
    && match a
       case SendReady(producer, wire) => w.pc == Starting && ProducerOk(producer) && wire <= MAX_FRAME_BYTES + HEADER_BYTES
       case Attempt(body, _) => w.pc == Executing && MayEmit(c.x.live, w.emission, body)
       case SendReport(body, wire) =>
         w.pc == Executing && ReportCloses(c.x.live, w.version, w.emission, body) && wire <= MAX_FRAME_BYTES + HEADER_BYTES
       case Fail => w.pc in {Starting, Executing}
       case Interrupt => w.pc == Awaiting
       case SendFailure(_, message, wire) => w.pc == Failing && |message| <= MAX_FAILURE_TEXT && wire <= MAX_FAILURE_WIRE
       case SendTerminal(wire) => w.pc == Finishing && wire <= MAX_TERMINAL_WIRE
       case Receive => w.pc == Awaiting && command.Some?
       case Vanish => true
       case _ => false
  }

  function WorkerStep(c: Session, s: System, a: Action): System
    requires WorkerMay(c, s.worker, s.command, a)
  {
    var w := s.worker;
    match a
    case SendReady(producer, wire) =>
      var t := Send(c, s, Ready(c.x.pid, producer), wire);
      t.(worker := t.worker.(pc := Executing, version := producer.native, emission := Silence))
    case Attempt(body, wire) => Offer(c, s, body, wire)
    case SendReport(body, wire) =>
      var t := Send(c, s, body, wire);
      t.(worker := t.worker.(pc := if c.x.server then Awaiting else Finishing, count := w.count + 1))
    case Fail => s.(worker := w.(pc := Failing))
    case Interrupt => s.(worker := w.(pc := Failing, interrupted := true))
    case SendFailure(className, message, wire) =>
      var t := Send(c, s, Failure(className, message), wire);
      t.(worker := t.worker.(pc := Finishing, failed := true))
    case SendTerminal(wire) =>
      var t := Send(c, s, Terminal(w.failed, w.count), wire);
      t.(worker := t.worker.(pc := Done))
    case Receive =>
      if !s.command.value then s.(command := None, worker := w.(pc := Finishing))
      else if c.maxRuns.Some? && w.count >= c.maxRuns.value then s.(command := None, worker := w.(pc := Failing, interrupted := true))
      else s.(command := None, worker := w.(pc := Executing, run := w.run + 1, emission := Silence))
    case _ => s.(worker := w.(alive := false))
  }

  // ---- Parent actions -----------------------------------------------------------------------

  function Frames(inbox: seq<Item>): seq<Frame> {
    seq(|inbox|, i requires 0 <= i < |inbox| => inbox[i].frame)
  }

  /** `accept` and then `put`: only events may be lost between them. */
  function ReadStep(c: Session, s: System): System
    requires s.pipe != []
  {
    var f := s.pipe[0];
    var t := s.(pipe := s.pipe[1..]);
    if !Accepts(c.x, s.view, f) then t.(parent := Broken)
    else
      var u := t.(view := After(c.x, s.view, f.body));
      if IsEventBody(f.body) then
        if EventFits(Frames(s.inbox), f.wire) then u.(inbox := s.inbox + [Item(f, 0)])
        else u.(liveLost := s.liveLost + if f.body.Live? then 1 else 0)
      else if !ControlFits(Frames(s.inbox), f.wire) then u.(parent := Broken, overflow := true)
      else if f.body.Report? then u.(inbox := s.inbox + [Item(f, s.liveLost)], liveLost := 0)
      else u.(inbox := s.inbox + [Item(f, 0)])
  }

  /** Hand a projected live event to the sink, count an unprojectable one, skip all once a callback has failed. */
  function Handed(k: Consumer, projected: bool, sinkFails: bool): Consumer {
    if k.muted then k.(skipped := k.skipped + 1)
    else if projected then k.(handed := k.handed + 1, sequence := k.sequence + 1, muted := sinkFails)
    else k.(unprojected := k.unprojected + 1, sequence := k.sequence + 1)
  }

  /** The losses of a run, in the order in which they are announced. */
  function Losses(receipt: Receipt, parentDropped: nat, unprojected: nat): seq<(DeliveryStage, int)> {
    [(WorkerDelivery, receipt.liveDropped), (ParentDelivery, parentDropped), (ProjectionStage, unprojected)]
  }

  /** One gap event for each loss that is not zero, numbered on. */
  function Announcements(sequence: nat, losses: seq<(DeliveryStage, int)>): seq<Announcement>
    decreases losses
  {
    if losses == [] then []
    else if losses[0].1 == 0 then Announcements(sequence, losses[1..])
    else [Announcement(losses[0].0, losses[0].1, sequence + 1)] + Announcements(sequence + 1, losses[1..])
  }

  /** What the sink is handed of some deliveries: nothing once muted, and nothing after the one on which it fails. */
  function Delivered(muted: bool, fails: Option<nat>, all: seq<Announcement>): seq<Announcement> {
    if muted then [] else if fails.Some? && fails.value < |all| then all[..fails.value + 1] else all
  }

  /** Close the account of a run: announce its losses, then hand over its result. */
  function Closed(k: Consumer, b: Body, parentDropped: nat, live: bool, fails: Option<nat>): Consumer
    requires b.Report?
  {
    var gaps := if live && b.capture.Some?
      then Announcements(k.sequence, Losses(b.capture.value, parentDropped, k.unprojected)) else [];
    k.(handed := 0, unprojected := 0, skipped := 0, reports := k.reports + 1, sequence := k.sequence + |gaps|,
       muted := k.muted || (fails.Some? && fails.value <= |gaps|),
       accounts := if !live || b.capture.None? then k.accounts
                   else k.accounts + [Account(b.capture.value, parentDropped, k.unprojected, k.handed, k.skipped, k.sequence,
                                              Delivered(k.muted, fails, gaps))])
  }

  /** The loop's step on the oldest message; `fails` is the callback of this step that raises, if one does. */
  function ConsumeStep(c: Session, s: System, projected: bool, fails: Option<nat>, keep: bool): System
    requires s.inbox != []
  {
    var item := s.inbox[0];
    var t := s.(inbox := s.inbox[1..]);
    match item.frame.body
    case Ready(_, _) =>
      t.(consumer := s.consumer.(sequence := s.consumer.sequence + 1, muted := s.consumer.muted || fails.Some?))
    case Event(_, _, _, _) => t.(consumer := s.consumer.(muted := s.consumer.muted || fails.Some?))
    case Live(_, _, _, _, _) => t.(consumer := Handed(s.consumer, projected, fails.Some?))
    case Report(_, _, _, _, _, _, _, _, _, _) =>
      var k := Closed(s.consumer, item.frame.body, item.parentDropped, c.x.live, fails);
      var u := t.(consumer := k);
      if !c.x.server then u
      else if s.view.phase != Continuation then u.(parent := Stopped)
      else
        var on := keep && !k.muted && (c.maxRuns.None? || k.reports < c.maxRuns.value);
        u.(view := Authorised(s.view, on), command := Some(on))
    case _ => t
  }

  predicate May(c: Session, s: System, a: Action) {
    match a
    case Write => s.outgoing != []
    case Read => s.pipe != [] && s.parent == Watching
    case Consume(_, _, _) => s.inbox != [] && s.parent == Watching
    case _ => WorkerMay(c, s.worker, s.command, a)
  }

  function Step(c: Session, s: System, a: Action): System
    requires May(c, s, a)
  {
    match a
    case Write => s.(outgoing := s.outgoing[1..], pipe := s.pipe + [s.outgoing[0]])
    case Read => ReadStep(c, s)
    case Consume(projected, fails, keep) => ConsumeStep(c, s, projected, fails, keep)
    case _ => WorkerStep(c, s, a)
  }

  /** The state after a run, if every action of it was enabled in turn. */
  function Reached(c: Session, actions: seq<Action>): Option<System> {
    if actions == [] then Some(Initial())
    else
      match Reached(c, actions[..|actions| - 1])
      case None => None
      case Some(s) =>
        if May(c, s, actions[|actions| - 1]) then Some(Step(c, s, actions[|actions| - 1])) else None
  }
}
