/**
 The messages of one worker session and the parent's validation of them (`_Responses`, `_validate_live_frame`
 and `_validate_capture` of `_execution.py`; the session envelope of `_ipc.py`).
 */
module WorkerMessages {
  import opened Options
  import opened JsonFrames

  const MAX_COUNTER := 0x7FFF_FFFF_FFFF_FFFF

  datatype Stage = CaptureStage | RetentionStage

  datatype LiveKind =
    | NativeStart | Interval | NativeEnd | NativeDocument | NativeError | UnknownKind | ServerOutput
    | MalformedPayload | DeliveryGap

  datatype LiveData =
    | Plain(value: Json)
    | Tagged(nativeKind: Text, payload: Json)
    | Sample(errorType: Text, sample: Text)
    | Gap(stage: Stage, dropped: int)

  /** A JSON number that is finite, or anything else. */
  type Number = Option<real>

  predicate FiniteNumber(n: Number) { n.Some? && n.value >= 0.0 }

  datatype Producer = Producer(package: Text, python: Text, native: Text, selector: bool)

  datatype Source = Callback | Getter

  datatype Receipt = Receipt(
    callbacks: int, copied: int, captureDropped: int, malformed: int, retentionDropped: int,
    liveEmitted: int, liveDropped: int, complete: bool, source: Option<Source>,
    getterError: Option<Text>, reconstructionComplete: bool, diagnostics: seq<Text>, defaultLimits: bool)

  datatype Body =
    | Ready(pid: int, producer: Producer)
    | Event(eventKind: Text, eventData: Json, sequence: int, eventTime: Number)
    | Live(kind: LiveKind, data: LiveData, captureSequence: Option<int>, offset: Number, time: Number)
    | Report(raw: Json, evidence: Json, error: Option<Text>, startedAt: Number, completedAt: Number, elapsed: Number,
             emitted: int, dropped: int, version: Text, capture: Option<Receipt>)
    | Failure(className: Text, message: Text)
    | Terminal(failed: bool, runs: int)

  datatype Identity = Identity(requestId: string, workerId: string)

  /** `wire` counts the frame's bytes, header included. */
  datatype Frame = Frame(identity: Identity, sequence: int, run: int, body: Body, wire: nat)

  predicate IsEventBody(b: Body) { b.Event? || b.Live? }

  // ---- Payload checks -----------------------------------------------------------------------

  const MAX_TEXT := 256
  const MAX_DIAGNOSTICS := 8

  function Dropped(r: Receipt, stage: Stage): int {
    match stage
    case CaptureStage => r.captureDropped
    case RetentionStage => r.retentionDropped
  }

  /** `_validate_live_frame`. */
  predicate LiveFrameOk(b: Body)
    requires b.Live?
  {
    && (b.kind != DeliveryGap ==> FiniteNumber(b.offset) && FiniteNumber(b.time))
    && (b.captureSequence.Some? ==> 0 < b.captureSequence.value <= MAX_COUNTER)
    && match b.kind
       case DeliveryGap =>
         b.captureSequence.None? && b.offset.None? && b.time.None? && b.data.Gap? && b.data.dropped > 0
       case MalformedPayload =>
         b.captureSequence.Some? && b.data.Sample? && |b.data.errorType| <= MAX_TEXT && |b.data.sample| <= MAX_TEXT
       case NativeError => b.captureSequence.Some? && b.data.Plain? && (b.data.value.Str? || b.data.value.Obj?)
       case UnknownKind => b.captureSequence.Some? && b.data.Tagged?
       case ServerOutput => b.captureSequence.Some? && b.data.Tagged?
       case _ => b.captureSequence.Some? && b.data.Plain? && b.data.value.Obj?
  }

  predicate CounterOk(n: int) { 0 <= n <= MAX_COUNTER }

  /** `_validate_capture`. */
  predicate ReceiptOk(r: Receipt) {
    && CounterOk(r.callbacks) && CounterOk(r.copied) && CounterOk(r.captureDropped) && CounterOk(r.malformed)
    && CounterOk(r.retentionDropped) && CounterOk(r.liveEmitted) && CounterOk(r.liveDropped)
    && r.defaultLimits
    && |r.diagnostics| <= MAX_DIAGNOSTICS && (forall i :: 0 <= i < |r.diagnostics| ==> |r.diagnostics[i]| <= MAX_TEXT)
    && (r.getterError.Some? ==> |r.getterError.value| <= MAX_TEXT)
    && r.callbacks == r.copied + r.captureDropped
    && r.malformed <= r.copied && r.retentionDropped <= r.copied && r.liveDropped <= r.liveEmitted
    && r.complete == r.source.Some?
    && r.reconstructionComplete == (r.captureDropped == 0 && r.malformed == 0 && r.retentionDropped == 0)
  }

  predicate ProducerOk(p: Producer) { p.package != [] && p.python != [] && p.native != [] && p.selector }

  // ---- The parent's view --------------------------------------------------------------------

  datatype Phase = Startup | Running | Continuation | Ending | Closed

  /** What the parent knows of the session after the frames it has accepted. */
  datatype View = View(
    incoming: nat, run: int, runs: nat, phase: Phase, producer: Option<Producer>, failed: bool,
    eventSequence: int, liveReceived: nat, captureSequence: int, arrivalOffset: real, gaps: map<Stage, int>)

  /** What the parent expects of this session. */
  datatype Expectation = Expectation(identity: Identity, server: bool, pid: int, live: bool)

  const Opening := View(0, 1, 0, Startup, None, false, 0, 0, 0, 0.0, map[])

  predicate EnvelopeOk(x: Expectation, v: View, f: Frame) {
    && f.identity == x.identity
    && f.sequence == v.incoming + 1
    && v.phase != Closed
    && f.run == v.run
  }

  predicate ReadyOk(x: Expectation, v: View, b: Body)
    requires b.Ready?
  {
    v.phase == Startup && b.pid == x.pid && ProducerOk(b.producer)
  }

  predicate EventOk(v: View, b: Body)
    requires b.Event?
  {
    v.phase == Running && b.sequence > v.eventSequence && FiniteNumber(b.eventTime)
  }

  predicate LiveOk(x: Expectation, v: View, b: Body)
    requires b.Live?
  {
    && v.phase == Running && x.live && LiveFrameOk(b)
    && (b.captureSequence.Some? ==>
          b.captureSequence.value > v.captureSequence && v.gaps == map[] && b.offset.value >= v.arrivalOffset)
    && (b.captureSequence.None? ==> b.data.stage !in v.gaps)
  }

  predicate ReceiptAgrees(x: Expectation, v: View, r: Receipt) {
    && ReceiptOk(r)
    && r.liveEmitted == v.liveReceived + r.liveDropped
    && v.captureSequence <= r.callbacks
    && (!x.live ==> r.liveEmitted == 0)
    && forall stage :: stage in v.gaps ==> Dropped(r, stage) == v.gaps[stage]
  }

  predicate ReportOk(x: Expectation, v: View, b: Body)
    requires b.Report?
  {
    && v.phase == Running && b.raw.Obj? && b.evidence.Obj?
    && FiniteNumber(b.startedAt) && FiniteNumber(b.completedAt) && FiniteNumber(b.elapsed)
    && 0 <= b.dropped <= b.emitted && v.eventSequence <= b.emitted
    && v.producer.Some? && b.version == v.producer.value.native
    && (x.live ==> b.capture.Some?)
    && (b.capture.Some? ==> ReceiptAgrees(x, v, b.capture.value))
  }

  predicate BodyOk(x: Expectation, v: View, b: Body) {
    match b
    case Ready(_, _) => ReadyOk(x, v, b)
    case Event(_, _, _, _) => EventOk(v, b)
    case Live(_, _, _, _, _) => LiveOk(x, v, b)
    case Report(_, _, _, _, _, _, _, _, _, _) => ReportOk(x, v, b)
    case Failure(_, _) => !v.failed
    case Terminal(failed, runs) => v.phase == Ending && runs == v.runs && failed == v.failed
  }

  predicate Accepts(x: Expectation, v: View, f: Frame) { EnvelopeOk(x, v, f) && BodyOk(x, v, f.body) }

  /** The view after an accepted body. */
  function After(x: Expectation, v: View, b: Body): View {
    var w := v.(incoming := v.incoming + 1);
    match b
    case Ready(_, producer) => w.(producer := Some(producer), phase := Running)
    case Event(_, _, sequence, _) => w.(eventSequence := sequence)
    case Live(_, data, captureSequence, offset, _) =>
      var counted := w.(liveReceived := v.liveReceived + 1);
      if captureSequence.Some? && offset.Some?
      then counted.(captureSequence := captureSequence.value, arrivalOffset := offset.value)
      else if data.Gap? then counted.(gaps := v.gaps[data.stage := data.dropped])
      else counted
    case Report(_, _, _, _, _, _, _, _, _, _) => w.(runs := v.runs + 1, phase := if x.server then Continuation else Ending)
    case Failure(_, _) => w.(failed := true, phase := Ending)
    case Terminal(_, _) => w.(phase := Closed)
  }

  /** `continue_run`: authorise the next run, or none, before the worker can see the command. */
  function Authorised(v: View, keep: bool): View
    requires v.phase == Continuation
  {
    if keep
    then v.(run := v.run + 1, eventSequence := 0, liveReceived := 0, captureSequence := 0, arrivalOffset := 0.0,
            gaps := map[], phase := Running)
    else v.(phase := Ending)
  }

  // ---- The validator itself -----------------------------------------------------------------

  /** `_Responses`. */
  class Responses {
    const x: Expectation
    var incoming: nat
    var run: int
    var runs: nat
    var phase: Phase
    var producer: Option<Producer>
    var failed: bool
    var eventSequence: int
    var liveReceived: nat
    var captureSequence: int
    var arrivalOffset: real
    var gaps: map<Stage, int>

    ghost function Seen(): View
      reads this
    {
      View(incoming, run, runs, phase, producer, failed, eventSequence, liveReceived, captureSequence, arrivalOffset, gaps)
    }

    constructor (x: Expectation)
      ensures this.x == x && Seen() == Opening
    {
      this.x := x;
      incoming, run, runs, phase, producer, failed := 0, 1, 0, Startup, None, false;
      eventSequence, liveReceived, captureSequence, arrivalOffset, gaps := 0, 0, 0, 0.0, map[];
    }

    /** Session identity and contiguous numbering. */
    method ValidateEnvelope(f: Frame) returns (ok: bool)
      ensures ok <==> EnvelopeOk(x, Seen(), f)
    {
      if f.identity != x.identity { return false; }
      if f.sequence != incoming + 1 { return false; }
      if phase == Closed { return false; }
      return f.run == run;
    }

    method AcceptLive(b: Body) returns (ok: bool)
      requires b.Live?
      modifies this`captureSequence, this`gaps, this`arrivalOffset, this`liveReceived
      ensures ok <==> LiveOk(x, old(Seen()), b)
      ensures ok ==> Seen() == After(x, old(Seen()), b).(incoming := incoming)
    {
      if phase != Running || !x.live { return false; }
      if !LiveFrameOk(b) { return false; }
      if b.captureSequence.Some? && b.captureSequence.value <= captureSequence { return false; }
      if b.captureSequence.Some? && gaps != map[] { return false; }
      if b.captureSequence.Some? && b.offset.value < arrivalOffset { return false; }
      if b.captureSequence.Some? {
        captureSequence := b.captureSequence.value;
      } else {
        if b.data.stage in gaps { return false; }
        gaps := gaps[b.data.stage := b.data.dropped];
      }
      if b.captureSequence.Some? { arrivalOffset := b.offset.value; }
      liveReceived := liveReceived + 1;
      return true;
    }

    method CheckReport(b: Body) returns (ok: bool)
      requires b.Report?
      ensures ok <==> ReportOk(x, Seen(), b)
    {
      if phase != Running || !b.raw.Obj? || !b.evidence.Obj? { return false; }
      if !FiniteNumber(b.startedAt) || !FiniteNumber(b.completedAt) || !FiniteNumber(b.elapsed) { return false; }
      if b.emitted < 0 || b.dropped < 0 || b.dropped > b.emitted || b.emitted < eventSequence { return false; }
      if producer.None? || b.version != producer.value.native { return false; }
      if b.capture.None? { return !x.live; }
      var r := b.capture.value;
      if !ReceiptOk(r) { return false; }
      if r.liveEmitted != liveReceived + r.liveDropped || captureSequence > r.callbacks { return false; }
      if !x.live && r.liveEmitted != 0 { return false; }
      if CaptureStage in gaps && r.captureDropped != gaps[CaptureStage] { return false; }
      if RetentionStage in gaps && r.retentionDropped != gaps[RetentionStage] { return false; }
      return true;
    }

    /** `accept`: refuse the frame, or take it into the view. A refusal ends the session. */
    method Accept(f: Frame) returns (ok: bool)
      modifies this
      ensures ok <==> Accepts(x, old(Seen()), f)
      ensures ok ==> Seen() == After(x, old(Seen()), f.body)
    {
      ok := ValidateEnvelope(f);
      if !ok { return; }
      incoming := incoming + 1;
      match f.body
      case Ready(pid, p) =>
        if phase != Startup || pid != x.pid || !ProducerOk(p) { return false; }
        producer, phase := Some(p), Running;
      case Event(_, _, sequence, time) =>
        if phase != Running || sequence <= eventSequence || !FiniteNumber(time) { return false; }
        eventSequence := sequence;
      case Live(_, _, _, _, _) =>
        ok := AcceptLive(f.body);
      case Report(_, _, _, _, _, _, _, _, _, _) =>
        ok := CheckReport(f.body);
        if !ok { return; }
        runs := runs + 1;
        phase := if x.server then Continuation else Ending;
      case Failure(_, _) =>
        if failed { return false; }
        failed, phase := true, Ending;
      case Terminal(status, count) =>
        if phase != Ending || count != runs || status != failed { return false; }
        phase := Closed;
    }

    /** `continue_run`. */
    method ContinueRun(keep: bool) returns (completed: Option<int>)
      modifies this
      ensures completed.Some? <==> old(phase) == Continuation
      ensures completed.Some? ==> completed.value == old(run) && Seen() == Authorised(old(Seen()), keep)
      ensures completed.None? ==> Seen() == old(Seen())
    {
      if phase != Continuation { return None; }
      completed := Some(run);
      if keep {
        run := run + 1;
        eventSequence, liveReceived, captureSequence, arrivalOffset, gaps := 0, 0, 0, 0.0, map[];
        phase := Running;
      } else {
        phase := Ending;
      }
    }
  }
}
