/**
 What the parent's validator lets through (`_Responses` of `_execution.py`), read off the transcript of a session:
 the frames received and the continuations sent between them, with none of the validator's own counters.
 */
module AcceptedSessions {
  import opened Options
  import opened JsonFrames
  import opened WorkerMessages
  import WorkerComposition

  /** A frame from the worker, or the answer to its wait for another run. */
  datatype Entry = Got(frame: Frame) | Told(keep: bool)

  type Transcript = seq<Entry>

  // ---- Reading a transcript -----------------------------------------------------------------

  /** How many frames were received. */
  function Heard(s: Transcript): nat {
    if s == [] then 0 else Heard(s[..|s| - 1]) + if s[|s| - 1].Got? then 1 else 0
  }

  /** How many further runs were asked for. */
  function Continued(s: Transcript): nat {
    if s == [] then 0 else Continued(s[..|s| - 1]) + if s[|s| - 1] == Told(true) then 1 else 0
  }

  /** How many runs were reported. */
  function Reports(s: Transcript): nat {
    if s == [] then 0 else Reports(s[..|s| - 1]) + if IsReport(s[|s| - 1]) then 1 else 0
  }

  /** How many typed events the current run has delivered. */
  function Lives(s: Transcript): nat {
    if s == [] || s[|s| - 1] == Told(true) then 0
    else Lives(s[..|s| - 1]) + if s[|s| - 1].Got? && s[|s| - 1].frame.body.Live? then 1 else 0
  }

  predicate IsReady(e: Entry) { e.Got? && e.frame.body.Ready? }

  predicate IsReport(e: Entry) { e.Got? && e.frame.body.Report? }

  predicate IsFailure(e: Entry) { e.Got? && e.frame.body.Failure? }

  predicate IsTerminal(e: Entry) { e.Got? && e.frame.body.Terminal? }

  ghost predicate Readied(s: Transcript) { exists k :: 0 <= k < |s| && IsReady(s[k]) }

  ghost predicate Failed(s: Transcript) { exists k :: 0 <= k < |s| && IsFailure(s[k]) }

  ghost predicate Ended(s: Transcript) { exists k :: 0 <= k < |s| && IsTerminal(s[k]) }

  ghost predicate Declined(s: Transcript) { Told(false) in s }

  /** Entry `k` is a frame of the current run: no further run was asked for since. */
  predicate Recent(s: Transcript, k: nat) {
    k < |s| && s[k].Got? && forall j :: k < j < |s| ==> s[j] != Told(true)
  }

  ghost predicate Reported(s: Transcript) { exists k: nat :: Recent(s, k) && IsReport(s[k]) }

  predicate EventAt(s: Transcript, k: nat) { Recent(s, k) && s[k].frame.body.Event? }

  predicate NumberedAt(s: Transcript, k: nat) {
    && Recent(s, k) && s[k].frame.body.Live?
    && s[k].frame.body.captureSequence.Some? && s[k].frame.body.offset.Some?
  }

  predicate GapAt(s: Transcript, k: nat) { Recent(s, k) && s[k].frame.body.Live? && s[k].frame.body.data.Gap? }

  /** The worker is ready and its current run has neither been reported nor cut short. */
  ghost predicate Open(s: Transcript) { Readied(s) && !Failed(s) && !Declined(s) && !Reported(s) && !Ended(s) }

  /** A server has reported its run and waits to be told. */
  ghost predicate Waiting(x: Expectation, s: Transcript) {
    x.server && !Failed(s) && !Declined(s) && Reported(s) && !Ended(s)
  }

  /** Only the terminal receipt is missing, or a failure before it. */
  ghost predicate Closing(x: Expectation, s: Transcript) {
    (Failed(s) || Declined(s) || (!x.server && Reported(s))) && !Ended(s)
  }

  // ---- What a frame must be after a transcript ----------------------------------------------

  ghost predicate EventSound(s: Transcript, b: Body)
    requires b.Event?
  {
    && Open(s) && b.sequence > 0 && b.eventTime.Some? && b.eventTime.value >= 0.0
    && forall k: nat :: EventAt(s, k) ==> s[k].frame.body.sequence < b.sequence
  }

  /** The form of a numbered typed event. */
  predicate NumberedForm(b: Body)
    requires b.Live?
  {
    && b.captureSequence.Some? && 0 < b.captureSequence.value < 0x8000_0000_0000_0000
    && b.offset.Some? && b.offset.value >= 0.0 && b.time.Some? && b.time.value >= 0.0
    && (b.kind in {NativeStart, Interval, NativeEnd, NativeDocument} ==> b.data.Plain? && b.data.value.Obj?)
    && (b.kind == NativeError ==> b.data.Plain? && (b.data.value.Str? || b.data.value.Obj?))
    && (b.kind in {UnknownKind, ServerOutput} ==> b.data.Tagged?)
    && (b.kind == MalformedPayload ==> b.data.Sample? && |b.data.errorType| <= 256 && |b.data.sample| <= 256)
    && b.kind != DeliveryGap
  }

  predicate GapForm(b: Body)
    requires b.Live?
  {
    && b.kind == DeliveryGap && b.data.Gap? && b.data.dropped > 0
    && b.captureSequence.None? && b.offset.None? && b.time.None?
  }

  /** Numbered events rise with their offsets; each stage's gap comes once, after all of them. */
  ghost predicate LiveSound(x: Expectation, s: Transcript, b: Body)
    requires b.Live?
  {
    && Open(s) && x.live
    && ((NumberedForm(b) && (forall k: nat :: !GapAt(s, k))
         && forall k: nat :: NumberedAt(s, k) ==>
              && s[k].frame.body.captureSequence.value < b.captureSequence.value
              && s[k].frame.body.offset.value <= b.offset.value)
        || (GapForm(b) && forall k: nat :: GapAt(s, k) ==> s[k].frame.body.data.stage != b.data.stage))
  }

  /** The counters of a capture receipt agree with one another. */
  predicate Consistent(r: Receipt) {
    && (forall n :: n in [r.callbacks, r.copied, r.captureDropped, r.malformed, r.retentionDropped, r.liveEmitted, r.liveDropped]
          ==> 0 <= n < 0x8000_0000_0000_0000)
    && r.copied + r.captureDropped == r.callbacks
    && r.malformed <= r.copied && r.retentionDropped <= r.copied && r.liveDropped <= r.liveEmitted
    && (r.complete <==> r.source.Some?)
    && (r.reconstructionComplete <==> r.captureDropped == 0 && r.malformed == 0 && r.retentionDropped == 0)
    && r.defaultLimits && |r.diagnostics| <= 8 && (forall i :: 0 <= i < |r.diagnostics| ==> |r.diagnostics[i]| <= 256)
    && (r.getterError.Some? ==> |r.getterError.value| <= 256)
  }

  /** The counters of a capture receipt agree with the typed events of the run. */
  ghost predicate ReceiptSound(x: Expectation, s: Transcript, r: Receipt) {
    && Consistent(r)
    && r.liveEmitted - r.liveDropped == Lives(s) && (!x.live ==> r.liveEmitted == 0)
    && (forall k: nat :: NumberedAt(s, k) ==> s[k].frame.body.captureSequence.value <= r.callbacks)
    && forall k: nat :: GapAt(s, k) ==>
         s[k].frame.body.data.dropped ==
           if s[k].frame.body.data.stage == CaptureStage then r.captureDropped else r.retentionDropped
  }

  ghost predicate ReportSound(x: Expectation, s: Transcript, b: Body)
    requires b.Report?
  {
    && Open(s) && b.raw.Obj? && b.evidence.Obj?
    && (forall n :: n in [b.startedAt, b.completedAt, b.elapsed] ==> n.Some? && n.value >= 0.0)
    && 0 <= b.dropped <= b.emitted
    && (forall k: nat :: EventAt(s, k) ==> s[k].frame.body.sequence <= b.emitted)
    && (forall k :: 0 <= k < |s| && IsReady(s[k]) ==> b.version == s[k].frame.body.producer.native)
    && (if b.capture.Some? then ReceiptSound(x, s, b.capture.value) else !x.live)
  }

  ghost predicate FrameSound(x: Expectation, s: Transcript, f: Frame) {
    && f.identity == x.identity && f.sequence == Heard(s) + 1 && f.run == Continued(s) + 1 && !Ended(s)
    && match f.body
       case Ready(pid, p) =>
         !Readied(s) && !Failed(s) && pid == x.pid && p.package != [] && p.python != [] && p.native != [] && p.selector
       case Event(_, _, _, _) => EventSound(s, f.body)
       case Live(_, _, _, _, _) => LiveSound(x, s, f.body)
       case Report(_, _, _, _, _, _, _, _, _, _) => ReportSound(x, s, f.body)
       case Failure(_, _) => !Failed(s)
       case Terminal(failed, runs) => Closing(x, s) && runs == Reports(s) && (failed <==> Failed(s))
  }

  ghost predicate EntrySound(x: Expectation, s: Transcript, e: Entry) {
    if e.Got? then FrameSound(x, s, e.frame) else Waiting(x, s)
  }

  /** Every entry may follow those before it. */
  ghost predicate Sound(x: Expectation, s: Transcript) {
    forall n :: 0 <= n < |s| ==> EntrySound(x, s[..n], s[n])
  }

  // ---- The validator over a transcript ------------------------------------------------------

  function Step(x: Expectation, v: View, e: Entry): Option<View> {
    match e
    case Got(f) => if Accepts(x, v, f) then Some(After(x, v, f.body)) else None
    case Told(keep) => if v.phase == Continuation then Some(Authorised(v, keep)) else None
  }

  /** The view after a transcript, unless something in it was refused. */
  function Play(x: Expectation, s: Transcript): Option<View> {
    if s == [] then Some(Opening)
    else match Play(x, s[..|s| - 1])
      case None => None
      case Some(v) => Step(x, v, s[|s| - 1])
  }

  // ---- One more entry -----------------------------------------------------------------------

  lemma RecentNext(s: Transcript, e: Entry, k: nat)
    ensures Recent(s + [e], k) <==> (k == |s| && e.Got?) || (k < |s| && Recent(s, k) && e != Told(true))
  {
    var t := s + [e];
    assert t[|s|] == e;
    assert forall j :: 0 <= j < |s| ==> t[j] == s[j];
  }

  lemma CountsNext(s: Transcript, e: Entry)
    ensures Heard(s + [e]) == Heard(s) + if e.Got? then 1 else 0
    ensures Continued(s + [e]) == Continued(s) + if e == Told(true) then 1 else 0
    ensures Reports(s + [e]) == Reports(s) + if IsReport(e) then 1 else 0
    ensures Lives(s + [e]) ==
      if e == Told(true) then 0 else Lives(s) + if e.Got? && e.frame.body.Live? then 1 else 0
  {
    assert (s + [e])[..|s|] == s && (s + [e])[|s|] == e;
  }

  lemma FactsNext(s: Transcript, e: Entry)
    ensures Readied(s + [e]) <==> Readied(s) || IsReady(e)
    ensures Failed(s + [e]) <==> Failed(s) || IsFailure(e)
    ensures Ended(s + [e]) <==> Ended(s) || IsTerminal(e)
    ensures Declined(s + [e]) <==> Declined(s) || e == Told(false)
    ensures Reported(s + [e]) <==> IsReport(e) || (Reported(s) && e != Told(true))
  {
    var t := s + [e];
    assert t[|s|] == e;
    assert forall j :: 0 <= j < |s| ==> t[j] == s[j];
    if k :| 0 <= k < |s| && IsReady(s[k]) { assert IsReady(t[k]); }
    if k :| 0 <= k < |s| && IsFailure(s[k]) { assert IsFailure(t[k]); }
    if k :| 0 <= k < |s| && IsTerminal(s[k]) { assert IsTerminal(t[k]); }
    forall k: nat { RecentNext(s, e, k); }
    if IsReport(e) { assert Recent(t, |s|) && IsReport(t[|s|]); }
    if Reported(s) && e != Told(true) {
      var k: nat :| Recent(s, k) && IsReport(s[k]);
      assert Recent(t, k) && IsReport(t[k]);
    }
  }

  // ---- What the view knows ------------------------------------------------------------------

  ghost predicate Phases(x: Expectation, s: Transcript, phase: Phase) {
    && (phase == Startup <==> !Readied(s) && !Failed(s))
    && (phase == Running <==> Open(s))
    && (phase == Continuation <==> Waiting(x, s))
    && (phase == Ending <==> Closing(x, s))
    && (phase == Closed <==> Ended(s))
  }

  ghost predicate Knows(s: Transcript, v: View) {
    && v.incoming == Heard(s) && v.run == Continued(s) + 1 && v.runs == Reports(s) && (v.failed <==> Failed(s))
    && v.liveReceived == Lives(s)
    && (v.producer.Some? <==> Readied(s))
    && forall k :: 0 <= k < |s| && IsReady(s[k]) ==> v.producer == Some(s[k].frame.body.producer)
  }

  /** `top` is the greatest event number of the run, or zero. */
  ghost predicate TopEvent(s: Transcript, top: int) {
    && top >= 0 && (forall k: nat :: EventAt(s, k) ==> s[k].frame.body.sequence <= top)
    && (top > 0 ==> exists k: nat :: EventAt(s, k) && s[k].frame.body.sequence == top)
  }

  ghost predicate TopCapture(s: Transcript, top: int, offset: real) {
    && top >= 0 && offset >= 0.0
    && (forall k: nat :: NumberedAt(s, k) ==>
          s[k].frame.body.captureSequence.value <= top && s[k].frame.body.offset.value <= offset)
    && (top > 0 ==> exists k: nat :: NumberedAt(s, k) && s[k].frame.body.captureSequence.value == top)
    && (offset > 0.0 ==> exists k: nat :: NumberedAt(s, k) && s[k].frame.body.offset.value == offset)
  }

  ghost predicate GapsSeen(s: Transcript, gaps: map<Stage, int>) {
    && (forall k: nat :: GapAt(s, k) ==>
          s[k].frame.body.data.stage in gaps && gaps[s[k].frame.body.data.stage] == s[k].frame.body.data.dropped)
    && forall stage :: stage in gaps ==> exists k: nat :: GapAt(s, k) && s[k].frame.body.data.stage == stage
  }

  ghost predicate Reflects(x: Expectation, s: Transcript, v: View) {
    && Phases(x, s, v.phase) && Knows(s, v)
    && TopEvent(s, v.eventSequence) && TopCapture(s, v.captureSequence, v.arrivalOffset) && GapsSeen(s, v.gaps)
  }

  lemma OpeningReflects(x: Expectation)
    ensures Reflects(x, [], Opening)
  {}

  // ---- Accepting is being sound -------------------------------------------------------------

  lemma EventMeans(x: Expectation, s: Transcript, v: View, b: Body)
    requires Reflects(x, s, v) && b.Event?
    ensures EventOk(v, b) <==> EventSound(s, b)
  {
    hide Open, EventAt, TopCapture, GapsSeen, Knows, Waiting, Closing, Readied, Failed, Ended;
  }

  lemma FormsMean(b: Body)
    requires b.Live?
    ensures LiveFrameOk(b) && b.captureSequence.Some? <==> NumberedForm(b)
    ensures LiveFrameOk(b) && b.captureSequence.None? <==> GapForm(b)
  {}

  lemma LiveMeans(x: Expectation, s: Transcript, v: View, b: Body)
    requires Reflects(x, s, v) && b.Live?
    ensures LiveOk(x, v, b) <==> LiveSound(x, s, b)
  {
    hide Open, GapAt, NumberedAt, TopEvent, Knows, Waiting, Closing, Readied, Failed, Ended, LiveFrameOk;
    FormsMean(b);
    NoGapsSeen(s, v.gaps);
  }

  lemma NoGapsSeen(s: Transcript, gaps: map<Stage, int>)
    requires GapsSeen(s, gaps)
    ensures gaps == map[] <==> forall k: nat :: !GapAt(s, k)
  {
    hide GapAt;
  }

  lemma ConsistentMeans(r: Receipt)
    ensures ReceiptOk(r) <==> Consistent(r)
  {
    var all := [r.callbacks, r.copied, r.captureDropped, r.malformed, r.retentionDropped, r.liveEmitted, r.liveDropped];
    assert all[0] in all && all[1] in all && all[2] in all && all[3] in all && all[4] in all && all[5] in all && all[6] in all;
  }

  lemma ReceiptMeans(x: Expectation, s: Transcript, v: View, r: Receipt)
    requires Reflects(x, s, v)
    ensures ReceiptAgrees(x, v, r) <==> ReceiptSound(x, s, r)
  {
    hide Phases, GapAt, NumberedAt, TopEvent, ReceiptOk, Consistent, Readied, Failed, Lives;
    ConsistentMeans(r);
    if Consistent(r) { CountersAreNatural(r); }
  }

  lemma CountersAreNatural(r: Receipt)
    requires Consistent(r)
    ensures r.callbacks >= 0
  {
    ConsistentMeans(r);
  }

  lemma ReportMeans(x: Expectation, s: Transcript, v: View, b: Body)
    requires Reflects(x, s, v) && b.Report?
    ensures ReportOk(x, v, b) <==> ReportSound(x, s, b)
  {
    hide GapAt, NumberedAt, EventAt, TopCapture, GapsSeen, ReceiptAgrees, ReceiptSound, Failed, Ended, Reported;
    if b.capture.Some? { ReceiptMeans(x, s, v, b.capture.value); }
    TimesMean(b);
    if Open(s) { ProducerMeans(s, v, b.version); }
    EventsBelow(s, v.eventSequence, b.emitted);
  }

  lemma EventsBelow(s: Transcript, top: int, emitted: int)
    requires TopEvent(s, top)
    ensures top <= emitted <==> 0 <= emitted && forall k: nat :: EventAt(s, k) ==> s[k].frame.body.sequence <= emitted
  {
    hide Recent;
  }

  lemma TimesMean(b: Body)
    requires b.Report?
    ensures FiniteNumber(b.startedAt) && FiniteNumber(b.completedAt) && FiniteNumber(b.elapsed) <==>
      forall n :: n in [b.startedAt, b.completedAt, b.elapsed] ==> n.Some? && n.value >= 0.0
  {
    var ns := [b.startedAt, b.completedAt, b.elapsed];
    assert ns[0] in ns && ns[1] in ns && ns[2] in ns;
  }

  lemma ProducerMeans(s: Transcript, v: View, version: Text)
    requires Knows(s, v) && Readied(s)
    ensures v.producer.Some?
    ensures version == v.producer.value.native <==>
      forall k :: 0 <= k < |s| && IsReady(s[k]) ==> version == s[k].frame.body.producer.native
  {}

  /** One frame: the validator takes it exactly when it may follow the transcript. */
  lemma AcceptsMeans(x: Expectation, s: Transcript, v: View, f: Frame)
    requires Reflects(x, s, v)
    ensures Accepts(x, v, f) <==> FrameSound(x, s, f)
  {
    hide EventOk, EventSound, LiveOk, LiveSound, ReportOk, ReportSound, Readied, Failed, Ended, Closing, Open, Waiting,
      TopEvent, TopCapture, GapsSeen;
    match f.body
    case Event(_, _, _, _) => EventMeans(x, s, v, f.body);
    case Live(_, _, _, _, _) => LiveMeans(x, s, v, f.body);
    case Report(_, _, _, _, _, _, _, _, _, _) => ReportMeans(x, s, v, f.body);
    case _ =>
  }

  // ---- The view follows the transcript ------------------------------------------------------

  lemma EventTops(s: Transcript, e: Entry, top: int)
    requires TopEvent(s, top)
    ensures e == Told(true) ==> TopEvent(s + [e], 0)
    ensures e.Got? && e.frame.body.Event? && e.frame.body.sequence > top ==> TopEvent(s + [e], e.frame.body.sequence)
    ensures e != Told(true) && !(e.Got? && e.frame.body.Event?) ==> TopEvent(s + [e], top)
  {
    hide Recent;
    var t := s + [e];
    assert t[|s|] == e && forall j :: 0 <= j < |s| ==> t[j] == s[j];
    forall k: nat ensures Recent(t, k) <==> (k == |s| && e.Got?) || (k < |s| && Recent(s, k) && e != Told(true)) {
      RecentNext(s, e, k);
    }
    RecentInside(t);
    RecentInside(s);
    if e.Got? { assert Recent(t, |s|); }
    if e != Told(true) && top > 0 {
      var k: nat :| EventAt(s, k) && s[k].frame.body.sequence == top;
      assert Recent(t, k);
    }
  }

  lemma RecentInside(s: Transcript)
    ensures forall k: nat :: Recent(s, k) ==> k < |s| && s[k].Got?
  {}

  lemma CaptureTops(s: Transcript, e: Entry, top: int, offset: real)
    requires TopCapture(s, top, offset)
    ensures e == Told(true) ==> TopCapture(s + [e], 0, 0.0)
    ensures Numbers(e) && e.frame.body.captureSequence.value > top && e.frame.body.offset.value >= offset ==>
      TopCapture(s + [e], e.frame.body.captureSequence.value, e.frame.body.offset.value)
    ensures e != Told(true) && !Numbers(e) ==> TopCapture(s + [e], top, offset)
  {
    hide Recent;
    var t := s + [e];
    assert t[|s|] == e && forall j :: 0 <= j < |s| ==> t[j] == s[j];
    forall k: nat ensures Recent(t, k) <==> (k == |s| && e.Got?) || (k < |s| && Recent(s, k) && e != Told(true)) {
      RecentNext(s, e, k);
    }
    RecentInside(t);
    RecentInside(s);
    if Numbers(e) { assert NumberedAt(t, |s|); }
    if e != Told(true) && top > 0 {
      var k: nat :| NumberedAt(s, k) && s[k].frame.body.captureSequence.value == top;
      assert NumberedAt(t, k);
    }
    if e != Told(true) && offset > 0.0 {
      var k: nat :| NumberedAt(s, k) && s[k].frame.body.offset.value == offset;
      assert NumberedAt(t, k);
    }
  }

  predicate Numbers(e: Entry) {
    e.Got? && e.frame.body.Live? && e.frame.body.captureSequence.Some? && e.frame.body.offset.Some?
  }

  predicate Gaps(e: Entry) { e.Got? && e.frame.body.Live? && e.frame.body.data.Gap? }

  lemma GapsNext(s: Transcript, e: Entry, gaps: map<Stage, int>)
    requires GapsSeen(s, gaps)
    ensures e == Told(true) ==> GapsSeen(s + [e], map[])
    ensures Gaps(e) && e.frame.body.data.stage !in gaps ==>
      GapsSeen(s + [e], gaps[e.frame.body.data.stage := e.frame.body.data.dropped])
    ensures e != Told(true) && !Gaps(e) ==> GapsSeen(s + [e], gaps)
  {
    hide Recent;
    var t := s + [e];
    assert t[|s|] == e && forall j :: 0 <= j < |s| ==> t[j] == s[j];
    forall k: nat ensures Recent(t, k) <==> (k == |s| && e.Got?) || (k < |s| && Recent(s, k) && e != Told(true)) {
      RecentNext(s, e, k);
    }
    RecentInside(t);
    RecentInside(s);
    if Gaps(e) { assert GapAt(t, |s|); }
    if e != Told(true) {
      forall stage | stage in gaps ensures exists k: nat :: GapAt(t, k) && t[k].frame.body.data.stage == stage {
        var k: nat :| GapAt(s, k) && s[k].frame.body.data.stage == stage;
        assert GapAt(t, k);
      }
    }
  }

  lemma KnowsNext(s: Transcript, e: Entry, v: View, w: View)
    requires Knows(s, v)
    requires w.incoming == v.incoming + (if e.Got? then 1 else 0) && w.run == v.run + (if e == Told(true) then 1 else 0)
    requires w.runs == v.runs + (if IsReport(e) then 1 else 0) && (w.failed <==> v.failed || IsFailure(e))
    requires w.liveReceived == if e == Told(true) then 0 else v.liveReceived + if e.Got? && e.frame.body.Live? then 1 else 0
    requires IsReady(e) ==> v.producer.None?
    requires w.producer == if IsReady(e) then Some(e.frame.body.producer) else v.producer
    ensures Knows(s + [e], w)
  {
    hide Heard, Continued, Reports, Lives, Readied, Failed;
    CountsNext(s, e);
    FactsNext(s, e);
    var t := s + [e];
    assert t[|s|] == e && forall j :: 0 <= j < |s| ==> t[j] == s[j];
    if IsReady(e) { NoneReady(s); }
  }

  lemma NoneReady(s: Transcript)
    ensures Readied(s) || forall k :: 0 <= k < |s| ==> !IsReady(s[k])
  {}

  lemma PhasesNext(x: Expectation, s: Transcript, e: Entry, v: View, w: View)
    requires Phases(x, s, v.phase) && Step(x, v, e) == Some(w)
    ensures Phases(x, s + [e], w.phase)
  {
    hide Readied, Failed, Ended, Declined, Reported, LiveFrameOk, ReceiptAgrees, ProducerOk;
    FactsNext(s, e);
  }

  /** The validator's view follows the transcript. */
  lemma ReflectsNext(x: Expectation, s: Transcript, e: Entry, v: View, w: View)
    requires Reflects(x, s, v) && Step(x, v, e) == Some(w)
    ensures Reflects(x, s + [e], w)
  {
    hide Phases, Knows, TopEvent, TopCapture, GapsSeen, EnvelopeOk, ReportOk, ReceiptOk, ProducerOk;
    PhasesNext(x, s, e, v, w);
    EventTops(s, e, v.eventSequence);
    CaptureTops(s, e, v.captureSequence, v.arrivalOffset);
    GapsNext(s, e, v.gaps);
    StartupKnowsNone(x, s, v);
    KnowsNext(s, e, v, w);
  }

  lemma StartupKnowsNone(x: Expectation, s: Transcript, v: View)
    requires Phases(x, s, v.phase) && Knows(s, v)
    ensures v.phase == Startup ==> v.producer.None?
  {
    hide Readied;
  }

  // ---- Whole sessions -----------------------------------------------------------------------

  lemma NotContinuing(x: Expectation, s: Transcript, v: View)
    requires Reflects(x, s, v)
    ensures v.phase == Continuation <==> Waiting(x, s)
  {
    hide Knows, TopEvent, TopCapture, GapsSeen, Waiting, Open, Closing;
  }

  /** One entry: it is taken exactly when it may follow the transcript. */
  lemma StepMeans(x: Expectation, s: Transcript, v: View, e: Entry)
    requires Reflects(x, s, v)
    ensures Step(x, v, e).Some? <==> EntrySound(x, s, e)
    ensures Step(x, v, e).Some? ==> Reflects(x, s + [e], Step(x, v, e).value)
  {
    hide Reflects, Accepts, FrameSound, Waiting, After, Authorised;
    NotContinuing(x, s, v);
    if e.Got? { AcceptsMeans(x, s, v, e.frame); }
    if Step(x, v, e).Some? { ReflectsNext(x, s, e, v, Step(x, v, e).value); }
  }

  lemma SoundNext(x: Expectation, s: Transcript, e: Entry)
    ensures Sound(x, s + [e]) <==> Sound(x, s) && EntrySound(x, s, e)
  {
    hide EntrySound;
    var t := s + [e];
    assert t[..|s|] == s && t[|s|] == e;
    assert forall n :: 0 <= n < |s| ==> t[..n] == s[..n] && t[n] == s[n];
    if Sound(x, t) {
      forall n | 0 <= n < |s| ensures EntrySound(x, s[..n], s[n]) { assert EntrySound(x, t[..n], t[n]); }
    }
  }

  /**
   Soundness and completeness of the validator: it takes a whole session exactly when every frame and every
   continuation may follow what came before it.
   */
  lemma {:induction false} PlayMeans(x: Expectation, s: Transcript)
    ensures Play(x, s).Some? <==> Sound(x, s)
    ensures Play(x, s).Some? ==> Reflects(x, s, Play(x, s).value)
  {
    hide Sound, Reflects, Step;
    if s == [] {
      OpeningReflects(x);
      NothingIsSound(x);
    } else {
      var n := |s| - 1;
      assert s == s[..n] + [s[n]];
      PlayMeans(x, s[..n]);
      SoundNext(x, s[..n], s[n]);
      if Play(x, s[..n]).Some? { StepMeans(x, s[..n], Play(x, s[..n]).value, s[n]); }
    }
  }

  lemma NothingIsSound(x: Expectation)
    ensures Sound(x, [])
  {}

  lemma PrefixIsSound(x: Expectation, s: Transcript, n: nat)
    requires Sound(x, s) && n <= |s|
    ensures Sound(x, s[..n])
  {
    hide EntrySound;
    assert forall k :: 0 <= k < n ==> s[..n][..k] == s[..k] && s[..n][k] == s[k];
  }

  /** The validator over a transcript, entry by entry. */
  method Listen(x: Expectation, s: Transcript) returns (ok: bool)
    ensures ok <==> Sound(x, s)
  {
    hide Sound, Accepts, After, Authorised, Responses.Seen;
    var r := new Responses(x);
    NothingIsSound(x);
    assert s[..0] == [];
    for n := 0 to |s|
      invariant r.x == x && Play(x, s[..n]) == Some(r.Seen()) && Sound(x, s[..n])
    {
      assert s[..n + 1] == s[..n] + [s[n]] && s[..n + 1][..n] == s[..n];
      PlayMeans(x, s[..n + 1]);
      match s[n] {
        case Got(f) =>
          ok := r.Accept(f);
        case Told(keep) =>
          PhaseSeen(r);
          var completed := r.ContinueRun(keep);
          ok := completed.Some?;
      }
      if !ok {
        if Sound(x, s) { PrefixIsSound(x, s, n + 1); }
        return;
      }
    }
    assert s[..|s|] == s;
    ok := true;
  }

  lemma PhaseSeen(r: Responses)
    ensures r.Seen().phase == r.phase
  {}

  // ---- What that means for a session --------------------------------------------------------

  /** The frames of a transcript, in order. */
  function Frames(s: Transcript): seq<Frame> {
    if s == [] then [] else Frames(s[..|s| - 1]) + if s[|s| - 1].Got? then [s[|s| - 1].frame] else []
  }

  /** The frames are numbered one, two, three and so on, under the session's own identity. */
  lemma {:induction false} FramesAreNumbered(x: Expectation, s: Transcript)
    requires Sound(x, s)
    ensures |Frames(s)| == Heard(s)
    ensures forall i :: 0 <= i < |Frames(s)| ==> Frames(s)[i].sequence == i + 1 && Frames(s)[i].identity == x.identity
  {
    hide EventSound, LiveSound, ReportSound, Closing, Readied, Failed, Ended;
    if s != [] {
      var n := |s| - 1;
      PrefixIsSound(x, s, n);
      FramesAreNumbered(x, s[..n]);
      assert EntrySound(x, s[..n], s[n]);
    }
  }

  /** The first frame is the one readiness receipt, or a failure before it. */
  lemma ReadyComesFirst(x: Expectation, s: Transcript)
    requires Sound(x, s) && s != []
    ensures IsReady(s[0]) || IsFailure(s[0])
    ensures forall k :: 0 < k < |s| ==> !IsReady(s[k])
  {
    hide EventSound, LiveSound, ReportSound;
    assert EntrySound(x, s[..0], s[0]);
    FirstIsReceipt(x, s[0]);
    forall k | 0 < k < |s| ensures !IsReady(s[k]) {
      assert EntrySound(x, s[..k], s[k]);
      assert s[..k][0] == s[0];
    }
  }

  lemma FirstIsReceipt(x: Expectation, e: Entry)
    requires EntrySound(x, [], e)
    ensures IsReady(e) || IsFailure(e)
  {}

  lemma EndedRefuses(x: Expectation, s: Transcript, k: nat, e: Entry)
    requires k < |s| && IsTerminal(s[k])
    ensures !EntrySound(x, s, e)
  {}

  /** Nothing follows the terminal receipt, and there is at most one failure. */
  lemma EndsOnce(x: Expectation, s: Transcript)
    requires Sound(x, s)
    ensures forall k :: 0 <= k < |s| && IsTerminal(s[k]) ==> k == |s| - 1
    ensures forall j, k :: 0 <= j < k < |s| && IsFailure(s[j]) ==> !IsFailure(s[k])
  {
    hide EventSound, LiveSound, ReportSound, Readied;
    forall k | 0 <= k < |s| && IsTerminal(s[k]) ensures k == |s| - 1 {
      if k + 1 < |s| { EndedRefuses(x, s[..k + 1], k, s[k + 1]); }
    }
    forall j, k | 0 <= j < k < |s| && IsFailure(s[j]) ensures !IsFailure(s[k]) {
      assert EntrySound(x, s[..k], s[k]);
      assert s[..k][j] == s[j];
    }
  }

  /** Every run but the last was reported before another was asked for. */
  lemma {:induction false} EveryRunIsReported(x: Expectation, s: Transcript)
    requires Sound(x, s)
    ensures Reports(s) == Continued(s) + if Reported(s) then 1 else 0
  {
    hide EventSound, LiveSound, Readied, Failed, Ended, Declined, Reported, Reports, Continued;
    if s == [] {
      NothingReported();
    } else {
      var n := |s| - 1;
      assert s == s[..n] + [s[n]];
      PrefixIsSound(x, s, n);
      EveryRunIsReported(x, s[..n]);
      assert EntrySound(x, s[..n], s[n]);
      FactsNext(s[..n], s[n]);
      CountsNext(s[..n], s[n]);
    }
  }

  lemma NothingReported()
    ensures Reports([]) == 0 && Continued([]) == 0 && !Reported([])
  {}

  /** The frames alone, received one after the other. */
  function Heads(frames: seq<Frame>): Transcript { seq(|frames|, i requires 0 <= i < |frames| => Got(frames[i])) }

  /** Frames the parent accepts one after the other, after any session so far, are sound. */
  lemma {:induction false} AcceptAllMeans(x: Expectation, s: Transcript, v: View, frames: seq<Frame>)
    requires Play(x, s) == Some(v)
    ensures WorkerComposition.AcceptAll(x, v, frames) == Play(x, s + Heads(frames))
    ensures WorkerComposition.AcceptAll(x, v, frames).Some? <==> Sound(x, s + Heads(frames))
    decreases |frames|
  {
    hide Sound, Accepts, After;
    PlayMeans(x, s + Heads(frames));
    if frames == [] {
      assert s + Heads(frames) == s;
    } else {
      var t := s + [Got(frames[0])];
      assert t[..|s|] == s && t[|s|] == Got(frames[0]);
      assert t + Heads(frames[1..]) == s + Heads(frames);
      if Accepts(x, v, frames[0]) {
        AcceptAllMeans(x, t, After(x, v, frames[0].body), frames[1..]);
      } else {
        RefusedForGood(x, t, Heads(frames[1..]));
      }
    }
  }

  /** After a refusal nothing is taken. */
  lemma {:induction false} RefusedForGood(x: Expectation, s: Transcript, more: Transcript)
    requires Play(x, s).None?
    ensures Play(x, s + more).None?
  {
    hide Step;
    if more == [] {
      assert s + more == s;
    } else {
      var n := |more| - 1;
      assert (s + more)[..|s| + n] == s + more[..n];
      RefusedForGood(x, s, more[..n]);
    }
  }
}
