/**
 What a native payload says, read from its own members, and what becomes of it (`_event_capture.py`): which member
 of the reconstructed document it sets, which live event and which numbered legacy event it is announced as.
 */
module NativeStream {
  import opened Options
  import opened JsonFrames
  import opened WorkerMessages
  import opened EventCapture
  import opened Reconstruction

  /** An object with both an `event` and a `data` member. */
  predicate Envelope(x: Payload) {
    && x.content.Ok? && x.content.value.Obj?
    && Get(x.content.value.fields, Ascii("event")).Some? && Get(x.content.value.fields, Ascii("data")).Some?
  }

  function EventMember(x: Payload): Json
    requires Envelope(x)
  {
    Get(x.content.value.fields, Ascii("event")).value
  }

  function DataMember(x: Payload): Json
    requires Envelope(x)
  {
    Get(x.content.value.fields, Ascii("data")).value
  }

  /** An envelope of this kind. */
  predicate Says(x: Payload, kind: string) { Envelope(x) && EventMember(x) == Str(Ascii(kind)) }

  /** An envelope of the kind `complete`, or an object that is no envelope. */
  predicate Document(x: Payload) { x.content.Ok? && x.content.value.Obj? && (!Envelope(x) || Says(x, "complete")) }

  function DocumentIn(x: Payload): Json
    requires Document(x)
  {
    if Envelope(x) then DataMember(x) else x.content.value
  }

  /** The data of the latest envelope of this kind. */
  function LatestData(xs: seq<Payload>, kind: string): Option<Json> {
    if xs == [] then None
    else if Says(xs[|xs| - 1], kind) then Some(DataMember(xs[|xs| - 1]))
    else LatestData(xs[..|xs| - 1], kind)
  }

  /** The data of every envelope of this kind, in order. */
  function EveryData(xs: seq<Payload>, kind: string): seq<Json> {
    if xs == [] then []
    else EveryData(xs[..|xs| - 1], kind) + if Says(xs[|xs| - 1], kind) then [DataMember(xs[|xs| - 1])] else []
  }

  /** The latest `error` as text: a string as it is, anything else as rendered. */
  function LatestError(xs: seq<Payload>): Option<Json> {
    if xs == [] then None
    else
      var x := xs[|xs| - 1];
      if Says(x, "error") then Some(if DataMember(x).Str? then DataMember(x) else Str(x.rendering))
      else LatestError(xs[..|xs| - 1])
  }

  // ---- The kinds ----------------------------------------------------------------------------

  lemma {:induction false} AsciiAt(s: string, i: nat)
    requires i < |s| && s[i] as int < 0x80
    ensures Ascii(s)[i] == s[i] as int
  {
    if i > 0 { AsciiAt(s[1..], i - 1); }
  }

  /** Texts of one length that differ somewhere. */
  lemma LiteralsDiffer()
    ensures Ascii("start") != Ascii("error") && Ascii("interval") != Ascii("complete")
    ensures Ascii("server_output_json") != Ascii("server_output_text")
  {
    hide Ascii;
    AsciiAt("start", 0);
    AsciiAt("error", 0);
    AsciiAt("interval", 0);
    AsciiAt("complete", 0);
    AsciiAt("server_output_json", 14);
    AsciiAt("server_output_text", 14);
  }

  lemma LiteralLengths()
    ensures |Ascii("start")| == 5 && |Ascii("error")| == 5 && |Ascii("end")| == 3 && |Ascii("interval")| == 8
    ensures |Ascii("complete")| == 8 && |Ascii("intervals")| == 9
    ensures |Ascii("server_output_json")| == 18 && |Ascii("server_output_text")| == 18
  {
    hide Ascii;
  }

  /** The seven kinds are different texts. */
  lemma KindsDiffer()
    ensures NameOf(Ascii("start")) == Start && NameOf(Ascii("interval")) == Interval_ && NameOf(Ascii("end")) == End
    ensures NameOf(Ascii("error")) == ErrorEvent && NameOf(Ascii("complete")) == Complete
    ensures NameOf(Ascii("server_output_json")) == ServerJson && NameOf(Ascii("server_output_text")) == ServerText
  {
    hide Ascii;
    LiteralsDiffer();
    LiteralLengths();
  }

  const KINDS: seq<string> :=
    ["start", "interval", "end", "error", "complete", "server_output_json", "server_output_text"]

  /** None of the seven kinds. */
  predicate Foreign(kind: Text) { forall i :: 0 <= i < |KINDS| ==> kind != Ascii(KINDS[i]) }

  lemma NameMeans(kind: Text)
    ensures NameOf(kind) == Start <==> kind == Ascii("start")
    ensures NameOf(kind) == Interval_ <==> kind == Ascii("interval")
    ensures NameOf(kind) == End <==> kind == Ascii("end")
    ensures NameOf(kind) == ErrorEvent <==> kind == Ascii("error")
    ensures NameOf(kind) == Complete <==> kind == Ascii("complete")
    ensures NameOf(kind) == ServerJson <==> kind == Ascii("server_output_json")
    ensures NameOf(kind) == ServerText <==> kind == Ascii("server_output_text")
    ensures NameOf(kind) == Other <==> Foreign(kind)
  {
    hide Ascii;
    KindsDiffer();
    assert KINDS[0] == "start" && KINDS[1] == "interval" && KINDS[2] == "end" && KINDS[3] == "error";
    assert KINDS[4] == "complete" && KINDS[5] == "server_output_json" && KINDS[6] == "server_output_text";
  }

  /** The parser sees the members there are. */
  lemma ShapeMeans(x: Payload)
    requires PayloadOk(x)
    ensures x.content.Err? ==> ShapeOf(x) == Bad(x.content.error)
    ensures Envelope(x) && !EventMember(x).Str? ==> ShapeOf(x) == Bad(Ascii("ValueError"))
    ensures Envelope(x) && EventMember(x).Str? ==>
      ShapeOf(x) == Shaped(NameOf(EventMember(x).text), EventMember(x).text, true, DataMember(x), x.content.value)
    ensures x.content.Ok? && !Envelope(x) ==>
      ShapeOf(x) == Shaped(Complete, Ascii("complete"), false, x.content.value, x.content.value)
  {
    hide Ascii, NameOf;
  }

  lemma NamedMeans(x: Payload)
    requires PayloadOk(x)
    ensures Named(x, Start) <==> Says(x, "start")
    ensures Named(x, Interval_) <==> Says(x, "interval")
    ensures Named(x, End) <==> Says(x, "end")
    ensures Named(x, ErrorEvent) <==> Says(x, "error")
    ensures Named(x, ServerJson) <==> Says(x, "server_output_json")
    ensures Named(x, ServerText) <==> Says(x, "server_output_text")
    ensures Named(x, Complete) <==> Document(x)
    ensures Named(x, Complete) ==> ShapeOf(x).part == DocumentIn(x)
    ensures Envelope(x) && ShapeOf(x).Shaped? ==> ShapeOf(x).part == DataMember(x)
  {
    hide Ascii, NameOf, ShapeOf;
    ShapeMeans(x);
    if Envelope(x) && EventMember(x).Str? { NameMeans(EventMember(x).text); }
  }

  // ---- The reconstructed document -----------------------------------------------------------

  lemma KeysDiffer()
    ensures MemberOf(Start) == Some(Ascii("start")) && MemberOf(End) == Some(Ascii("end"))
    ensures MemberOf(ErrorEvent) == Some(Ascii("error")) && MemberOf(ServerJson) == Some(Ascii("server_output_json"))
    ensures MemberOf(ServerText) == Some(Ascii("server_output_text"))
    ensures var keys := [Ascii("start"), Ascii("end"), Ascii("error"), Ascii("server_output_json"),
                         Ascii("server_output_text"), Ascii("intervals")];
      forall i, j :: 0 <= i < j < |keys| ==> keys[i] != keys[j]
  {
    hide Ascii;
    LiteralsDiffer();
    LiteralLengths();
  }

  /** The members that an envelope of the same name sets to its data. */
  const MEMBERS := {"start", "end", "server_output_json", "server_output_text"}

  lemma MembersAre(name: Name)
    ensures MemberOf(name) == Some(Ascii("start")) <==> name == Start
    ensures MemberOf(name) == Some(Ascii("end")) <==> name == End
    ensures MemberOf(name) == Some(Ascii("error")) <==> name == ErrorEvent
    ensures MemberOf(name) == Some(Ascii("server_output_json")) <==> name == ServerJson
    ensures MemberOf(name) == Some(Ascii("server_output_text")) <==> name == ServerText
    ensures MemberOf(name).Some? ==> name in {Start, End, ErrorEvent, ServerJson, ServerText}
  {
    hide Ascii;
    LiteralsDiffer();
    LiteralLengths();
  }

  lemma SetsMeans(x: Payload, kind: string)
    requires PayloadOk(x) && kind in MEMBERS
    ensures Sets(x, Ascii(kind)) <==> Says(x, kind)
    ensures Says(x, kind) ==> DataOf(x) == DataMember(x)
  {
    hide Ascii, NameOf, ShapeOf, PayloadOk, MemberOf;
    NamedMeans(x);
    if ShapeOf(x).Shaped? { MembersAre(ShapeOf(x).name); }
  }

  lemma SetsError(x: Payload)
    requires PayloadOk(x)
    ensures Sets(x, Ascii("error")) <==> Says(x, "error")
    ensures Says(x, "error") ==> DataOf(x) == if DataMember(x).Str? then DataMember(x) else Str(x.rendering)
  {
    hide Ascii, NameOf, ShapeOf, PayloadOk, MemberOf;
    NamedMeans(x);
    if ShapeOf(x).Shaped? { MembersAre(ShapeOf(x).name); }
  }

  lemma SetsNothingElse(x: Payload, key: Text)
    requires PayloadOk(x) && Sets(x, key)
    ensures key == Ascii("error") || exists kind :: kind in MEMBERS && key == Ascii(kind)
  {
    hide Ascii, ShapeOf, PayloadOk, MemberOf;
    var name := ShapeOf(x).name;
    MembersAre(name);
    assert "start" in MEMBERS && "end" in MEMBERS && "server_output_json" in MEMBERS && "server_output_text" in MEMBERS;
  }

  lemma {:induction false} LatestMeans(xs: seq<Payload>, kind: string)
    requires Fine(xs) && kind in MEMBERS
    ensures Latest(xs, Ascii(kind)) == LatestData(xs, kind)
  {
    hide Ascii, Sets, Says, DataOf, PayloadOk;
    if xs != [] {
      SetsMeans(xs[|xs| - 1], kind);
      LatestMeans(xs[..|xs| - 1], kind);
    }
  }

  lemma {:induction false} LatestErrorMeans(xs: seq<Payload>)
    requires Fine(xs)
    ensures Latest(xs, Ascii("error")) == LatestError(xs)
  {
    hide Ascii, Sets, Says, DataOf, PayloadOk;
    if xs != [] {
      SetsError(xs[|xs| - 1]);
      LatestErrorMeans(xs[..|xs| - 1]);
    }
  }

  lemma {:induction false} NothingElse(xs: seq<Payload>, key: Text)
    requires Fine(xs) && key != Ascii("error") && forall kind :: kind in MEMBERS ==> key != Ascii(kind)
    ensures Latest(xs, key) == None
  {
    hide Ascii, Sets, DataOf, PayloadOk;
    if xs != [] {
      if Sets(xs[|xs| - 1], key) { SetsNothingElse(xs[|xs| - 1], key); }
      NothingElse(xs[..|xs| - 1], key);
    }
  }

  lemma {:induction false} IntervalsMean(xs: seq<Payload>)
    requires Fine(xs)
    ensures Intervals(xs) == EveryData(xs, "interval")
  {
    hide Ascii, PayloadOk, ShapeOf;
    if xs != [] {
      NamedMeans(xs[|xs| - 1]);
      IntervalsMean(xs[..|xs| - 1]);
    }
  }

  lemma DocumentsMean(xs: seq<Payload>)
    requires Fine(xs)
    ensures NoDocument(xs) <==> forall i :: 0 <= i < |xs| ==> !Document(xs[i])
    ensures forall k :: 0 <= k < |xs| ==> (Named(xs[k], Complete) <==> Document(xs[k]))
    ensures forall k :: 0 <= k < |xs| && Document(xs[k]) ==> ShapeOf(xs[k]).Shaped? && ShapeOf(xs[k]).part == DocumentIn(xs[k])
  {
    hide Document, PayloadOk, ShapeOf, DocumentIn;
    forall k | 0 <= k < |xs|
      ensures Named(xs[k], Complete) <==> Document(xs[k])
      ensures Document(xs[k]) ==> ShapeOf(xs[k]).Shaped? && ShapeOf(xs[k]).part == DocumentIn(xs[k])
    {
      NamedMeans(xs[k]);
    }
  }

  /** The `start`, `end` and server output of a stream, its `intervals` and its `error`, under those very names. */
  ghost predicate Reconstructs(fields: seq<Field>, xs: seq<Payload>) {
    && Get(fields, Ascii("start")) == LatestData(xs, "start")
    && Get(fields, Ascii("end")) == LatestData(xs, "end")
    && Get(fields, Ascii("server_output_json")) == LatestData(xs, "server_output_json")
    && Get(fields, Ascii("server_output_text")) == LatestData(xs, "server_output_text")
    && Get(fields, Ascii("error")) == LatestError(xs)
    && Get(fields, Ascii("intervals")) ==
         (if EveryData(xs, "interval") == [] then None else Some(Arr(EveryData(xs, "interval"))))
    && forall key: Text :: Get(fields, key).Some? ==>
         key in {Ascii("start"), Ascii("end"), Ascii("error"), Ascii("intervals")}
           + {Ascii("server_output_json"), Ascii("server_output_text")}
  }

  lemma ReadingMeans(fields: seq<Field>, xs: seq<Payload>)
    requires Fine(xs) && forall key :: Get(fields, key) == Reading(xs, key)
    ensures Reconstructs(fields, xs)
  {
    hide Ascii, Get, PayloadOk, Latest, LatestData, LatestError, EveryData, Intervals;
    LiteralLengths();
    assert INTERVALS == Ascii("intervals");
    LatestMeans(xs, "start");
    LatestMeans(xs, "end");
    LatestMeans(xs, "server_output_json");
    LatestMeans(xs, "server_output_text");
    LatestErrorMeans(xs);
    IntervalsMean(xs);
    forall key: Text | Get(fields, key).Some?
      ensures key in {Ascii("start"), Ascii("end"), Ascii("error"), Ascii("intervals")}
        + {Ascii("server_output_json"), Ascii("server_output_text")}
    {
      if key != INTERVALS && key != Ascii("error") && forall kind :: kind in MEMBERS ==> key != Ascii(kind) {
        NothingElse(xs, key);
      }
    }
  }

  /** The retained envelopes are the objects of the stream, one for one. */
  predicate Retains(events: seq<Json>, xs: seq<Payload>) {
    |events| == |xs| && forall i :: 0 <= i < |xs| ==> xs[i].content == Ok(events[i])
  }

  /** Payload `k` is the last document of the stream. */
  ghost predicate FinalDocument(xs: seq<Payload>, k: nat) {
    k < |xs| && Document(xs[k]) && forall j :: k < j < |xs| ==> !Document(xs[j])
  }

  /**
   Without a document the result holds the data of the latest `start`, `end` and server output, the text of the
   latest `error` and every `interval` in order, and the envelopes are all of the stream; otherwise the result is
   the last document.
   */
  ghost predicate Literal(complete: bool, raw: Json, events: seq<Json>, xs: seq<Payload>) {
    && raw.Obj?
    && ((forall i :: 0 <= i < |xs| ==> !Document(xs[i])) ==> !complete && Reconstructs(raw.fields, xs) && Retains(events, xs))
    && forall k: nat :: FinalDocument(xs, k) ==> complete && raw == DocumentIn(xs[k]) && events == []
  }

  /** A receipt that claims a complete reconstruction, read literally. */
  lemma CompleteReceiptReads(c: Capture, script: seq<Happening>)
    requires c.Settled() && !c.failed && c.Metadata().reconstructionComplete && AllOk(c.parsed)
    requires c.captureDropped == 0 ==> Payloads(c.parsed) == Copies(script)
    requires c.Book() == Concluded(AllJudged(c.parsed), c.lastCaptureLoss)
    ensures Literal(c.complete, c.raw, c.nativeEvents, Copies(script))
  {
    hide Ascii, Get, PayloadOk, ShapeOf, AllJudged, Copies, Reading, Reconstructs, Envelopes, Retains, Literal, Document,
      Capture.Settled, Capture.Metadata, Capture.Book, Concluded, NoDocument;
    CompleteReceiptIsHonest(c, script, []);
    if NoDocument(Copies(script)) { EventsRead(c, script); }
    LiteralMeans(c.complete, c.raw, c.nativeEvents, Copies(script));
  }

  lemma LiteralMeans(complete: bool, raw: Json, events: seq<Json>, xs: seq<Payload>)
    requires Fine(xs) && raw.Obj?
    requires NoDocument(xs) ==> !complete && Reconstructs(raw.fields, xs) && Retains(events, xs)
    requires forall k :: 0 <= k < |xs| && LastDocument(xs, k) ==>
      complete && ShapeOf(xs[k]).Shaped? && raw == ShapeOf(xs[k]).part && events == []
    ensures Literal(complete, raw, events, xs)
  {
    hide PayloadOk, ShapeOf, Document, DocumentIn, Reconstructs, Retains, NoDocument, LastDocument;
    DocumentsMean(xs);
    forall k: nat | FinalDocument(xs, k) ensures complete && raw == DocumentIn(xs[k]) && events == [] {
      LastDocumentMeans(xs, k);
    }
  }

  lemma EventsRead(c: Capture, script: seq<Happening>)
    requires c.Settled() && !c.failed && c.Metadata().reconstructionComplete && AllOk(c.parsed)
    requires c.captureDropped == 0 ==> Payloads(c.parsed) == Copies(script)
    requires c.Book() == Concluded(AllJudged(c.parsed), c.lastCaptureLoss)
    requires Fine(Copies(script)) && NoDocument(Copies(script)) && c.raw.Obj?
    ensures Reconstructs(c.raw.fields, Copies(script)) && Retains(c.nativeEvents, Copies(script))
  {
    hide Ascii, Get, PayloadOk, ShapeOf, AllJudged, Copies, Reading, Reconstructs, Envelopes, Retains,
      Capture.Settled, Capture.Metadata, Capture.Book, Concluded, NoDocument;
    CompleteReceiptIsHonest(c, script, []);
    forall key ensures Get(c.raw.fields, key) == Reading(Copies(script), key) { CompleteReceiptIsHonest(c, script, key); }
    ReadingMeans(c.raw.fields, Copies(script));
    EnvelopesAreObjects(c, script);
  }

  lemma LastDocumentMeans(xs: seq<Payload>, k: nat)
    requires Fine(xs) && k < |xs| && Document(xs[k]) && forall j :: k < j < |xs| ==> !Document(xs[j])
    ensures LastDocument(xs, k)
  {
    hide Document, PayloadOk, Named;
    DocumentsMean(xs);
  }

  /** Nothing malformed means that every copy was an object. */
  lemma EnvelopesAreObjects(c: Capture, script: seq<Happening>)
    requires c.Settled() && !c.failed && c.Metadata().reconstructionComplete && AllOk(c.parsed)
    requires (c.captureDropped == 0 ==> Payloads(c.parsed) == Copies(script)) && Fine(Copies(script))
    requires c.Book() == Concluded(AllJudged(c.parsed), c.lastCaptureLoss)
    ensures Retains(Envelopes(Copies(script)), Copies(script))
  {
    hide ShapeOf, PayloadOk, AllJudged, Copies;
    var xs := Copies(script);
    forall i | 0 <= i < |xs| ensures xs[i].content == Ok(EnvelopeOf(xs[i])) {
      assert xs[i] == c.parsed[i].payload;
      NothingBad(c.parsed, i);
    }
  }

  lemma {:induction false} NothingBad(ps: seq<Pending>, i: nat)
    requires AllOk(ps) && Exact(AllJudged(ps)) && i < |ps|
    ensures ps[i].payload.content.Ok?
  {
    hide ShapeOf, PayloadOk, Judged;
    var n := |ps| - 1;
    ExactBefore(AllJudged(ps[..n]), ps[n]);
    if i < n {
      NothingBad(ps[..n], i);
    } else {
      ShapeMeans(ps[n].payload);
    }
  }

  // ---- The announcements --------------------------------------------------------------------

  predicate Textual(x: Payload) { Envelope(x) && EventMember(x).Str? }

  /** Which live event a payload is announced as, and with what data. */
  ghost predicate AnnouncedAs(x: Payload, kind: LiveKind, data: LiveData) {
    NativeAs(x, kind, data) && OtherAs(x, kind, data) && MalformedAs(x, kind, data)
  }

  ghost predicate NativeAs(x: Payload, kind: LiveKind, data: LiveData) {
    && (Says(x, "start") && DataMember(x).Obj? ==> kind == NativeStart && data == Plain(DataMember(x)))
    && (Says(x, "interval") && DataMember(x).Obj? ==> kind == Interval && data == Plain(DataMember(x)))
    && (Says(x, "end") && DataMember(x).Obj? ==> kind == NativeEnd && data == Plain(DataMember(x)))
    && (Says(x, "error") && (DataMember(x).Obj? || DataMember(x).Str?) ==> kind == NativeError && data == Plain(DataMember(x)))
    && (Document(x) && DocumentIn(x).Obj? ==> kind == NativeDocument && data == Plain(DocumentIn(x)))
  }

  ghost predicate OtherAs(x: Payload, kind: LiveKind, data: LiveData) {
    && (Says(x, "server_output_json") ==> kind == ServerOutput && data == Tagged(Ascii("server_output_json"), DataMember(x)))
    && (Says(x, "server_output_text") ==> kind == ServerOutput && data == Tagged(Ascii("server_output_text"), DataMember(x)))
    && (Textual(x) && Foreign(EventMember(x).text) ==> kind == UnknownKind && data == Tagged(EventMember(x).text, DataMember(x)))
  }

  ghost predicate MalformedAs(x: Payload, kind: LiveKind, data: LiveData) {
    && (x.content.Err? ==> kind == MalformedPayload && data == Sample(x.content.error, x.sample))
    && (Misformed(x) ==> kind == MalformedPayload && data == Sample(Ascii("ValueError"), x.sample))
  }

  /** An envelope whose event is no text, or whose data has the wrong form for its kind. */
  predicate Misformed(x: Payload) {
    && Envelope(x)
    && (EventMember(x).Str? ==>
      || (Says(x, "error") && !DataMember(x).Obj? && !DataMember(x).Str?)
      || ((Says(x, "start") || Says(x, "interval") || Says(x, "end") || Says(x, "complete")) && !DataMember(x).Obj?))
  }

  lemma AnnouncementMeans(p: Pending)
    requires PayloadOk(p.payload)
    ensures var b := LiveBody(ShapeOf(p.payload), p.payload.sample, p);
      && b.Live? && AnnouncedAs(p.payload, b.kind, b.data)
      && b.captureSequence == Some(p.sequence) && b.offset == Some(p.offset) && b.time == Some(p.arrived)
  {
    hide Ascii, NameOf, ShapeOf, Foreign;
    ShapeMeans(p.payload);
    if Textual(p.payload) { NameMeans(EventMember(p.payload).text); }
  }

  /** The live events of what was offered. */
  function LivesIn(offers: seq<Body>): seq<Body> {
    if offers == [] then []
    else LivesIn(offers[..|offers| - 1]) + if offers[|offers| - 1].Live? then [offers[|offers| - 1]] else []
  }

  /** The legacy events of what was offered. */
  function EventsIn(offers: seq<Body>): seq<Body> {
    if offers == [] then []
    else EventsIn(offers[..|offers| - 1]) + if offers[|offers| - 1].Event? then [offers[|offers| - 1]] else []
  }

  lemma {:induction false} PartsConcat(a: seq<Body>, b: seq<Body>)
    ensures LivesIn(a + b) == LivesIn(a) + LivesIn(b) && EventsIn(a + b) == EventsIn(a) + EventsIn(b)
  {
    if b == [] {
      assert a + b == a;
    } else {
      var n := |b| - 1;
      assert (a + b)[..|a| + n] == a + b[..n] && (a + b)[|a| + n] == b[n];
      PartsConcat(a, b[..n]);
    }
  }

  /** The copies that are envelopes of some kind, in order. */
  function TextualIn(ps: seq<Pending>): seq<Pending> {
    if ps == [] then []
    else TextualIn(ps[..|ps| - 1]) + if Textual(ps[|ps| - 1].payload) then [ps[|ps| - 1]] else []
  }

  /** One live event a copy, as its members say. */
  ghost predicate LivesMatch(lives: seq<Body>, ps: seq<Pending>) {
    && |lives| == |ps|
    && forall i :: 0 <= i < |ps| ==>
      && lives[i].Live? && AnnouncedAs(ps[i].payload, lives[i].kind, lives[i].data)
      && lives[i].captureSequence == Some(ps[i].sequence)
      && lives[i].offset == Some(ps[i].offset) && lives[i].time == Some(ps[i].arrived)
  }

  /** One legacy event an envelope, numbered from one. */
  ghost predicate EventsMatch(events: seq<Body>, ts: seq<Pending>) {
    && |events| == |ts|
    && forall i :: 0 <= i < |ts| ==>
      && Textual(ts[i].payload)
      && events[i] == Event(EventMember(ts[i].payload).text, DataMember(ts[i].payload), i + 1, Some(ts[i].arrived))
  }

  lemma OneCopyOffers(live: bool, legacy: bool, number: nat, p: Pending)
    requires PayloadOk(p.payload)
    ensures LivesIn(OffersOf(live, legacy, number, p)) == LiveOf(live, p)
    ensures EventsIn(OffersOf(live, legacy, number, p)) ==
      if legacy && Textual(p.payload)
      then [Event(EventMember(p.payload).text, DataMember(p.payload), number + 1, Some(p.arrived))] else []
    ensures Wraps(p) == if Textual(p.payload) then 1 else 0
  {
    hide Ascii, NameOf, ShapeOf, LivesIn, EventsIn, AnnouncedAs;
    ShapeMeans(p.payload);
    AnnouncementMeans(p);
    PartsConcat(LegacyOf(legacy, number, p), LiveOf(live, p));
    NoParts();
    forall b: Body
      ensures b.Live? ==> LivesIn([b]) == [b] && EventsIn([b]) == []
      ensures b.Event? ==> EventsIn([b]) == [b] && LivesIn([b]) == []
    {
      OnePart(b);
    }
  }

  lemma NoParts()
    ensures LivesIn([]) == [] && EventsIn([]) == []
  {}

  lemma OnePart(b: Body)
    ensures b.Live? ==> LivesIn([b]) == [b] && EventsIn([b]) == []
    ensures b.Event? ==> EventsIn([b]) == [b] && LivesIn([b]) == []
  {
    assert [b][..0] == [];
    NoParts();
  }

  lemma {:induction false} EveryEnvelopeIsNumbered(ps: seq<Pending>)
    requires AllOk(ps)
    ensures Wrapped(ps) == |TextualIn(ps)|
  {
    hide PayloadOk, Textual, Wraps;
    if ps != [] {
      var n := |ps| - 1;
      EveryEnvelopeIsNumbered(ps[..n]);
      OneCopyOffers(true, true, 0, ps[n]);
    }
  }

  lemma LivesNext(lives: seq<Body>, ps: seq<Pending>, p: Pending)
    requires LivesMatch(lives, ps) && PayloadOk(p.payload)
    ensures LivesMatch(lives + [LiveBody(ShapeOf(p.payload), p.payload.sample, p)], ps + [p])
  {
    hide PayloadOk, ShapeOf, LiveBody, AnnouncedAs;
    AnnouncementMeans(p);
  }

  /** With live events on, one is offered for every copy parsed, of the kind its own members name. */
  lemma {:induction false} LivesMean(live: bool, legacy: bool, ps: seq<Pending>)
    requires AllOk(ps)
    ensures LivesMatch(LivesIn(AllOffers(live, legacy, ps)), if live then ps else [])
  {
    hide PayloadOk, ShapeOf, OffersOf, LiveBody, LivesIn, Textual, Wraps, Wrapped, LivesMatch;
    NoParts();
    NothingMatches();
    if ps != [] {
      var n := |ps| - 1;
      LivesMean(live, legacy, ps[..n]);
      PartsConcat(AllOffers(live, legacy, ps[..n]), OffersOf(live, legacy, Wrapped(ps[..n]), ps[n]));
      OneCopyOffers(live, legacy, Wrapped(ps[..n]), ps[n]);
      var before := LivesIn(AllOffers(live, legacy, ps[..n]));
      assert before + [] == before && ps == ps[..n] + [ps[n]];
      if live { LivesNext(before, ps[..n], ps[n]); }
    }
  }

  lemma EventsNext(events: seq<Body>, ts: seq<Pending>, p: Pending)
    requires EventsMatch(events, ts) && Textual(p.payload)
    ensures EventsMatch(events + [Event(EventMember(p.payload).text, DataMember(p.payload), |ts| + 1, Some(p.arrived))], ts + [p])
  {
    hide Envelope, EventMember, DataMember;
  }

  /** With legacy events on, one is offered for every envelope of some kind, numbered from one. */
  lemma {:induction false} EventsMean(live: bool, legacy: bool, ps: seq<Pending>)
    requires AllOk(ps)
    ensures EventsMatch(EventsIn(AllOffers(live, legacy, ps)), if legacy then TextualIn(ps) else [])
  {
    hide PayloadOk, ShapeOf, OffersOf, LiveBody, EventsIn, Wraps, Wrapped, Envelope, EventMember, DataMember, EventsMatch;
    NoParts();
    NothingMatches();
    if ps != [] {
      var n := |ps| - 1;
      EventsMean(live, legacy, ps[..n]);
      EveryEnvelopeIsNumbered(ps[..n]);
      PartsConcat(AllOffers(live, legacy, ps[..n]), OffersOf(live, legacy, Wrapped(ps[..n]), ps[n]));
      OneCopyOffers(live, legacy, Wrapped(ps[..n]), ps[n]);
      var before := EventsIn(AllOffers(live, legacy, ps[..n]));
      var ts := TextualIn(ps[..n]);
      assert before + [] == before && ts + [] == ts;
      if legacy && Textual(ps[n].payload) { EventsNext(before, ts, ps[n]); }
    }
  }

  lemma NothingMatches()
    ensures EventsMatch([], []) && LivesMatch([], [])
  {}

  // ---- The native error ---------------------------------------------------------------------

  /** What a payload reports as an error: the data of an `error` envelope, or the `error` member of a document. */
  function Reported(x: Payload): Option<Json> {
    if Says(x, "error") then
      if DataMember(x).Str? || DataMember(x).Obj? then Some(DataMember(x)) else None
    else if Document(x) && DocumentIn(x).Obj? then Get(DocumentIn(x).fields, Ascii("error"))
    else None
  }

  /** As text; nothing, and the text `no error`, are no error. */
  predicate ReadsAs(v: Json, rendering: Text, e: Option<Text>) {
    var text := if v.Str? then v.text else rendering;
    if !Truthy(v) || text == Ascii("no error") then e == None
    else e.Some? && e.value <= text && |e.value| == (if |text| <= 4096 then |text| else 4096)
  }

  lemma ErrorReads(x: Payload)
    requires PayloadOk(x)
    ensures Reported(x).None? ==> ErrorOf(x) == None
    ensures Reported(x).Some? ==> ReadsAs(Reported(x).value, x.rendering, ErrorOf(x))
  {
    hide Ascii, NameOf, ShapeOf, Get, PayloadOk;
    NamedMeans(x);
    ShapeMeans(x);
    assert ERROR == Ascii("error") && NO_ERROR == Ascii("no error");
  }

  /** The native error is the first one reported. */
  lemma {:induction false} FirstErrorMeans(ps: seq<Pending>)
    requires AllOk(ps)
    ensures FirstError(ps).None? ==> forall i :: 0 <= i < |ps| ==> ErrorOf(ps[i].payload).None?
    ensures FirstError(ps).Some? ==> exists i ::
      0 <= i < |ps| && ErrorOf(ps[i].payload) == FirstError(ps) && forall j :: 0 <= j < i ==> ErrorOf(ps[j].payload).None?
  {
    hide PayloadOk, ErrorOf;
    if ps != [] {
      var n := |ps| - 1;
      FirstErrorMeans(ps[..n]);
      assert forall i :: 0 <= i < n ==> ps[..n][i] == ps[i];
      if FirstError(ps[..n]).Some? {
        var i :| 0 <= i < n && ErrorOf(ps[..n][i].payload) == FirstError(ps)
          && forall j :: 0 <= j < i ==> ErrorOf(ps[..n][j].payload).None?;
        assert ErrorOf(ps[i].payload) == FirstError(ps);
      }
    }
  }
}
