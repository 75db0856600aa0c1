/**
 Bounded capture of native callbacks and reconstruction of the native document (`_event_capture.py`). Callbacks
 and parsing interleave freely; every count the parent checks, and every bound, holds throughout.
 */
module EventCapture {
  import opened Options
  import opened JsonFrames
  import opened WorkerMessages
  import opened WorkerSystem

  const MAX_CAPTURE_BYTES := 8 * 1024 * 1024
  const MAX_PENDING_BYTES := 16 * 1024 * 1024
  const MAX_PENDING_CAPTURES := 256
  const MAX_RETAINED_BYTES := 12 * 1024 * 1024
  const CHARGE := 128
  const MAX_NATIVE_ERROR := 4096
  const MAX_CLASS_NAME := 200

  /** Two gap events may follow the last callback, and every counter must stay a protocol integer. */
  const MAX_CALLBACKS := MAX_COUNTER - 2

  // ---- Serialized sizes ---------------------------------------------------------------------

  function Size(v: Json): nat { |Encode(v)| }

  function ListSize(items: seq<Json>): nat { |Encode(Arr(items))| }

  /** `d[key] = value`. */
  function SetField(fields: seq<Field>, key: Text, value: Json): seq<Field> {
    if fields == [] then [Field(key, value)]
    else if fields[0].key == key then [Field(key, value)] + fields[1..]
    else [fields[0]] + SetField(fields[1..], key, value)
  }

  lemma FieldsSplit(f: Field, rest: seq<Field>)
    ensures |EncodeFields([f] + rest)| == |EncodeField(f)| + (if rest == [] then 0 else 1 + |EncodeFields(rest)|)
  {
    var fields := [f] + rest;
    assert fields[0] == f && fields[1..] == rest;
    hide EncodeField;
    if rest == [] { assert |fields| == 1; }
  }

  /** Setting a key adds at most that one member, whether it replaces one or not. */
  lemma {:induction false} SetFieldGrows(fields: seq<Field>, key: Text, value: Json)
    ensures |EncodeFields(SetField(fields, key, value))| <=
      |EncodeFields(fields)| + |EncodeField(Field(key, value))| + (if fields == [] then 0 else 1)
    ensures SetField(fields, key, value) != []
  {
    hide EncodeField, EncodeFields;
    if fields == [] {
      FieldsSplit(Field(key, value), []);
      assert [Field(key, value)] + [] == [Field(key, value)];
    } else {
      var head, rest := fields[0], fields[1..];
      assert fields == [head] + rest;
      FieldsSplit(head, rest);
      if head.key == key {
        FieldsSplit(Field(key, value), rest);
      } else {
        SetFieldGrows(rest, key, value);
        NoFieldsNoBytes(rest);
        FieldsSplit(head, SetField(rest, key, value));
      }
    }
  }

  lemma NoFieldsNoBytes(fields: seq<Field>)
    ensures fields == [] ==> |EncodeFields(fields)| == 0
  {}

  lemma ItemsSplit(v: Json, rest: seq<Json>)
    ensures |EncodeItems([v] + rest)| == Size(v) + (if rest == [] then 0 else 1 + |EncodeItems(rest)|)
  {
    var items := [v] + rest;
    assert items[0] == v && items[1..] == rest;
    hide Encode;
    if rest == [] { assert |items| == 1; }
  }

  /** Appending to a list adds the item and at most one separator. */
  lemma {:induction false} AppendGrows(items: seq<Json>, v: Json)
    ensures |EncodeItems(items + [v])| <= |EncodeItems(items)| + Size(v) + (if items == [] then 0 else 1)
  {
    hide Encode, EncodeItems;
    if items == [] {
      assert items + [v] == [v] + [];
      ItemsSplit(v, []);
    } else {
      var head, rest := items[0], items[1..];
      assert items == [head] + rest && items + [v] == [head] + (rest + [v]);
      ItemsSplit(head, rest);
      ItemsSplit(head, rest + [v]);
      AppendGrows(rest, v);
      NoItemsNoBytes(rest);
    }
  }

  lemma NoItemsNoBytes(items: seq<Json>)
    ensures items == [] ==> |EncodeItems(items)| == 0
  {}

  lemma ListGrows(items: seq<Json>, v: Json)
    ensures ListSize(items + [v]) <= ListSize(items) + Size(v) + 1
  {
    AppendGrows(items, v);
  }

  lemma ObjectGrows(fields: seq<Field>, key: Text, value: Json)
    ensures Size(Obj(SetField(fields, key, value))) <= Size(Obj(fields)) + |Quoted(key)| + Size(value) + 2
  {
    SetFieldGrows(fields, key, value);
    hide EncodeFields;
  }

  /** Lengthening the list under a key adds the item and one separator. */
  lemma {:induction false} NestedListGrows(fields: seq<Field>, key: Text, items: seq<Json>, v: Json)
    requires Get(fields, key) == Some(Arr(items))
    ensures |EncodeFields(SetField(fields, key, Arr(items + [v])))| <= |EncodeFields(fields)| + Size(v) + 1
  {
    hide EncodeFields, Encode, EncodeField;
    var head, rest := fields[0], fields[1..];
    assert fields == [head] + rest;
    FieldsSplit(head, rest);
    if head.key == key {
      FieldsSplit(Field(key, Arr(items + [v])), rest);
      ListGrows(items, v);
      MemberSize(key, Arr(items + [v]));
      MemberSize(key, Arr(items));
      assert head == Field(key, Arr(items));
    } else {
      NestedListGrows(rest, key, items, v);
      SetFieldGrows(rest, key, Arr(items + [v]));
      FieldsSplit(head, SetField(rest, key, Arr(items + [v])));
    }
  }

  lemma MemberSize(key: Text, value: Json)
    ensures |EncodeField(Field(key, value))| == |Quoted(key)| + 1 + Size(value)
  {}

  // ---- Native payloads ----------------------------------------------------------------------

  /** Copied bytes: their length, what strict parsing makes of them, and bounded renderings of both. */
  datatype Payload = Payload(length: nat, content: Result<Json, Text>, sample: Text, rendering: Text)

  predicate PayloadOk(p: Payload) {
    && p.length <= MAX_CAPTURE_BYTES
    && |p.sample| <= MAX_TEXT
    && (p.content.Ok? ==> p.content.value.Obj?)
    && (p.content.Err? ==> |p.content.error| <= MAX_CLASS_NAME)
  }

  datatype Callback = Copied(payload: Payload) | Uncopied(errorType: Text)

  datatype Pending = Pending(payload: Payload, sequence: nat, offset: real, arrived: real)

  datatype Name = Start | Interval_ | End | ErrorEvent | Complete | ServerJson | ServerText | Other

  const EVENT_KEY := Ascii("event")
  const DATA_KEY := Ascii("data")
  const START := Ascii("start")
  const INTERVAL := Ascii("interval")
  const INTERVALS := Ascii("intervals")
  const END := Ascii("end")
  const ERROR := Ascii("error")
  const COMPLETE := Ascii("complete")
  const SERVER_JSON := Ascii("server_output_json")
  const SERVER_TEXT := Ascii("server_output_text")
  const NO_ERROR := Ascii("no error")
  const VALUE_ERROR := Ascii("ValueError")

  function NameOf(kind: Text): Name {
    if kind == START then Start
    else if kind == INTERVAL then Interval_
    else if kind == END then End
    else if kind == ERROR then ErrorEvent
    else if kind == COMPLETE then Complete
    else if kind == SERVER_JSON then ServerJson
    else if kind == SERVER_TEXT then ServerText
    else Other
  }

  /** An envelope names its event and carries data; anything else is a complete document. */
  datatype Shape = Bad(errorType: Text) | Shaped(name: Name, kind: Text, wrapped: bool, part: Json, whole: Json)

  function ShapeOf(p: Payload): (s: Shape)
    requires PayloadOk(p)
    ensures s.Bad? ==> |s.errorType| <= MAX_CLASS_NAME
    ensures s.Shaped? ==> p.content == Ok(s.whole) && (s.name == Complete || s.wrapped)
  {
    match p.content
    case Err(errorType) => Bad(errorType)
    case Ok(whole) =>
      var event, data := Get(whole.fields, EVENT_KEY), Get(whole.fields, DATA_KEY);
      if event.Some? && data.Some? then
        if event.value.Str? then Shaped(NameOf(event.value.text), event.value.text, true, data.value, whole)
        else Bad(VALUE_ERROR)
      else Shaped(Complete, COMPLETE, false, whole, whole)
  }

  predicate PartOk(s: Shape)
    requires s.Shaped?
  {
    && (s.name in {Start, Interval_, End, Complete} ==> s.part.Obj?)
    && (s.name == ErrorEvent ==> s.part.Str? || s.part.Obj?)
  }

  function LiveKindOf(n: Name): LiveKind {
    match n
    case Start => NativeStart
    case Interval_ => Interval
    case End => NativeEnd
    case ErrorEvent => NativeError
    case Complete => NativeDocument
    case ServerJson => ServerOutput
    case ServerText => ServerOutput
    case Other => UnknownKind
  }

  function LiveDataOf(s: Shape): LiveData
    requires s.Shaped?
  {
    if s.name in {ServerJson, ServerText, Other} then Tagged(s.kind, s.part) else Plain(s.part)
  }

  function LiveBody(s: Shape, sample: Text, p: Pending): Body {
    if s.Bad? then
      Live(MalformedPayload, Sample(s.errorType, sample), Some(p.sequence), Some(p.offset), Some(p.arrived))
    else if PartOk(s) then Live(LiveKindOf(s.name), LiveDataOf(s), Some(p.sequence), Some(p.offset), Some(p.arrived))
    else Live(MalformedPayload, Sample(VALUE_ERROR, sample), Some(p.sequence), Some(p.offset), Some(p.arrived))
  }

  /** Whatever a payload turns out to be, its one live event is well formed. */
  lemma LiveBodyIsFine(p: Pending)
    requires PayloadOk(p.payload) && 0 < p.sequence <= MAX_COUNTER && p.offset >= 0.0 && p.arrived >= 0.0
    ensures var b := LiveBody(ShapeOf(p.payload), p.payload.sample, p); LiveFrameOk(b)
  {
    hide ShapeOf, Ascii, NameOf;
    ValueErrorIsShort();
  }

  lemma ValueErrorIsShort()
    ensures |VALUE_ERROR| <= MAX_CLASS_NAME
  {}

  function Truthy(v: Json): bool {
    match v
    case Null => false
    case Bool(flag) => flag
    case Int(n) => n != 0
    case Float(finite, _, value) => !finite || value != 0.0
    case Str(text) => text != []
    case Arr(items) => items != []
    case Obj(fields) => fields != []
    case Unsupported => true
  }

  function TotalLength(queue: seq<Pending>): nat {
    if queue == [] then 0 else queue[0].payload.length + TotalLength(queue[1..])
  }

  lemma {:induction false} TotalLengthAdds(queue: seq<Pending>, p: Pending)
    ensures TotalLength(queue + [p]) == TotalLength(queue) + p.payload.length
  {
    if queue == [] {
      assert queue + [p] == [p] && [p][1..] == [];
    } else {
      assert (queue + [p])[1..] == queue[1..] + [p];
      TotalLengthAdds(queue[1..], p);
    }
  }

  function Truncated(t: Text, n: nat): (r: Text)
    ensures |r| <= n
  {
    if |t| <= n then t else t[..n]
  }

  /** Pending items, in callback order, after everything parsed so far. */
  ghost predicate InOrder(queue: seq<Pending>, parsedTo: nat, parsedOffset: real, callbacks: nat, arrival: real) {
    && parsedTo <= callbacks && 0.0 <= parsedOffset <= arrival
    && (forall i :: 0 <= i < |queue| ==>
          && PayloadOk(queue[i].payload) && parsedTo < queue[i].sequence <= callbacks
          && parsedOffset <= queue[i].offset <= arrival && queue[i].arrived >= 0.0)
    && forall i, j :: 0 <= i < j < |queue| ==> queue[i].sequence < queue[j].sequence && queue[i].offset <= queue[j].offset
  }

  lemma HeadParses(queue: seq<Pending>, parsedTo: nat, parsedOffset: real, callbacks: nat, arrival: real)
    requires InOrder(queue, parsedTo, parsedOffset, callbacks, arrival) && queue != []
    ensures InOrder(queue[1..], queue[0].sequence, queue[0].offset, callbacks, arrival)
  {}

  lemma TailArrives(queue: seq<Pending>, parsedTo: nat, parsedOffset: real, callbacks: nat, arrival: real, p: Pending)
    requires InOrder(queue, parsedTo, parsedOffset, callbacks, arrival)
    requires PayloadOk(p.payload) && p.sequence == callbacks + 1 && p.offset >= arrival && p.arrived >= 0.0
    ensures InOrder(queue + [p], parsedTo, parsedOffset, callbacks + 1, p.offset)
  {}

  lemma TimePasses(queue: seq<Pending>, parsedTo: nat, parsedOffset: real, callbacks: nat, arrival: real, later: real)
    requires InOrder(queue, parsedTo, parsedOffset, callbacks, arrival) && later >= arrival
    ensures InOrder(queue, parsedTo, parsedOffset, callbacks + 1, later)
  {}

  /** Counters against what has been parsed so far. */
  ghost predicate CountsOk(
    callbacks: nat, copied: nat, captureDropped: nat, malformed: nat, retentionDropped: nat, pending: nat, consumed: nat)
  {
    && callbacks == copied + captureDropped && copied == consumed + pending
    && malformed <= consumed && retentionDropped <= consumed
  }

  lemma CopyCounts(
    callbacks: nat, copied: nat, captureDropped: nat, malformed: nat, retentionDropped: nat, pending: nat, consumed: nat)
    requires CountsOk(callbacks, copied, captureDropped, malformed, retentionDropped, pending, consumed)
    ensures CountsOk(callbacks + 1, copied + 1, captureDropped, malformed, retentionDropped, pending + 1, consumed)
  {}

  /** What was offered for delivery against the parser's own counters. */
  ghost predicate OffersOk(e: Emission, events: nat, liveEmitted: nat, liveDropped: nat, parsedTo: nat, parsedOffset: real) {
    && e.events <= events
    && e.liveEmitted == liveEmitted && e.liveDropped == liveDropped && liveDropped <= liveEmitted
    && e.lastSequence <= parsedTo && e.lastOffset <= parsedOffset && e.gaps == map[]
  }

  predicate NotesOk(notes: seq<Text>) {
    |notes| <= MAX_DIAGNOSTICS && forall i :: 0 <= i < |notes| ==> |notes[i]| <= MAX_TEXT
  }

  /** Everything retained, serialized, stays within what was charged for it and the empty shells. */
  ghost predicate ChargesCover(raw: Json, events: seq<Json>, charged: nat) {
    raw.Obj? && Size(raw) + ListSize(events) <= charged + 4 && charged <= MAX_RETAINED_BYTES
  }

  lemma EmptyShells()
    ensures ChargesCover(Obj([]), [], 0)
  {}

  /** The reconstructed document after one more event; `None` where an earlier document left no list to extend. */
  function Projected(raw: seq<Field>, s: Shape, errorText: Text): Option<seq<Field>>
    requires s.Shaped?
  {
    match s.name
    case Start => Some(SetField(raw, START, s.part))
    case Interval_ =>
      if Get(raw, INTERVALS).None? then Some(SetField(raw, INTERVALS, Arr([s.part])))
      else if Get(raw, INTERVALS).value.Arr? then Some(SetField(raw, INTERVALS, Arr(Get(raw, INTERVALS).value.items + [s.part])))
      else None
    case End => Some(SetField(raw, END, s.part))
    case ErrorEvent => Some(SetField(raw, ERROR, Str(errorText)))
    case ServerJson => Some(SetField(raw, SERVER_JSON, s.part))
    case ServerText => Some(SetField(raw, SERVER_TEXT, s.part))
    case _ => Some(raw)
  }

  /** What is charged for an event: its envelope, its projection and a fixed allowance. */
  function Charge(s: Shape, errorText: Text): nat
    requires s.Shaped?
  {
    Size(s.whole) + (if s.name == ErrorEvent then Size(Str(errorText)) else Size(s.part)) + CHARGE
  }

  const LONGEST_KEY := 18

  lemma KeysAreShort()
    ensures |START| <= LONGEST_KEY && |INTERVALS| <= LONGEST_KEY && |END| <= LONGEST_KEY && |ERROR| <= LONGEST_KEY
    ensures |SERVER_JSON| <= LONGEST_KEY && |SERVER_TEXT| <= LONGEST_KEY
  {}

  lemma KeyedGrows(fields: seq<Field>, key: Text, value: Json)
    requires |key| <= LONGEST_KEY
    ensures Size(Obj(SetField(fields, key, value))) <= Size(Obj(fields)) + Size(value) + 112
  {
    hide Encode, Escape, EncodeFields, SetField;
    ObjectGrows(fields, key, value);
    EscapeIsNoShorter(key);
  }

  lemma SingletonSize(v: Json)
    ensures Size(Arr([v])) == Size(v) + 2
  {
    assert [v] == [v] + [];
    ItemsSplit(v, []);
  }

  lemma ObjectSize(fields: seq<Field>)
    ensures Size(Obj(fields)) == 2 + |EncodeFields(fields)|
  {}

  /** A projection grows by less than what is charged for it. */
  lemma ProjectionIsCharged(raw: seq<Field>, s: Shape, errorText: Text)
    requires s.Shaped? && s.name != Complete && Projected(raw, s, errorText).Some?
    ensures Size(Obj(Projected(raw, s, errorText).value)) + Size(s.whole) + 1 <= Size(Obj(raw)) + Charge(s, errorText)
  {
    hide Encode, EncodeFields, SetField, Ascii, Get;
    KeysAreShort();
    match s.name
    case Start => KeyedGrows(raw, START, s.part);
    case Interval_ =>
      if Get(raw, INTERVALS).None? {
        SingletonSize(s.part);
        KeyedGrows(raw, INTERVALS, Arr([s.part]));
      } else {
        var items := Get(raw, INTERVALS).value.items;
        NestedListGrows(raw, INTERVALS, items, s.part);
        ObjectSize(raw);
        ObjectSize(SetField(raw, INTERVALS, Arr(items + [s.part])));
      }
    case End => KeyedGrows(raw, END, s.part);
    case ErrorEvent => KeyedGrows(raw, ERROR, Str(errorText));
    case ServerJson => KeyedGrows(raw, SERVER_JSON, s.part);
    case ServerText => KeyedGrows(raw, SERVER_TEXT, s.part);
    case _ =>
  }

  lemma EventIsCovered(raw: seq<Field>, events: seq<Json>, charged: nat, s: Shape, errorText: Text)
    requires ChargesCover(Obj(raw), events, charged) && s.Shaped? && s.name != Complete
    requires Projected(raw, s, errorText).Some? && charged + Charge(s, errorText) <= MAX_RETAINED_BYTES
    ensures ChargesCover(Obj(Projected(raw, s, errorText).value), events + [s.whole], charged + Charge(s, errorText))
  {
    hide Encode, Projected, Charge, Size, ListSize;
    ProjectionIsCharged(raw, s, errorText);
    ListGrows(events, s.whole);
  }

  /** A member is no larger than its object. */
  lemma {:induction false} MemberFits(fields: seq<Field>, key: Text)
    requires Get(fields, key).Some?
    ensures Size(Get(fields, key).value) <= |EncodeFields(fields)|
  {
    hide Encode, EncodeFields, EncodeField;
    var head, rest := fields[0], fields[1..];
    assert fields == [head] + rest;
    FieldsSplit(head, rest);
    MemberSize(head.key, head.value);
    if head.key != key {
      MemberFits(rest, key);
      NoFieldsNoBytes(rest);
    }
  }

  /** A complete document replaces everything and is charged in full. */
  lemma DocumentIsCovered(p: Payload)
    requires PayloadOk(p) && ShapeOf(p).Shaped? && ShapeOf(p).name == Complete && ShapeOf(p).part.Obj?
    requires Size(ShapeOf(p).whole) + CHARGE <= MAX_RETAINED_BYTES
    ensures ChargesCover(ShapeOf(p).part, [], Size(ShapeOf(p).whole) + CHARGE)
  {
    hide Encode, EncodeFields, NameOf;
    var whole := p.content.value;
    ObjectSize(whole.fields);
    if ShapeOf(p).wrapped { MemberFits(whole.fields, DATA_KEY); }
    NoEventsSize();
  }

  lemma NoEventsSize()
    ensures ListSize([]) == 2
  {}

  /** The error a value reports, if it reports one. */
  function ErrorIn(observed: Json, rendering: Text): (e: Option<Text>)
    ensures e.Some? ==> |e.value| <= MAX_NATIVE_ERROR
  {
    var text := if observed.Str? then observed.text else rendering;
    if Truthy(observed) && text != NO_ERROR then Some(Truncated(text, MAX_NATIVE_ERROR)) else None
  }

  /** What a copy contributes to the native error: an error event's data, or a document's `error` member. */
  function ErrorOf(p: Payload): (e: Option<Text>)
    requires PayloadOk(p)
    ensures e.Some? ==> |e.value| <= MAX_NATIVE_ERROR
  {
    var s := ShapeOf(p);
    if s.Bad? || !PartOk(s) then None
    else if s.name == ErrorEvent then ErrorIn(s.part, p.rendering)
    else if s.name == Complete && s.part.Obj? && Get(s.part.fields, ERROR).Some? then
      ErrorIn(Get(s.part.fields, ERROR).value, p.rendering)
    else None
  }

  // ---- What parsing keeps -------------------------------------------------------------------

  /** What the parser keeps of the stream; the copies it has parsed determine all of it. */
  datatype Books = Books(
    raw: Json, events: seq<Json>, charged: nat, source: Option<Source>, documentAt: nat,
    malformed: nat, retentionDropped: nat, failed: bool)

  const NOTHING_KEPT := Books(Obj([]), [], 0, None, 0, 0, 0, false)

  function ErrorText(p: Payload, s: Shape): Text
    requires s.Shaped?
  {
    if s.part.Str? then s.part.text else p.rendering
  }

  function Required(b: Books, p: Payload, s: Shape): nat
    requires s.Shaped?
  {
    if s.name == Complete then Size(s.whole) + CHARGE else b.charged + Charge(s, ErrorText(p, s))
  }

  /** Keep an event if its charge fits; a document too large to keep no longer covers the stream. */
  function Kept(b: Books, p: Pending, s: Shape): (c: Books)
    requires s.Shaped? && PartOk(s) && b.raw.Obj?
    ensures c.raw.Obj?
  {
    var required := Required(b, p.payload, s);
    if required > MAX_RETAINED_BYTES then
      b.(retentionDropped := b.retentionDropped + 1, source := if s.name == Complete then None else b.source)
    else if s.name == Complete then
      b.(raw := s.part, events := [], charged := required, source := Some(WorkerMessages.Callback), documentAt := p.sequence)
    else match Projected(b.raw.fields, s, ErrorText(p.payload, s))
      case None => b.(failed := true)
      case Some(fields) => b.(raw := Obj(fields), events := b.events + [s.whole], charged := required)
  }

  /** An event after a document is advisory, or it shows that the document did not cover the stream. */
  function Judged(b: Books, p: Pending): (c: Books)
    requires PayloadOk(p.payload) && b.raw.Obj?
    ensures c.raw.Obj?
  {
    var s := ShapeOf(p.payload);
    var uncovered := b.(malformed := b.malformed + 1, source := None);
    if s.Bad? || !PartOk(s) then uncovered
    else if b.source.Some? && s.name != Complete then
      if s.name in {Start, Interval_, End, ErrorEvent} then Kept(uncovered, p, s) else b
    else Kept(b, p, s)
  }

  lemma JudgedCounts(b: Books, p: Pending)
    requires PayloadOk(p.payload) && b.raw.Obj?
    ensures b.malformed <= Judged(b, p).malformed <= b.malformed + 1
    ensures b.retentionDropped <= Judged(b, p).retentionDropped <= b.retentionDropped + 1
  {
    hide PayloadOk, ShapeOf, PartOk, Projected, Required;
  }

  predicate AllOk(ps: seq<Pending>) { forall i :: 0 <= i < |ps| ==> PayloadOk(ps[i].payload) }

  /** The books after parsing these copies in order. */
  function AllJudged(ps: seq<Pending>): (b: Books)
    requires AllOk(ps)
    ensures b.raw.Obj?
  {
    if ps == [] then NOTHING_KEPT else Judged(AllJudged(ps[..|ps| - 1]), ps[|ps| - 1])
  }

  lemma JudgedNext(ps: seq<Pending>, p: Pending)
    requires AllOk(ps) && PayloadOk(p.payload)
    ensures AllOk(ps + [p]) && AllJudged(ps + [p]) == Judged(AllJudged(ps), p)
  {
    hide PayloadOk, Judged;
    assert (ps + [p])[..|ps|] == ps && (ps + [p])[|ps|] == p;
  }

  // ---- What is announced --------------------------------------------------------------------

  /** How many envelopes a stream of copies holds; the legacy stream numbers them. */
  function Wrapped(ps: seq<Pending>): nat
    requires AllOk(ps)
  {
    if ps == [] then 0 else Wrapped(ps[..|ps| - 1]) + Wraps(ps[|ps| - 1])
  }

  function Wraps(p: Pending): nat
    requires PayloadOk(p.payload)
  {
    var s := ShapeOf(p.payload);
    if s.Shaped? && s.wrapped then 1 else 0
  }

  /** What is offered for delivery for one copy, after `number` envelopes. */
  function OffersOf(live: bool, legacy: bool, number: nat, p: Pending): seq<Body>
    requires PayloadOk(p.payload)
  {
    LegacyOf(legacy, number, p) + LiveOf(live, p)
  }

  function LegacyOf(legacy: bool, number: nat, p: Pending): seq<Body>
    requires PayloadOk(p.payload)
  {
    var s := ShapeOf(p.payload);
    if legacy && s.Shaped? && s.wrapped then [Event(s.kind, s.part, number + 1, Some(p.arrived))] else []
  }

  function LiveOf(live: bool, p: Pending): seq<Body>
    requires PayloadOk(p.payload)
  {
    if live then [LiveBody(ShapeOf(p.payload), p.payload.sample, p)] else []
  }

  /** Everything offered for delivery while these copies are parsed, in order. */
  function AllOffers(live: bool, legacy: bool, ps: seq<Pending>): seq<Body>
    requires AllOk(ps)
  {
    if ps == [] then []
    else AllOffers(live, legacy, ps[..|ps| - 1]) + OffersOf(live, legacy, Wrapped(ps[..|ps| - 1]), ps[|ps| - 1])
  }

  /** The first error reported, by an error event or inside a document. */
  function FirstError(ps: seq<Pending>): Option<Text>
    requires AllOk(ps)
  {
    if ps == [] then None
    else if FirstError(ps[..|ps| - 1]).Some? then FirstError(ps[..|ps| - 1]) else ErrorOf(ps[|ps| - 1].payload)
  }

  lemma OffersNext(live: bool, legacy: bool, ps: seq<Pending>, p: Pending)
    requires AllOk(ps) && PayloadOk(p.payload)
    ensures AllOk(ps + [p]) && Wrapped(ps + [p]) == Wrapped(ps) + Wraps(p)
    ensures AllOffers(live, legacy, ps + [p]) == AllOffers(live, legacy, ps) + OffersOf(live, legacy, Wrapped(ps), p)
    ensures FirstError(ps + [p]) == if FirstError(ps).Some? then FirstError(ps) else ErrorOf(p.payload)
  {
    hide PayloadOk, OffersOf, Wraps, ErrorOf;
    assert (ps + [p])[..|ps|] == ps && (ps + [p])[|ps|] == p;
  }

  /** The losses announced at the end. */
  function GapOffers(live: bool, captured: nat, retained: nat): seq<Body> {
    GapOf(live, CaptureStage, captured) + GapOf(live, RetentionStage, retained)
  }

  function GapOf(live: bool, stage: Stage, dropped: nat): seq<Body> {
    if live && dropped > 0 then [Live(DeliveryGap, Gap(stage, dropped), None, None, None)] else []
  }

  /** At the end, a loss after the last document uncovers it as well. */
  function Concluded(b: Books, lastLoss: nat): Books {
    if b.source.Some? && lastLoss > b.documentAt then b.(source := None) else b
  }

  /** An independent getter copy replaces the document and drops the envelopes. */
  function Replaced(b: Books, p: Payload): Books
    requires Restores(p)
  {
    b.(raw := p.content.value, events := [], charged := Size(p.content.value) + CHARGE, source := Some(Getter))
  }

  // ---- The capture --------------------------------------------------------------------------

  /** `EventCapture`. Delivery of the n-th offered message succeeds or not as `admits` says. */
  class Capture {
    const live: bool
    const legacy: bool
    const admits: nat -> bool
    var raw: Json
    var nativeEvents: seq<Json>
    var eventsEmitted: nat
    var eventsDropped: nat
    var callbacks: nat
    var copied: nat
    var captureDropped: nat
    var malformed: nat
    var retentionDropped: nat
    var liveEmitted: nat
    var liveDropped: nat
    var complete: bool
    var source: Option<Source>
    var getterError: Option<Text>
    var nativeError: Option<Text>
    var completeSequence: nat
    var lastCaptureLoss: nat
    var diagnostics: seq<Text>
    var retainedBytes: nat
    var pendingBytes: nat
    var queue: seq<Pending>
    var closed: bool
    var failed: bool
    var offered: nat
    ghost var emission: Emission
    ghost var offers: seq<Body>
    ghost var consumed: nat
    ghost var parsed: seq<Pending>
    ghost var parsedTo: nat
    ghost var parsedOffset: real
    ghost var arrival: real

    ghost predicate Steady()
      reads this
    {
      && CountsOk(callbacks, copied, captureDropped, malformed, retentionDropped, |queue|, consumed)
      && InOrder(queue, parsedTo, parsedOffset, callbacks, arrival)
      && pendingBytes == TotalLength(queue) && pendingBytes <= MAX_PENDING_BYTES && |queue| <= MAX_PENDING_CAPTURES
      && complete == source.Some? && NotesOk(diagnostics) && eventsDropped <= eventsEmitted
      && callbacks <= MAX_CALLBACKS && (captureDropped == 0 ==> lastCaptureLoss == 0)
    }

    ghost function Book(): Books
      reads this`raw, this`nativeEvents, this`retainedBytes, this`source, this`completeSequence, this`malformed,
        this`retentionDropped, this`failed
    {
      Books(raw, nativeEvents, retainedBytes, source, completeSequence, malformed, retentionDropped, failed)
    }

    /** What is kept and announced is a function of the copies parsed, whatever else went on meanwhile. */
    ghost predicate Remembered()
      reads this`raw, this`nativeEvents, this`retainedBytes, this`source, this`completeSequence, this`malformed,
        this`retentionDropped, this`failed, this`parsed, this`offers, this`eventsEmitted, this`nativeError
    {
      && AllOk(parsed) && Book() == AllJudged(parsed) && nativeError == FirstError(parsed)
      && offers == AllOffers(live, legacy, parsed) && eventsEmitted == Wrapped(parsed)
    }

    ghost predicate Valid()
      reads this
    {
      Sound() && Remembered()
    }

    ghost predicate Sound()
      reads this
    {
      && Steady()
      && ChargesCover(raw, nativeEvents, retainedBytes)
      && OffersOk(emission, eventsEmitted, liveEmitted, liveDropped, parsedTo, parsedOffset)
      && liveEmitted == (if live then consumed else 0)
      && getterError.None?
    }

    constructor (live: bool, legacy: bool, admits: nat -> bool)
      ensures Valid() && this.live == live && this.legacy == legacy && callbacks == 0 && !closed && !failed && arrival == 0.0
      ensures emission == Silence && parsed == [] && queue == [] && captureDropped == 0
    {
      this.live, this.legacy, this.admits := live, legacy, admits;
      raw, nativeEvents, retainedBytes := Obj([]), [], 0;
      eventsEmitted, eventsDropped, callbacks, copied, captureDropped, malformed := 0, 0, 0, 0, 0, 0;
      retentionDropped, liveEmitted, liveDropped, completeSequence, lastCaptureLoss := 0, 0, 0, 0, 0;
      complete, source, getterError, nativeError, diagnostics := false, None, None, None, [];
      pendingBytes, queue, closed, failed, offered := 0, [], false, false, 0;
      emission, offers, consumed, parsed, parsedTo, parsedOffset, arrival := Silence, [], 0, [], 0, 0.0, 0.0;
      new;
      EmptyShells();
    }

    method Diagnose(note: Text)
      requires NotesOk(diagnostics)
      modifies this`diagnostics
      ensures NotesOk(diagnostics)
    {
      if |diagnostics| < MAX_DIAGNOSTICS {
        diagnostics := diagnostics + [Truncated(note, MAX_TEXT)];
      }
    }

    predicate Room(length: nat)
      reads this`closed, this`queue, this`pendingBytes
    {
      !closed && |queue| < MAX_PENDING_CAPTURES && pendingBytes + length <= MAX_PENDING_BYTES
    }

    /** Copy bytes and metadata inside the native callback; a full queue loses the copy. */
    method Call(cb: Callback, offset: real, arrived: real)
      requires Valid() && callbacks < MAX_CALLBACKS && offset >= arrival && arrived >= 0.0
      requires cb.Copied? ==> PayloadOk(cb.payload)
      modifies this`callbacks, this`copied, this`captureDropped, this`lastCaptureLoss, this`diagnostics, this`queue,
        this`pendingBytes, this`arrival
      ensures Valid() && callbacks == old(callbacks) + 1 && arrival == offset
      ensures if cb.Copied? && old(Room(cb.payload.length))
        then queue == old(queue) + [Pending(cb.payload, callbacks, offset, arrived)] && captureDropped == old(captureDropped)
        else queue == old(queue) && captureDropped == old(captureDropped) + 1 && lastCaptureLoss == callbacks
    {
      hide Valid, PayloadOk;
      match cb {
        case Uncopied(errorType) => Lose(errorType, offset);
        case Copied(payload) =>
          if Room(payload.length) { Enqueue(payload, offset, arrived); } else { Lose([], offset); }
      }
    }

    method Lose(note: Text, ghost offset: real)
      requires Valid() && callbacks < MAX_CALLBACKS && offset >= arrival
      modifies this`callbacks, this`captureDropped, this`lastCaptureLoss, this`diagnostics, this`arrival
      ensures Valid() && callbacks == old(callbacks) + 1 && arrival == offset && captureDropped == old(captureDropped) + 1
      ensures lastCaptureLoss == callbacks
    {
      hide Remembered, TotalLength, NotesOk, InOrder, ChargesCover, OffersOk, Truncated;
      TimePasses(queue, parsedTo, parsedOffset, callbacks, arrival, offset);
      callbacks, arrival := callbacks + 1, offset;
      captureDropped, lastCaptureLoss := captureDropped + 1, callbacks;
      if note != [] { Diagnose(note); }
    }

    method Enqueue(payload: Payload, offset: real, arrived: real)
      requires Valid() && callbacks < MAX_CALLBACKS && offset >= arrival && arrived >= 0.0
      requires PayloadOk(payload) && Room(payload.length)
      modifies this`callbacks, this`copied, this`queue, this`pendingBytes, this`arrival
      ensures Valid() && callbacks == old(callbacks) + 1 && arrival == offset
      ensures queue == old(queue) + [Pending(payload, callbacks, offset, arrived)]
    {
      hide Remembered, Book, PayloadOk, TotalLength, NotesOk, InOrder, ChargesCover, OffersOk, CountsOk;
      CopyCounts(callbacks, copied, captureDropped, malformed, retentionDropped, |queue|, consumed);
      var p := Pending(payload, callbacks + 1, offset, arrived);
      TailArrives(queue, parsedTo, parsedOffset, callbacks, arrival, p);
      TotalLengthAdds(queue, p);
      callbacks, arrival := callbacks + 1, offset;
      queue, pendingBytes, copied := queue + [p], pendingBytes + payload.length, copied + 1;
    }

    /** Offer one message to the worker's queue; a refusal is a drop. */
    method Deliver(b: Body) returns (ok: bool)
      requires MayEmit(live, emission, b)
      modifies this`offered, this`emission, this`offers
      ensures emission == Offered(old(emission), b, ok) && offers == old(offers) + [b]
    {
      ok := admits(offered);
      offered := offered + 1;
      emission, offers := Offered(emission, b, ok), offers + [b];
    }

    method DeliverLive(b: Body)
      requires b.Live? && (live ==> MayEmit(live, emission, b))
      modifies this`offered, this`emission, this`offers, this`liveEmitted, this`liveDropped
      ensures offers == old(offers) + if live then [b] else []
      ensures !live ==> emission == old(emission) && liveEmitted == old(liveEmitted) && liveDropped == old(liveDropped)
      ensures live ==> liveEmitted == old(liveEmitted) + 1
      ensures live ==> exists ok ::
        emission == Offered(old(emission), b, ok) && liveDropped == old(liveDropped) + if ok then 0 else 1
    {
      if live {
        liveEmitted := liveEmitted + 1;
        var ok := Deliver(b);
        if !ok { liveDropped := liveDropped + 1; }
      }
    }

    /** A complete document no longer covers the stream. */
    method Uncover(note: Text)
      requires NotesOk(diagnostics)
      modifies this`complete, this`source, this`diagnostics
      ensures !complete && source.None? && NotesOk(diagnostics)
    {
      complete, source := false, None;
      Diagnose(note);
    }

    /** Keep the first native error observed, truncated. */
    method NoteError(observed: Json, rendering: Text)
      modifies this`nativeError
      ensures nativeError == if old(nativeError).Some? then old(nativeError) else ErrorIn(observed, rendering)
    {
      if nativeError.None? && Truthy(observed) {
        var text := if observed.Str? then observed.text else rendering;
        if text != NO_ERROR {
          nativeError := Some(Truncated(text, MAX_NATIVE_ERROR));
        }
      }
    }

    /** Charge and retain one event, refuse it for its size, or fail where no list can be extended. */
    method Retain(p: Pending, s: Shape)
      requires PayloadOk(p.payload) && s == ShapeOf(p.payload) && s.Shaped? && PartOk(s)
      requires ChargesCover(raw, nativeEvents, retainedBytes) && NotesOk(diagnostics) && complete == source.Some?
      modifies this`raw, this`nativeEvents, this`retainedBytes, this`retentionDropped, this`complete, this`source,
        this`completeSequence, this`diagnostics, this`failed
      ensures old(raw).Obj? && Book() == Kept(old(Book()), p, s)
      ensures ChargesCover(raw, nativeEvents, retainedBytes) && NotesOk(diagnostics) && complete == source.Some?
    {
      hide ChargesCover, ShapeOf, Projected, Charge, Size, NotesOk, PartOk;
      RawIsObject(raw, nativeEvents, retainedBytes);
      var errorText := if s.part.Str? then s.part.text else p.payload.rendering;
      var required := if s.name == Complete then Size(s.whole) + CHARGE else retainedBytes + Charge(s, errorText);
      if required > MAX_RETAINED_BYTES {
        retentionDropped := retentionDropped + 1;
        if s.name == Complete { complete, source := false, None; }
        Diagnose([]);
        return;
      }
      if s.name == Complete {
        PartsAreObjects(s);
        DocumentIsCovered(p.payload);
        raw, nativeEvents, retainedBytes := s.part, [], required;
        complete, source, completeSequence := true, Some(WorkerMessages.Callback), p.sequence;
        return;
      }
      var projected := Projected(raw.fields, s, errorText);
      if projected.None? {
        failed := true;
        return;
      }
      EventIsCovered(raw.fields, nativeEvents, retainedBytes, s, errorText);
      raw, nativeEvents, retainedBytes := Obj(projected.value), nativeEvents + [s.whole], required;
    }

    static lemma PartsAreObjects(s: Shape)
      requires s.Shaped? && PartOk(s) && s.name == Complete
      ensures s.part.Obj?
    {}

    static lemma RawIsObject(raw: Json, events: seq<Json>, charged: nat)
      requires ChargesCover(raw, events, charged)
      ensures raw.Obj?
    {}

    /** The legacy event stream numbers envelopes, delivered or not. */
    method DeliverLegacy(s: Shape, p: Pending)
      requires PayloadOk(p.payload) && s == ShapeOf(p.payload) && p.arrived >= 0.0 && eventsDropped <= eventsEmitted
      requires OffersOk(emission, eventsEmitted, liveEmitted, liveDropped, parsedTo, parsedOffset)
      modifies this`eventsEmitted, this`eventsDropped, this`offered, this`emission, this`offers
      ensures eventsEmitted == old(eventsEmitted) + Wraps(p)
      ensures offers == old(offers) + LegacyOf(legacy, old(eventsEmitted), p)
      ensures eventsDropped <= eventsEmitted
      ensures !legacy || s.Bad? || !s.wrapped ==> emission == old(emission) && eventsDropped == old(eventsDropped)
      ensures legacy && s.Shaped? && s.wrapped ==> exists ok ::
        emission == Offered(old(emission), Event(s.kind, s.part, eventsEmitted, Some(p.arrived)), ok)
        && eventsDropped == old(eventsDropped) + if ok then 0 else 1
      ensures OffersOk(emission, eventsEmitted, liveEmitted, liveDropped, parsedTo, parsedOffset)
    {
      hide PayloadOk, ShapeOf;
      if s.Bad? || !s.wrapped { return; }
      eventsEmitted := eventsEmitted + 1;
      if legacy {
        var ok := Deliver(Event(s.kind, s.part, eventsEmitted, Some(p.arrived)));
        if !ok { eventsDropped := eventsDropped + 1; }
      }
    }

    /** Exactly one live event per parsed copy. */
    method DeliverParsed(s: Shape, p: Pending)
      requires PayloadOk(p.payload) && s == ShapeOf(p.payload) && parsedTo < p.sequence <= MAX_COUNTER
      requires 0.0 <= parsedOffset <= p.offset && p.arrived >= 0.0
      requires OffersOk(emission, eventsEmitted, liveEmitted, liveDropped, parsedTo, parsedOffset)
      modifies this`offered, this`emission, this`offers, this`liveEmitted, this`liveDropped
      ensures liveEmitted == old(liveEmitted) + (if live then 1 else 0)
      ensures offers == old(offers) + LiveOf(live, p)
      ensures live ==> exists ok :: emission == Offered(old(emission), LiveBody(s, p.payload.sample, p), ok)
      ensures OffersOk(emission, eventsEmitted, liveEmitted, liveDropped, p.sequence, p.offset)
    {
      hide PayloadOk, ShapeOf, PartOk, LiveFrameOk;
      LiveBodyIsFine(p);
      DeliverLive(LiveBody(s, p.payload.sample, p));
    }

    method Announce(s: Shape, p: Pending)
      requires PayloadOk(p.payload) && s == ShapeOf(p.payload) && parsedTo < p.sequence <= MAX_COUNTER
      requires 0.0 <= parsedOffset <= p.offset && p.arrived >= 0.0 && eventsDropped <= eventsEmitted
      requires OffersOk(emission, eventsEmitted, liveEmitted, liveDropped, parsedTo, parsedOffset)
      modifies this`eventsEmitted, this`eventsDropped, this`offered, this`emission, this`offers, this`liveEmitted, this`liveDropped,
        this`parsedTo, this`parsedOffset
      ensures liveEmitted == old(liveEmitted) + (if live then 1 else 0) && eventsDropped <= eventsEmitted
      ensures offers == old(offers) + OffersOf(live, legacy, old(eventsEmitted), p)
      ensures eventsEmitted == old(eventsEmitted) + Wraps(p)
      ensures parsedTo == p.sequence && parsedOffset == p.offset
      ensures OffersOk(emission, eventsEmitted, liveEmitted, liveDropped, parsedTo, parsedOffset)
    {
      hide PayloadOk, ShapeOf, OffersOk, LegacyOf, LiveOf, Wraps;
      DeliverLegacy(s, p);
      DeliverParsed(s, p);
      parsedTo, parsedOffset := p.sequence, p.offset;
    }

    lemma HeadIsPending()
      requires Steady() && queue != []
      ensures PayloadOk(queue[0].payload) && parsedTo < queue[0].sequence <= MAX_COUNTER
      ensures 0.0 <= parsedOffset <= queue[0].offset && queue[0].arrived >= 0.0
      ensures InOrder(queue[1..], queue[0].sequence, queue[0].offset, callbacks, arrival)
      ensures TotalLength(queue) == queue[0].payload.length + TotalLength(queue[1..])
    {
      hide PayloadOk, NotesOk;
      HeadParses(queue, parsedTo, parsedOffset, callbacks, arrival);
    }

    /** Move the oldest copy from the queue to the parser. */
    method Take() returns (p: Pending)
      requires Sound() && queue != []
      modifies this`queue, this`pendingBytes, this`consumed
      ensures p == old(queue)[0] && queue == old(queue)[1..] && consumed == old(consumed) + 1
      ensures PayloadOk(p.payload) && parsedTo < p.sequence <= MAX_COUNTER
      ensures 0.0 <= parsedOffset <= p.offset && p.arrived >= 0.0
      ensures InOrder(queue, p.sequence, p.offset, callbacks, arrival)
      ensures pendingBytes == TotalLength(queue) && pendingBytes <= MAX_PENDING_BYTES && |queue| <= MAX_PENDING_CAPTURES
      ensures CountsOk(callbacks, copied, captureDropped, malformed, retentionDropped, |queue|, consumed)
      ensures malformed < consumed && retentionDropped < consumed
    {
      HeadIsPending();
      hide PayloadOk, TotalLength, InOrder, ChargesCover, OffersOk, NotesOk;
      p := queue[0];
      queue, pendingBytes, consumed := queue[1..], pendingBytes - p.payload.length, consumed + 1;
    }

    /** What the parser makes of one copy, once its events are delivered. */
    method Judge(p: Pending, s: Shape)
      requires PayloadOk(p.payload) && s == ShapeOf(p.payload)
      requires ChargesCover(raw, nativeEvents, retainedBytes) && NotesOk(diagnostics) && complete == source.Some?
      requires CountsOk(callbacks, copied, captureDropped, malformed, retentionDropped, |queue|, consumed)
      requires malformed < consumed && retentionDropped < consumed
      modifies this`raw, this`nativeEvents, this`retainedBytes, this`retentionDropped, this`malformed, this`complete,
        this`source, this`completeSequence, this`diagnostics, this`failed, this`nativeError
      ensures ChargesCover(raw, nativeEvents, retainedBytes) && NotesOk(diagnostics) && complete == source.Some?
      ensures old(raw).Obj? && Book() == Judged(old(Book()), p)
      ensures nativeError == if old(nativeError).Some? then old(nativeError) else ErrorOf(p.payload)
      ensures CountsOk(callbacks, copied, captureDropped, malformed, retentionDropped, |queue|, consumed)
    {
      hide PayloadOk, ChargesCover, ShapeOf, PartOk, NotesOk, Kept, ErrorIn;
      RawIsObject(raw, nativeEvents, retainedBytes);
      JudgedCounts(Book(), p);
      if s.Bad? || !PartOk(s) {
        malformed := malformed + 1;
        Uncover([]);
        return;
      }
      if s.name == ErrorEvent {
        NoteError(s.part, p.payload.rendering);
      } else if s.name == Complete && s.part.Obj? && Get(s.part.fields, ERROR).Some? {
        NoteError(Get(s.part.fields, ERROR).value, p.payload.rendering);
      }
      if complete && s.wrapped && s.name != Complete {
        if s.name !in {Start, Interval_, End, ErrorEvent} { return; }
        malformed := malformed + 1;
        Uncover([]);
      }
      Retain(p, s);
    }

    /** Everything but what the parser retains of the copy. */
    ghost predicate Announced()
      reads this
    {
      && InOrder(queue, parsedTo, parsedOffset, callbacks, arrival)
      && pendingBytes == TotalLength(queue) && pendingBytes <= MAX_PENDING_BYTES && |queue| <= MAX_PENDING_CAPTURES
      && CountsOk(callbacks, copied, captureDropped, malformed, retentionDropped, |queue|, consumed)
      && malformed < consumed && retentionDropped < consumed && callbacks <= MAX_CALLBACKS
      && OffersOk(emission, eventsEmitted, liveEmitted, liveDropped, parsedTo, parsedOffset)
      && liveEmitted == (if live then consumed else 0)
      && eventsDropped <= eventsEmitted
    }

    method TakeAndAnnounce() returns (p: Pending, s: Shape)
      requires Sound() && queue != []
      modifies this`queue, this`pendingBytes, this`consumed, this`eventsEmitted, this`eventsDropped, this`offered,
        this`emission, this`offers, this`liveEmitted, this`liveDropped, this`parsedTo, this`parsedOffset
      ensures Announced() && consumed == old(consumed) + 1 && queue == old(queue)[1..] && p == old(queue)[0]
      ensures PayloadOk(p.payload) && s == ShapeOf(p.payload)
      ensures offers == old(offers) + OffersOf(live, legacy, old(eventsEmitted), p)
      ensures eventsEmitted == old(eventsEmitted) + Wraps(p)
    {
      hide PayloadOk, TotalLength, InOrder, ChargesCover, ShapeOf, OffersOk, NotesOk, CountsOk, OffersOf, Wraps;
      p := Take();
      s := ShapeOf(p.payload);
      Announce(s, p);
    }

    /** Parse the oldest copy: exactly one live event, at most one legacy event, and what is retained of it. */
    method ParseHead() returns (p: Pending)
      requires Sound() && queue != []
      modifies this`queue, this`pendingBytes, this`consumed, this`eventsEmitted, this`eventsDropped, this`offered,
        this`emission, this`offers, this`liveEmitted, this`liveDropped, this`parsedTo, this`parsedOffset,
        this`raw, this`nativeEvents, this`retainedBytes, this`retentionDropped, this`malformed, this`complete,
        this`source, this`completeSequence, this`diagnostics, this`failed, this`nativeError
      ensures Sound() && consumed == old(consumed) + 1 && queue == old(queue)[1..] && p == old(queue)[0]
      ensures PayloadOk(p.payload) && old(raw).Obj? && Book() == Judged(old(Book()), p)
      ensures nativeError == if old(nativeError).Some? then old(nativeError) else ErrorOf(p.payload)
      ensures offers == old(offers) + OffersOf(live, legacy, old(eventsEmitted), p)
      ensures eventsEmitted == old(eventsEmitted) + Wraps(p)
    {
      hide PayloadOk, TotalLength, InOrder, ChargesCover, ShapeOf, OffersOk, NotesOk, Judged, Book, ErrorOf, OffersOf, Wraps,
        CountsOk;
      var s;
      p, s := TakeAndAnnounce();
      Judge(p, s);
    }

    method ParseOne()
      requires Valid() && queue != []
      modifies this`queue, this`pendingBytes, this`consumed, this`eventsEmitted, this`eventsDropped, this`offered,
        this`emission, this`offers, this`liveEmitted, this`liveDropped, this`parsedTo, this`parsedOffset,
        this`raw, this`nativeEvents, this`retainedBytes, this`retentionDropped, this`malformed, this`complete,
        this`source, this`completeSequence, this`diagnostics, this`failed, this`nativeError, this`parsed
      ensures Valid() && consumed == old(consumed) + 1 && queue == old(queue)[1..]
      ensures parsed == old(parsed) + [old(queue)[0]]
    {
      hide PayloadOk, Judged, AllJudged, TotalLength, InOrder, ChargesCover, ShapeOf, OffersOk, NotesOk, CountsOk, AllOffers,
        OffersOf, Wraps, Wrapped, FirstError, ErrorOf;
      var p := ParseHead();
      JudgedNext(parsed, p);
      OffersNext(live, legacy, parsed, p);
      parsed := parsed + [p];
    }

    /** Every callback is counted once and the gaps announced are the final losses. */
    ghost predicate Reconciled()
      reads this`callbacks, this`copied, this`captureDropped, this`malformed, this`retentionDropped, this`emission,
        this`eventsEmitted, this`eventsDropped, this`liveEmitted, this`liveDropped, this`lastCaptureLoss
    {
      && CountsOk(callbacks, copied, captureDropped, malformed, retentionDropped, 0, copied) && callbacks <= MAX_CALLBACKS
      && (captureDropped == 0 ==> lastCaptureLoss == 0)
      && emission.events <= eventsEmitted && eventsDropped <= eventsEmitted
      && emission.liveEmitted == liveEmitted && emission.liveDropped == liveDropped && liveDropped <= liveEmitted
      && emission.lastSequence <= callbacks
      && (forall stage :: stage in emission.gaps ==> emission.gaps[stage] == Lost(stage))
      && liveEmitted == (if live then copied + Gaps() else 0)
    }

    /** Nothing is pending: what is retained, announced and counted is final. */
    ghost predicate Settled()
      reads this
    {
      && Reconciled()
      && complete == source.Some? && NotesOk(diagnostics)
      && ChargesCover(raw, nativeEvents, retainedBytes)
      && (getterError.Some? ==> |getterError.value| <= MAX_TEXT)
    }

    ghost function Lost(stage: Stage): int
      reads this`captureDropped, this`retentionDropped
    {
      if stage == CaptureStage then captureDropped else retentionDropped
    }

    /** How many stages lost anything. */
    ghost function Gaps(): nat
      reads this`captureDropped, this`retentionDropped
    {
      (if captureDropped > 0 then 1 else 0) + (if retentionDropped > 0 then 1 else 0)
    }

    method DeliverGap(stage: Stage, dropped: nat)
      requires stage !in emission.gaps
      requires OffersOk(emission.(gaps := map[]), eventsEmitted, liveEmitted, liveDropped, parsedTo, parsedOffset)
      modifies this`offered, this`emission, this`offers, this`liveEmitted, this`liveDropped
      ensures liveEmitted == old(liveEmitted) + (if live && dropped > 0 then 1 else 0)
      ensures OffersOk(emission.(gaps := map[]), eventsEmitted, liveEmitted, liveDropped, parsedTo, parsedOffset)
      ensures emission.gaps == if live && dropped > 0 then old(emission).gaps[stage := dropped] else old(emission).gaps
      ensures offers == old(offers) + GapOf(live, stage, dropped)
    {
      if dropped > 0 {
        DeliverLive(Live(DeliveryGap, Gap(stage, dropped), None, None, None));
      }
    }

    /** No callback is copied from now on. */
    method Shut()
      requires Valid()
      modifies this`closed
      ensures Valid() && closed
    {
      hide Remembered, TotalLength, InOrder, ChargesCover, OffersOk, NotesOk, CountsOk;
      closed := true;
    }

    /** Parse everything still pending. */
    method Drain() returns (ok: bool)
      requires Valid()
      modifies this`closed, this`queue, this`pendingBytes, this`consumed, this`eventsEmitted, this`eventsDropped, this`offered,
        this`emission, this`offers, this`liveEmitted, this`liveDropped, this`parsedTo, this`parsedOffset,
        this`raw, this`nativeEvents, this`retainedBytes, this`retentionDropped, this`malformed, this`complete,
        this`source, this`completeSequence, this`diagnostics, this`failed, this`nativeError, this`parsed
      ensures Valid() && ok == !failed && (ok ==> queue == []) && parsed + queue == old(parsed + queue)
    {
      hide Valid;
      Shut();
      while queue != [] && !failed
        invariant Valid() && parsed + queue == old(parsed + queue)
        decreases |queue|
      {
        assert queue == [queue[0]] + queue[1..];
        ParseOne();
      }
      return !failed;
    }

    /** A loss after the last complete document uncovers it. */
    method Conclude()
      requires NotesOk(diagnostics) && complete == source.Some?
      modifies this`complete, this`source, this`diagnostics
      ensures NotesOk(diagnostics) && complete == source.Some? && Book() == Concluded(old(Book()), lastCaptureLoss)
    {
      hide NotesOk;
      if complete && lastCaptureLoss > completeSequence { Uncover([]); }
    }

    lemma CountsAreFinal()
      requires Valid() && queue == []
      ensures CountsOk(callbacks, copied, captureDropped, malformed, retentionDropped, 0, copied) && consumed == copied
      ensures callbacks <= MAX_CALLBACKS && parsedTo <= callbacks
      ensures captureDropped == 0 ==> lastCaptureLoss == 0
    {
      hide Remembered, TotalLength, ChargesCover, NotesOk;
    }

    /** Each stage that lost anything is announced once, with its count. */
    method AnnounceLosses()
      requires OffersOk(emission, eventsEmitted, liveEmitted, liveDropped, parsedTo, parsedOffset)
      modifies this`offered, this`emission, this`offers, this`liveEmitted, this`liveDropped
      ensures liveEmitted == old(liveEmitted) + (if live then Gaps() else 0)
      ensures OffersOk(emission.(gaps := map[]), eventsEmitted, liveEmitted, liveDropped, parsedTo, parsedOffset)
      ensures forall stage :: stage in emission.gaps <==> live && Lost(stage) > 0
      ensures forall stage :: stage in emission.gaps ==> emission.gaps[stage] == Lost(stage)
      ensures offers == old(offers) + GapOffers(live, captureDropped, retentionDropped)
    {
      hide OffersOk, GapOf;
      NoGapsYet();
      DeliverGap(CaptureStage, captureDropped);
      DeliverGap(RetentionStage, retentionDropped);
    }

    lemma NoGapsYet()
      requires OffersOk(emission, eventsEmitted, liveEmitted, liveDropped, parsedTo, parsedOffset)
      ensures emission.gaps == map[] && emission.(gaps := map[]) == emission
    {}

    /** The end of the parser: a loss after the last complete document uncovers it, then each loss is announced. */
    method Finish()
      requires Valid() && queue == []
      modifies this`complete, this`source, this`diagnostics, this`offered, this`emission, this`offers, this`liveEmitted,
        this`liveDropped
      ensures Settled()
      ensures live ==> forall stage :: stage in emission.gaps <==> Lost(stage) > 0
      ensures offers == old(offers) + GapOffers(live, captureDropped, retentionDropped)
      ensures Book() == Concluded(old(Book()), lastCaptureLoss)
    {
      hide Remembered, Book, Concluded, TotalLength, ChargesCover, NotesOk, CountsOk, InOrder, GapOffers;
      CountsAreFinal();
      Conclude();
      AnnounceLosses();
    }

    /** `close`: drain and join before anything is published; `None` if the parser failed. */
    method Close() returns (ok: bool)
      requires Valid()
      modifies this`closed, this`queue, this`pendingBytes, this`consumed, this`eventsEmitted, this`eventsDropped, this`offered,
        this`emission, this`offers, this`liveEmitted, this`liveDropped, this`parsedTo, this`parsedOffset,
        this`raw, this`nativeEvents, this`retainedBytes, this`retentionDropped, this`malformed, this`complete,
        this`source, this`completeSequence, this`diagnostics, this`failed, this`nativeError, this`parsed
      ensures ok == !failed && (ok ==> Settled())
      ensures ok ==> parsed == old(parsed + queue) && AllOk(parsed) && Book() == Concluded(AllJudged(parsed), lastCaptureLoss)
      ensures ok ==> offers == AllOffers(live, legacy, parsed) + GapOffers(live, captureDropped, retentionDropped)
      ensures ok ==> eventsEmitted == Wrapped(parsed) && nativeError == FirstError(parsed)
    {
      hide Sound, Settled, Book, AllJudged, Concluded, AllOffers, GapOffers, Wrapped, FirstError;
      ok := Drain();
      if ok { Finish(); }
    }

    method NoteGetter(note: Option<Text>)
      requires Settled() && (note.Some? ==> |note.value| <= MAX_TEXT)
      modifies this`getterError
      ensures Settled() && getterError == note && Book() == old(Book())
    {
      hide Reconciled, ChargesCover, NotesOk;
      getterError := note;
    }

    method Replace(p: Payload)
      requires Settled() && Restores(p)
      modifies this`raw, this`nativeEvents, this`retainedBytes, this`complete, this`source
      ensures Settled() && Book() == Replaced(old(Book()), p)
    {
      hide Reconciled, ChargesCover, NotesOk;
      RestoredIsCovered(p);
      raw, nativeEvents, retainedBytes := p.content.value, [], Size(p.content.value) + CHARGE;
      complete, source := true, Some(Getter);
    }

    /** `recover_document`: an independent getter copy may restore completeness. */
    method Recover(payload: Option<Payload>, error: Option<Text>)
      requires Settled() && (payload.Some? ==> PayloadOk(payload.value))
      modifies this`raw, this`nativeEvents, this`retainedBytes, this`complete, this`source, this`getterError
      ensures Settled()
      ensures Book() == if payload.Some? && Restores(payload.value) then Replaced(old(Book()), payload.value) else old(Book())
    {
      hide Settled, Restores, PayloadOk;
      GetterFacts(payload);
      if payload.Some? && !Restores(payload.value) {
        NoteGetter(Some(if payload.value.content.Err? then payload.value.content.error else VALUE_ERROR));
      } else {
        NoteGetter(if error.Some? && error.value != [] then Some(Truncated(error.value, MAX_TEXT)) else None);
      }
      if payload.Some? && Restores(payload.value) { Replace(payload.value); }
    }

    function Metadata(): Receipt
      reads this
    {
      Receipt(
        callbacks, copied, captureDropped, malformed, retentionDropped, liveEmitted, liveDropped, complete, source,
        getterError, captureDropped == 0 && malformed == 0 && retentionDropped == 0, diagnostics, true)
    }

    lemma SettledMeans()
      requires Settled()
      ensures callbacks == copied + captureDropped && liveEmitted == (if live then copied + Gaps() else 0)
      ensures ReceiptCloses(live, emission, Metadata())
      ensures Size(raw) + ListSize(nativeEvents) <= MAX_RETAINED_BYTES + 4
    {}

    /** A settled capture's report is exactly what a conforming worker may send. */
    lemma MetadataCloses(version: Text, b: Body)
      requires Settled() && b.Report? && b.raw == raw && b.evidence.Obj? && b.version == version
      requires FiniteNumber(b.startedAt) && FiniteNumber(b.completedAt) && FiniteNumber(b.elapsed)
      requires b.emitted == eventsEmitted && b.dropped == eventsDropped && b.capture == Some(Metadata())
      ensures ReportCloses(live, version, emission, b)
    {}
  }

  /** A strict unwrapped document that fits what may be retained. */
  predicate Restores(p: Payload) {
    && p.content.Ok? && p.content.value.Obj?
    && !(Get(p.content.value.fields, EVENT_KEY).Some? && Get(p.content.value.fields, DATA_KEY).Some?)
    && Size(p.content.value) + CHARGE <= MAX_RETAINED_BYTES
  }

  lemma GetterFacts(payload: Option<Payload>)
    requires payload.Some? ==> PayloadOk(payload.value)
    ensures |VALUE_ERROR| <= MAX_TEXT
    ensures payload.Some? && payload.value.content.Err? ==> |payload.value.content.error| <= MAX_TEXT
    ensures payload.Some? && Restores(payload.value) ==> payload.value.content.Ok?
  {
    ValueErrorIsShort();
  }

  lemma RestoredIsCovered(p: Payload)
    requires Restores(p)
    ensures ChargesCover(p.content.value, [], Size(p.content.value) + CHARGE)
  {
    NoEventsSize();
  }

  // ---- Any interleaving of callbacks and parsing --------------------------------------------

  datatype Happening = Native(cb: Callback, offset: real, arrived: real) | Parser

  predicate HappeningOk(x: Happening, arrival: real) {
    x.Native? ==> x.offset >= arrival && x.arrived >= 0.0 && (x.cb.Copied? ==> PayloadOk(x.cb.payload))
  }

  /** Callbacks arrive in the order of their offsets. */
  ghost predicate ScriptOk(script: seq<Happening>, arrival: real) {
    script == [] ||
      (HappeningOk(script[0], arrival) && ScriptOk(script[1..], if script[0].Native? then script[0].offset else arrival))
  }

  function Calls(script: seq<Happening>): nat {
    if script == [] then 0 else Calls(script[1..]) + if script[0].Native? then 1 else 0
  }

  /** The payloads copied out of the native callbacks, in order. */
  function Copies(script: seq<Happening>): seq<Payload> {
    if script == [] then [] else CopyOf(script[0]) + Copies(script[1..])
  }

  function CopyOf(x: Happening): seq<Payload> { if x.Native? && x.cb.Copied? then [x.cb.payload] else [] }

  function Payloads(ps: seq<Pending>): seq<Payload> { seq(|ps|, i requires 0 <= i < |ps| => ps[i].payload) }

  /**
   Whatever the interleaving, a capture whose parser does not fail publishes a receipt the parent accepts, counts
   every callback once, announces every copied payload once, and keeps its evidence within the retained limit.
   What it keeps is a function of the copies parsed, which without loss are all the payloads, in order.
   */
  method RunCapture(live: bool, legacy: bool, admits: nat -> bool, script: seq<Happening>,
                    getter: Option<Payload>, getterError: Option<Text>)
    returns (c: Capture, ok: bool)
    requires ScriptOk(script, 0.0) && Calls(script) <= MAX_CALLBACKS && (getter.Some? ==> PayloadOk(getter.value))
    ensures c.live == live && ok == !c.failed
    ensures ok ==> c.Settled() && c.callbacks == Calls(script) && c.callbacks == c.copied + c.captureDropped
    ensures ok ==> c.liveEmitted == (if live then c.copied + c.Gaps() else 0)
    ensures ok ==> ReceiptCloses(live, c.emission, c.Metadata())
    ensures ok ==> Size(c.raw) + ListSize(c.nativeEvents) <= MAX_RETAINED_BYTES + 4
    ensures ok ==> AllOk(c.parsed) && (c.captureDropped == 0 ==> Payloads(c.parsed) == Copies(script))
    ensures ok ==>
      var b := Concluded(AllJudged(c.parsed), c.lastCaptureLoss);
      c.Book() == (if getter.Some? && Restores(getter.value) then Replaced(b, getter.value) else b)
    ensures ok ==> c.legacy == legacy && c.eventsEmitted == Wrapped(c.parsed) && c.nativeError == FirstError(c.parsed)
    ensures ok ==> c.offers == AllOffers(live, legacy, c.parsed) + GapOffers(live, c.captureDropped, c.retentionDropped)
  {
    hide Capture.Valid, Capture.Settled, Capture.Book, PayloadOk, ReceiptCloses, ScriptOk, Payloads, AllJudged, Concluded,
      Replaced, Restores, Calls, Copies, AllOffers, GapOffers, Wrapped, FirstError;
    c := new Capture(live, legacy, admits);
    Play(c, script);
    ok := c.Close();
    if ok {
      c.Recover(getter, getterError);
      c.SettledMeans();
    }
  }

  lemma OneMoreCopy(ps: seq<Pending>, p: Pending)
    ensures Payloads(ps + [p]) == Payloads(ps) + [p.payload]
  {}

  /** One callback, or one turn of the parser. */
  method Happen(c: Capture, x: Happening)
    requires c.Valid() && !c.closed && HappeningOk(x, c.arrival) && (x.Native? ==> c.callbacks < MAX_CALLBACKS)
    modifies c
    ensures c.Valid() && !c.closed && c.callbacks == old(c.callbacks) + (if x.Native? then 1 else 0)
    ensures c.arrival == if x.Native? then x.offset else old(c.arrival)
    ensures old(c.captureDropped) <= c.captureDropped
    ensures c.captureDropped == 0 ==> Payloads(c.parsed + c.queue) == Payloads(old(c.parsed + c.queue)) + CopyOf(x)
  {
    hide Capture.Valid, PayloadOk, Payloads;
    ghost var before := c.parsed + c.queue;
    if x.Native? {
      c.Call(x.cb, x.offset, x.arrived);
      if c.captureDropped == 0 {
        assert c.parsed + c.queue == before + [Pending(x.cb.payload, c.callbacks, x.offset, x.arrived)];
        OneMoreCopy(before, Pending(x.cb.payload, c.callbacks, x.offset, x.arrived));
      }
    } else {
      if c.queue != [] && !c.failed { c.ParseOne(); }
      assert c.parsed + c.queue == before;
    }
  }

  /** Feed a script of callbacks and parser turns to the capture. */
  method Play(c: Capture, script: seq<Happening>)
    requires c.Valid() && !c.closed && ScriptOk(script, c.arrival) && c.callbacks + Calls(script) <= MAX_CALLBACKS
    requires c.parsed == [] && c.queue == []
    modifies c
    ensures c.Valid() && !c.closed && c.callbacks == old(c.callbacks) + Calls(script)
    ensures c.captureDropped == 0 ==> Payloads(c.parsed + c.queue) == Copies(script)
  {
    hide Capture.Valid, PayloadOk, Payloads, Copies, CopyOf;
    var rest := script;
    NothingCopied();
    assert c.parsed + c.queue == [];
    assert [] + Copies(rest) == Copies(rest);
    while rest != []
      invariant c.Valid() && !c.closed && ScriptOk(rest, c.arrival)
      invariant c.callbacks + Calls(rest) == old(c.callbacks) + Calls(script)
      invariant c.captureDropped == 0 ==> Payloads(c.parsed + c.queue) + Copies(rest) == Copies(script)
      decreases |rest|
    {
      ghost var before := Payloads(c.parsed + c.queue);
      Happen(c, rest[0]);
      CopiesNext(before, rest);
      rest := rest[1..];
    }
    NoMoreCopies(Payloads(c.parsed + c.queue));
  }

  lemma NothingCopied()
    ensures Payloads([]) == []
  {}

  lemma CopiesNext(before: seq<Payload>, script: seq<Happening>)
    requires script != []
    ensures before + CopyOf(script[0]) + Copies(script[1..]) == before + Copies(script)
  {
    hide CopyOf;
  }

  lemma NoMoreCopies(before: seq<Payload>)
    ensures before + Copies([]) == before
  {}
}
