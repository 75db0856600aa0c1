/**
 What the reconstructed document and the retained envelopes mean (`_event_capture.py`): when a receipt says the
 reconstruction is complete, they hold every event of the native stream, or the last complete document of it.
 */
module Reconstruction {
  import opened Options
  import opened JsonFrames
  import opened EventCapture

  // ---- The stream, read directly ------------------------------------------------------------

  predicate Fine(xs: seq<Payload>) { forall i :: 0 <= i < |xs| ==> PayloadOk(xs[i]) }

  predicate Named(x: Payload, name: Name)
    requires PayloadOk(x)
  {
    ShapeOf(x).Shaped? && ShapeOf(x).name == name
  }

  predicate NoDocument(xs: seq<Payload>)
    requires Fine(xs)
  {
    forall i :: 0 <= i < |xs| ==> !Named(xs[i], Complete)
  }

  function EnvelopeOf(x: Payload): Json { if x.content.Ok? then x.content.value else Null }

  /** The envelopes of a stream, in order. */
  function Envelopes(xs: seq<Payload>): seq<Json> { seq(|xs|, i requires 0 <= i < |xs| => EnvelopeOf(xs[i])) }

  /** The data of every interval event, in order. */
  function Intervals(xs: seq<Payload>): seq<Json>
    requires Fine(xs)
  {
    if xs == [] then []
    else Intervals(xs[..|xs| - 1]) + (if Named(xs[|xs| - 1], Interval_) then [ShapeOf(xs[|xs| - 1]).part] else [])
  }

  /** The member an event of this kind sets. */
  function MemberOf(name: Name): Option<Text> {
    match name
    case Start => Some(START)
    case End => Some(END)
    case ErrorEvent => Some(ERROR)
    case ServerJson => Some(SERVER_JSON)
    case ServerText => Some(SERVER_TEXT)
    case _ => None
  }

  predicate Sets(x: Payload, key: Text)
    requires PayloadOk(x)
  {
    ShapeOf(x).Shaped? && MemberOf(ShapeOf(x).name) == Some(key)
  }

  function DataOf(x: Payload): Json
    requires PayloadOk(x) && ShapeOf(x).Shaped?
  {
    var s := ShapeOf(x);
    if s.name == ErrorEvent then Str(ErrorText(x, s)) else s.part
  }

  /** The data of the latest event that sets a member. */
  function Latest(xs: seq<Payload>, key: Text): Option<Json>
    requires Fine(xs)
  {
    if xs == [] then None
    else if Sets(xs[|xs| - 1], key) then Some(DataOf(xs[|xs| - 1]))
    else Latest(xs[..|xs| - 1], key)
  }

  /** What the native document of a stream of events holds under each key. */
  function Reading(xs: seq<Payload>, key: Text): Option<Json>
    requires Fine(xs)
  {
    if key != INTERVALS then Latest(xs, key)
    else if Intervals(xs) == [] then None else Some(Arr(Intervals(xs)))
  }

  // ---- Object members -----------------------------------------------------------------------

  lemma {:induction false} SetThenGet(fields: seq<Field>, key: Text, value: Json, other: Text)
    ensures Get(SetField(fields, key, value), other) == if other == key then Some(value) else Get(fields, other)
  {
    if fields == [] {
      assert SetField(fields, key, value)[1..] == [];
    } else if fields[0].key == key {
      assert SetField(fields, key, value)[1..] == fields[1..];
    } else {
      assert SetField(fields, key, value)[1..] == SetField(fields[1..], key, value);
      SetThenGet(fields[1..], key, value, other);
    }
  }

  lemma IntervalsStandApart(name: Name)
    ensures MemberOf(name) != Some(INTERVALS)
  {
    assert |INTERVALS| == 9 && |START| == 5 && |END| == 3 && |ERROR| == 5;
    assert |SERVER_JSON| == 18 && |SERVER_TEXT| == 18;
  }

  /** Dropping the last copy. */
  lemma Shorter(ps: seq<Pending>)
    requires ps != [] && AllOk(ps)
    ensures var n := |ps| - 1;
      AllOk(ps[..n]) && Payloads(ps[..n]) == Payloads(ps)[..n] && Fine(Payloads(ps)) && Fine(Payloads(ps[..n]))
      && |Payloads(ps)| == |ps| && Payloads(ps)[n] == ps[n].payload
      && Envelopes(Payloads(ps)) == Envelopes(Payloads(ps[..n])) + [EnvelopeOf(ps[n].payload)]
    ensures NoDocument(Payloads(ps)) ==> NoDocument(Payloads(ps[..|ps| - 1])) && !Named(ps[|ps| - 1].payload, Complete)
  {
    hide PayloadOk, Named;
    var n := |ps| - 1;
    var xs, ys := Payloads(ps), Payloads(ps[..n]);
    assert forall i :: 0 <= i < |ps| ==> xs[i] == ps[i].payload;
    assert forall i :: 0 <= i < n ==> ys[i] == ps[i].payload;
    assert ys == xs[..n];
  }

  // ---- Streams without a complete document --------------------------------------------------

  /** Nothing malformed, nothing too large to retain, no failed parser. */
  predicate Exact(b: Books) { b.malformed == 0 && b.retentionDropped == 0 && !b.failed }

  lemma ExactBefore(b: Books, p: Pending)
    requires PayloadOk(p.payload) && b.raw.Obj? && Exact(Judged(b, p))
    ensures Exact(b) && ShapeOf(p.payload).Shaped? && PartOk(ShapeOf(p.payload))
  {
    hide ShapeOf, PartOk, Projected, PayloadOk, Required;
  }

  /** An event that is not a document joins the projection and the envelopes. */
  lemma EventJoins(b: Books, p: Pending)
    requires PayloadOk(p.payload) && b.raw.Obj? && b.source.None? && Exact(Judged(b, p)) && !Named(p.payload, Complete)
    ensures var s := ShapeOf(p.payload);
      s.Shaped? && Projected(b.raw.fields, s, ErrorText(p.payload, s)).Some?
    ensures var c := Judged(b, p); c.source.None? && c.events == b.events + [EnvelopeOf(p.payload)]
    ensures var s := ShapeOf(p.payload); Judged(b, p).raw == Obj(Projected(b.raw.fields, s, ErrorText(p.payload, s)).value)
  {
    hide PartOk, Projected, PayloadOk, Required;
    ExactBefore(b, p);
  }

  /** A projection sets one member, or lengthens the list of intervals by one. */
  lemma ProjectionReads(fields: seq<Field>, x: Payload, key: Text)
    requires PayloadOk(x) && ShapeOf(x).Shaped? && !Named(x, Complete)
    requires Projected(fields, ShapeOf(x), ErrorText(x, ShapeOf(x))).Some?
    ensures var after := Projected(fields, ShapeOf(x), ErrorText(x, ShapeOf(x))).value;
      Get(after, key) ==
        if key == INTERVALS && Named(x, Interval_) then
          Some(Arr((if Get(fields, key).Some? then Get(fields, key).value.items else []) + [ShapeOf(x).part]))
        else if Sets(x, key) then Some(DataOf(x)) else Get(fields, key)
  {
    hide ShapeOf, PayloadOk, SetField, Get, Ascii;
    var s := ShapeOf(x);
    IntervalsStandApart(s.name);
    if s.name == Interval_ {
      var items := if Get(fields, INTERVALS).Some? then Get(fields, INTERVALS).value.items else [];
      assert items == [] ==> items + [s.part] == [s.part];
      SetThenGet(fields, INTERVALS, Arr(items + [s.part]), key);
    } else if MemberOf(s.name).Some? {
      SetThenGet(fields, MemberOf(s.name).value, DataOf(x), key);
    }
  }

  /**
   Without loss and without a complete document, the envelopes are the whole stream in order, and the projection
   holds every interval in order and the latest event of every other kind.
   */
  lemma {:induction false} EventsAreAllKept(ps: seq<Pending>, key: Text)
    requires AllOk(ps) && Fine(Payloads(ps)) && NoDocument(Payloads(ps)) && Exact(AllJudged(ps))
    ensures var b := AllJudged(ps);
      b.source.None? && b.events == Envelopes(Payloads(ps)) && Get(b.raw.fields, key) == Reading(Payloads(ps), key)
  {
    hide PayloadOk, Judged, Projected, ShapeOf, Get, Ascii, DataOf, Payloads, NoDocument, Envelopes;
    var xs := Payloads(ps);
    if ps != [] {
      var n := |ps| - 1;
      Shorter(ps);
      var b := AllJudged(ps[..n]);
      ExactBefore(b, ps[n]);
      EventsAreAllKept(ps[..n], key);
      EventJoins(b, ps[n]);
      ProjectionReads(b.raw.fields, xs[n], key);
      ReadingNext(xs, key);
    } else {
      NothingCopied();
      NothingIsRead(key);
    }
  }

  lemma ReadingNext(xs: seq<Payload>, key: Text)
    requires xs != [] && Fine(xs)
    ensures var n := |xs| - 1;
      var before := Reading(xs[..n], key);
      Reading(xs, key) ==
        if key == INTERVALS && Named(xs[n], Interval_) then
          Some(Arr((if before.Some? then before.value.items else []) + [ShapeOf(xs[n]).part]))
        else if Sets(xs[n], key) then Some(DataOf(xs[n])) else before
  {
    hide PayloadOk, ShapeOf, Ascii, DataOf;
    var n := |xs| - 1;
    if ShapeOf(xs[n]).Shaped? { IntervalsStandApart(ShapeOf(xs[n]).name); }
    if Named(xs[n], Interval_) {
      var part := ShapeOf(xs[n]).part;
      assert Intervals(xs) == Intervals(xs[..n]) + [part] && [] + [part] == [part];
    } else {
      assert Intervals(xs) == Intervals(xs[..n]) + [] == Intervals(xs[..n]);
    }
  }

  lemma NothingIsRead(key: Text)
    ensures Get([], key) == None && Reading([], key) == None && Envelopes([]) == []
  {}

  /** The parser can fail only after a complete document has been kept. */
  lemma {:induction false} FailsOnlyAfterADocument(ps: seq<Pending>)
    requires AllOk(ps) && Fine(Payloads(ps)) && NoDocument(Payloads(ps))
    ensures var b := AllJudged(ps);
      !b.failed && b.source.None? && (Get(b.raw.fields, INTERVALS).Some? ==> Get(b.raw.fields, INTERVALS).value.Arr?)
  {
    hide PayloadOk, Projected, ShapeOf, Get, Ascii, PartOk, Required, Judged, Payloads, NoDocument, Named;
    if ps == [] {
      NothingIsRead(INTERVALS);
    } else {
      var n := |ps| - 1;
      Shorter(ps);
      FailsOnlyAfterADocument(ps[..n]);
      ListStays(AllJudged(ps[..n]), ps[n]);
    }
  }

  lemma ListStays(b: Books, p: Pending)
    requires PayloadOk(p.payload) && b.raw.Obj? && !b.failed && b.source.None? && !Named(p.payload, Complete)
    requires Get(b.raw.fields, INTERVALS).Some? ==> Get(b.raw.fields, INTERVALS).value.Arr?
    ensures var c := Judged(b, p);
      !c.failed && c.source.None? && (Get(c.raw.fields, INTERVALS).Some? ==> Get(c.raw.fields, INTERVALS).value.Arr?)
  {
    hide PayloadOk, ShapeOf, Get, Ascii, PartOk, Required, Projected;
    var s := ShapeOf(p.payload);
    if s.Shaped? && PartOk(s) {
      ProjectsUnlessNoList(b.raw.fields, s, ErrorText(p.payload, s));
      if Projected(b.raw.fields, s, ErrorText(p.payload, s)).Some? { ProjectionReads(b.raw.fields, p.payload, INTERVALS); }
      IntervalsStandApart(s.name);
    }
  }

  lemma ProjectsUnlessNoList(fields: seq<Field>, s: Shape, errorText: Text)
    requires s.Shaped? && (Get(fields, INTERVALS).Some? ==> Get(fields, INTERVALS).value.Arr?)
    ensures Projected(fields, s, errorText).Some?
  {
    hide Get, SetField, Ascii;
  }

  // ---- Streams with a complete document -----------------------------------------------------

  predicate Advisory(x: Payload)
    requires PayloadOk(x)
  {
    ShapeOf(x).Shaped? && ShapeOf(x).name in {ServerJson, ServerText, Other}
  }

  lemma DocumentReplaces(b: Books, p: Pending)
    requires PayloadOk(p.payload) && b.raw.Obj? && Named(p.payload, Complete) && Exact(Judged(b, p))
    ensures var c := Judged(b, p);
      c.source == Some(WorkerMessages.Callback) && c.raw == ShapeOf(p.payload).part && c.events == [] && c.documentAt == p.sequence
  {
    hide ShapeOf, Projected, PayloadOk;
    ExactBefore(b, p);
  }

  lemma AdviceIsIgnored(b: Books, p: Pending)
    requires PayloadOk(p.payload) && b.raw.Obj? && b.source.Some? && !Named(p.payload, Complete) && Exact(Judged(b, p))
    ensures Judged(b, p) == b && Advisory(p.payload)
  {
    hide ShapeOf, Projected, PayloadOk, PartOk, Required;
    ExactBefore(b, p);
  }

  /** Without loss, the last complete document is the result, and only advisory events follow it. */
  lemma {:induction false} LastDocumentStands(ps: seq<Pending>, k: nat)
    requires AllOk(ps) && Exact(AllJudged(ps))
    requires k < |ps| && Named(ps[k].payload, Complete)
    requires forall j :: k < j < |ps| ==> !Named(ps[j].payload, Complete)
    ensures var b := AllJudged(ps);
      && b.source == Some(WorkerMessages.Callback) && b.raw == ShapeOf(ps[k].payload).part && b.events == []
      && b.documentAt == ps[k].sequence
    ensures forall j :: k < j < |ps| ==> Advisory(ps[j].payload)
    decreases |ps|
  {
    hide PayloadOk, Judged, ShapeOf, Named, Advisory;
    var n := |ps| - 1;
    var b := AllJudged(ps[..n]);
    ExactBefore(b, ps[n]);
    if k == n {
      DocumentReplaces(b, ps[n]);
    } else {
      LastDocumentStands(ps[..n], k);
      AdviceIsIgnored(b, ps[n]);
    }
  }

  // ---- What the receipt means ---------------------------------------------------------------

  /** A receipt that claims a complete reconstruction speaks for every payload the callbacks delivered. */
  lemma CompleteReceiptIsHonest(c: Capture, script: seq<Happening>, key: Text)
    requires c.Settled() && !c.failed && c.Metadata().reconstructionComplete && AllOk(c.parsed)
    requires c.captureDropped == 0 ==> Payloads(c.parsed) == Copies(script)
    requires c.Book() == Concluded(AllJudged(c.parsed), c.lastCaptureLoss)
    ensures Fine(Copies(script)) && c.raw.Obj?
    ensures NoDocument(Copies(script)) ==>
      !c.complete && c.nativeEvents == Envelopes(Copies(script)) && Get(c.raw.fields, key) == Reading(Copies(script), key)
    ensures forall k :: 0 <= k < |Copies(script)| && LastDocument(Copies(script), k) ==>
      c.complete && c.raw == ShapeOf(Copies(script)[k]).part && c.nativeEvents == []
  {
    hide PayloadOk, Judged, ShapeOf, AllJudged, Copies, Envelopes, Reading, Get;
    var xs := Copies(script);
    var ps := c.parsed;
    assert |xs| == |ps| && forall i :: 0 <= i < |ps| ==> xs[i] == ps[i].payload;
    if NoDocument(xs) {
      EventsAreAllKept(ps, key);
    }
    forall k | 0 <= k < |xs| && LastDocument(xs, k)
      ensures c.complete && c.raw == ShapeOf(xs[k]).part && c.nativeEvents == []
    {
      LastDocumentStands(ps, k);
    }
  }

  predicate LastDocument(xs: seq<Payload>, k: nat)
    requires Fine(xs) && k < |xs|
  {
    Named(xs[k], Complete) && forall j :: k < j < |xs| ==> !Named(xs[j], Complete)
  }
}
