/**
 Bounded retention of delivered events (`_Events` of the schedulers) and the reports' independent check
 of what was retained.
 */
module PartialEvents {
  import opened Options
  import opened JsonFrames
  import opened PlanOutcomes

  datatype NativeEvent = NativeEvent(kind: Text, data: Json, sequence: int, receivedAt: Json)

  /** A callback as it arrives: event metadata of the right types, or not. */
  datatype Delivery = Delivered(event: NativeEvent) | Malformed

  const MAX_RETAINED := 64
  const MAX_EVENT_FRAME := 65536
  const MAX_RETAINED_BYTES := 1024 * 1024

  const KIND: Text := [107, 105, 110, 100]
  const DATA: Text := [100, 97, 116, 97]
  const SEQUENCE: Text := [115, 101, 113, 117, 101, 110, 99, 101]
  const RECEIVED: Text :=
    [114, 101, 99, 101, 105, 118, 101, 100, 95, 97, 116, 95, 115, 101, 99, 111, 110, 100, 115]

  function Message(e: NativeEvent): Json {
    Obj([Field(KIND, Str(e.kind)), Field(DATA, e.data), Field(SEQUENCE, Int(e.sequence)), Field(RECEIVED, e.receivedAt)])
  }

  /** Bytes of the event's frame, header included, if it can be framed at all. */
  function FrameSize(e: NativeEvent): (size: Option<nat>)
    ensures size.Some? ==> size.value >= 4
  {
    if Encodable(Message(e), MAX_EVENT_FRAME) then Some(4 + |Encode(Message(e))|) else None
  }

  function SizeOr0(e: NativeEvent): nat {
    match FrameSize(e)
    case Some(size) => size
    case None => 0
  }

  function TotalSize(events: seq<NativeEvent>): nat {
    if events == [] then 0
    else TotalSize(events[..|events| - 1]) + SizeOr0(events[|events| - 1])
  }

  /** Named, numbered above its predecessor (from one on), and small enough to frame. */
  predicate EventOk(e: NativeEvent, previous: int) {
    && NonBlank(e.kind)
    && e.sequence > previous
    && FrameSize(e).Some? && FrameSize(e).value <= MAX_EVENT_FRAME
  }

  function LastSequence(events: seq<NativeEvent>): int {
    if events == [] then 0 else events[|events| - 1].sequence
  }

  /** A retained prefix: few, small, named, strictly ordered from one. */
  ghost predicate Bounded(events: seq<NativeEvent>) {
    && |events| <= MAX_RETAINED
    && (forall i :: 0 <= i < |events| ==> EventOk(events[i], LastSequence(events[..i])))
    && TotalSize(events) <= MAX_RETAINED_BYTES
  }

  /** Whether one more delivery may join the prefix. */
  ghost predicate Retainable(events: seq<NativeEvent>, d: Delivery) {
    d.Delivered? && Bounded(events + [d.event])
  }

  /** The longest prefix of the deliveries that stays bounded, one delivery at a time. */
  ghost function Retained(deliveries: seq<Delivery>): (events: seq<NativeEvent>)
    ensures |events| <= |deliveries|
  {
    if deliveries == [] then []
    else
      var before := Retained(deliveries[..|deliveries| - 1]);
      var last := deliveries[|deliveries| - 1];
      if |before| == |deliveries| - 1 && Retainable(before, last) then before + [last.event] else before
  }

  lemma TotalSizeAdds(events: seq<NativeEvent>, e: NativeEvent)
    ensures TotalSize(events + [e]) == TotalSize(events) + SizeOr0(e)
  {
    assert (events + [e])[..|events|] == events;
  }

  /** The tests `_Events` makes on a well-typed event. */
  predicate Acceptable(events: seq<NativeEvent>, bytes: nat, e: NativeEvent) {
    EventOk(e, LastSequence(events)) && bytes + SizeOr0(e) <= MAX_RETAINED_BYTES
  }

  /** The tests made on one more event decide exactly whether the longer prefix is still bounded. */
  lemma {:induction false} ExtensionIsBounded(events: seq<NativeEvent>, e: NativeEvent)
    requires Bounded(events)
    ensures Bounded(events + [e]) <==> |events| < MAX_RETAINED && Acceptable(events, TotalSize(events), e)
  {
    hide EventOk, FrameSize;
    TotalSizeAdds(events, e);
    var longer := events + [e];
    assert longer[..|events|] == events && longer[|events|] == e;
    forall i | 0 <= i < |events| ensures longer[i] == events[i] && longer[..i] == events[..i] {}
  }

  lemma NextRetained(deliveries: seq<Delivery>, d: Delivery)
    ensures var before := Retained(deliveries);
      Retained(deliveries + [d]) ==
        if |before| == |deliveries| && Retainable(before, d) then before + [d.event] else before
  {
    assert (deliveries + [d])[..|deliveries|] == deliveries;
  }

  lemma FullIsFinal(events: seq<NativeEvent>, d: Delivery)
    requires |events| >= MAX_RETAINED
    ensures !Retainable(events, d)
  {}

  lemma NothingIsBounded()
    ensures Bounded([])
  {}

  /** What is retained is a bounded prefix of what was delivered, and nothing more could have joined it. */
  lemma {:induction false} RetainedIsBoundedPrefix(deliveries: seq<Delivery>)
    ensures Bounded(Retained(deliveries))
    ensures forall i :: 0 <= i < |Retained(deliveries)| ==> deliveries[i] == Delivered(Retained(deliveries)[i])
    ensures |Retained(deliveries)| < |deliveries| ==>
      !Retainable(Retained(deliveries), deliveries[|Retained(deliveries)|])
  {
    NothingIsBounded();
    hide Bounded;
    if deliveries != [] {
      RetainedIsBoundedPrefix(deliveries[..|deliveries| - 1]);
    }
  }

  lemma {:induction false} FitsExactly(deliveries: seq<Delivery>, e: NativeEvent)
    ensures var events := Retained(deliveries);
      && (|events| < MAX_RETAINED ==>
            (Retainable(events, Delivered(e)) <==> Acceptable(events, TotalSize(events), e)))
      && TotalSize(events + [e]) == TotalSize(events) + SizeOr0(e)
  {
    var events := Retained(deliveries);
    RetainedIsBoundedPrefix(deliveries);
    ExtensionIsBounded(events, e);
    TotalSizeAdds(events, e);
  }

  /** `_Events`: called from the execution thread for every delivered event. */
  class EventLog {
    var events: seq<NativeEvent>
    var observed: nat
    var bytes: nat
    var closed: bool
    ghost var deliveries: seq<Delivery>

    constructor ()
      ensures Valid() && deliveries == []
    {
      events, observed, bytes, closed := [], 0, 0, false;
      deliveries := [];
    }

    ghost predicate Valid()
      reads this
    {
      && events == Retained(deliveries)
      && observed == |deliveries|
      && bytes == TotalSize(events)
      && (closed <==> |events| < |deliveries|)
    }

    /** The metadata, framing and byte tests on one more event. */
    method Fits(event: NativeEvent) returns (fits: bool)
      requires Valid() && |events| < MAX_RETAINED
      ensures fits <==> Retainable(events, Delivered(event))
      ensures fits ==> TotalSize(events + [event]) == bytes + SizeOr0(event)
    {
      hide Bounded, FrameSize, Retainable, Retained, EventOk;
      FitsExactly(deliveries, event);
      return Acceptable(events, bytes, event);
    }

    /** Append the event to the retained prefix, or close the prefix for good. */
    method Call(d: Delivery)
      requires Valid()
      modifies this
      ensures Valid() && deliveries == old(deliveries) + [d]
    {
      hide Bounded, EventOk, Acceptable, Retained;
      NextRetained(deliveries, d);
      var fits := false;
      if !closed && |events| < MAX_RETAINED && d.Delivered? {
        fits := Fits(d.event);
      } else if |events| >= MAX_RETAINED {
        FullIsFinal(events, d);
      }
      deliveries := deliveries + [d];
      observed := observed + 1;
      if fits {
        bytes := bytes + SizeOr0(d.event);
        events := events + [d.event];
      } else {
        closed := true;
      }
    }
  }

  /** Feed a trial's deliveries through its log. */
  method Collect(deliveries: seq<Delivery>) returns (events: seq<NativeEvent>, observed: nat)
    ensures events == Retained(deliveries) && observed == |deliveries|
  {
    var log := new EventLog();
    for i := 0 to |deliveries|
      invariant fresh(log) && log.Valid() && log.deliveries == deliveries[..i]
    {
      assert deliveries[..i + 1] == deliveries[..i] + [deliveries[i]];
      log.Call(deliveries[i]);
    }
    assert deliveries[..|deliveries|] == deliveries;
    return log.events, log.observed;
  }

  /** Event evidence a report accepts for a trial of this status. */
  ghost predicate EvidenceAccepted(status: Status, events: seq<NativeEvent>, observed: int, dropped: int) {
    && observed >= 0 && dropped >= 0
    && observed == |events| + dropped
    && if RetainsEvents(status) then Bounded(events) else events == [] && observed == 0
  }

  lemma LastIsLast(events: seq<NativeEvent>, e: NativeEvent)
    ensures LastSequence(events + [e]) == e.sequence
  {}

  lemma NothingCounted()
    ensures LastSequence([]) == 0 && TotalSize([]) == 0
  {}

  /** `_events` of both report modules. */
  method CheckEvidence(status: Status, events: seq<NativeEvent>, observed: int, dropped: int) returns (ok: bool)
    ensures ok <==> EvidenceAccepted(status, events, observed, dropped)
  {
    hide EventOk, SizeOr0, TotalSize, LastSequence;
    NothingCounted();
    if observed < 0 || dropped < 0 || observed != |events| + dropped { return false; }
    if !RetainsEvents(status) {
      return events == [] && observed == 0 && dropped == 0;
    }
    if |events| > MAX_RETAINED { return false; }
    var previous, total := 0, 0;
    for i := 0 to |events|
      invariant forall j :: 0 <= j < i ==> EventOk(events[j], LastSequence(events[..j]))
      invariant previous == LastSequence(events[..i])
      invariant total == TotalSize(events[..i])
    {
      if !EventOk(events[i], previous) { return false; }
      TotalSizeAdds(events[..i], events[i]);
      LastIsLast(events[..i], events[i]);
      assert events[..i + 1] == events[..i] + [events[i]];
      previous := events[i].sequence;
      total := total + SizeOr0(events[i]);
    }
    assert events[..|events|] == events;
    return total <= MAX_RETAINED_BYTES;
  }

  /** Whatever a log retained is evidence every report accepts. */
  lemma LogIsAccepted(status: Status, deliveries: seq<Delivery>)
    requires RetainsEvents(status)
    ensures var events := Retained(deliveries);
      EvidenceAccepted(status, events, |deliveries|, |deliveries| - |events|)
  {
    RetainedIsBoundedPrefix(deliveries);
  }
}
