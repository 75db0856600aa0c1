/**
 The two bounded queues of a session: the worker's outgoing queue (`BoundedFrameQueue` of `_ipc.py`) and the
 parent's inbox (`_Inbox` of `_execution.py`). Both drop only events and reserve room for control frames.
 */
module FrameQueues {
  import opened Options
  import opened JsonFrames
  import opened WorkerMessages
  import opened WorkerSystem

  /** Taking the oldest frame gives its count and bytes back. */
  lemma {:induction false} HeadCounts(q: seq<Frame>)
    requires q != []
    ensures EventCount(q) == EventCount(q[1..]) + if IsEventBody(q[0].body) then 1 else 0
    ensures EventBytes(q) == EventBytes(q[1..]) + if IsEventBody(q[0].body) then q[0].wire else 0
    ensures ControlCount(q) == ControlCount(q[1..]) + if IsEventBody(q[0].body) then 0 else 1
    ensures ControlBytes(q) == ControlBytes(q[1..]) + if IsEventBody(q[0].body) then 0 else q[0].wire
  {
    var n := |q| - 1;
    if n > 0 {
      HeadCounts(q[..n]);
      assert q[..n][1..] == q[1..][..n - 1] && q[1..][n - 1] == q[n];
    } else {
      assert q[1..] == [] && q[..n] == [];
    }
  }

  lemma TailCounts(q: seq<Frame>, f: Frame)
    ensures EventCount(q + [f]) == EventCount(q) + if IsEventBody(f.body) then 1 else 0
    ensures EventBytes(q + [f]) == EventBytes(q) + if IsEventBody(f.body) then f.wire else 0
    ensures ControlCount(q + [f]) == ControlCount(q) + if IsEventBody(f.body) then 0 else 1
    ensures ControlBytes(q + [f]) == ControlBytes(q) + if IsEventBody(f.body) then 0 else f.wire
  {
    assert (q + [f])[..|q|] == q;
  }

  lemma FramesGrow(items: seq<Item>, item: Item)
    ensures Frames(items + [item]) == Frames(items) + [item.frame]
  {}

  lemma FramesShrink(items: seq<Item>)
    requires items != []
    ensures Frames(items) != [] && Frames(items)[0] == items[0].frame && Frames(items)[1..] == Frames(items[1..])
  {}

  ghost predicate Tallied(q: seq<Frame>, events: nat, eventBytes: nat, controls: nat, controlBytes: nat) {
    && events == EventCount(q) && eventBytes == EventBytes(q)
    && controls == ControlCount(q) && controlBytes == ControlBytes(q)
  }

  datatype Admission = Admitted | Lost | Refused

  /** `BoundedFrameQueue`. */
  class OutgoingQueue {
    var frames: seq<Frame>
    var events: nat
    var eventBytes: nat
    var controls: nat
    var controlBytes: nat
    var closed: bool

    ghost predicate Valid()
      reads this
    {
      Tallied(frames, events, eventBytes, controls, controlBytes)
    }

    constructor ()
      ensures Valid() && frames == [] && !closed
    {
      frames, events, eventBytes, controls, controlBytes, closed := [], 0, 0, 0, 0, false;
    }

    /** A saturated queue loses an event but refuses a control frame. */
    method Put(f: Frame) returns (r: Admission)
      requires Valid()
      modifies this
      ensures Valid() && closed == old(closed)
      ensures frames == if r == Admitted then old(frames) + [f] else old(frames)
      ensures !closed && IsEventBody(f.body) && f.wire <= MAX_EVENT_BYTES + HEADER_BYTES ==>
        r == if EventFits(old(frames), f.wire) then Admitted else Lost
      ensures !closed && !IsEventBody(f.body) ==> r == if ControlFits(old(frames), f.wire) then Admitted else Refused
      ensures closed || (IsEventBody(f.body) && f.wire > MAX_EVENT_BYTES + HEADER_BYTES) ==> r == Refused
    {
      hide EventCount, EventBytes, ControlCount, ControlBytes;
      TailCounts(frames, f);
      var event := IsEventBody(f.body);
      if event && f.wire > MAX_EVENT_BYTES + HEADER_BYTES { return Refused; }
      if closed { return Refused; }
      if event {
        if events >= MAX_PENDING_EVENTS || eventBytes + f.wire > MAX_PENDING_EVENT_BYTES { return Lost; }
        events, eventBytes := events + 1, eventBytes + f.wire;
      } else {
        if controls >= MAX_PENDING_CONTROLS || controlBytes + f.wire > MAX_PENDING_CONTROL_BYTES { return Refused; }
        controls, controlBytes := controls + 1, controlBytes + f.wire;
      }
      frames := frames + [f];
      return Admitted;
    }

    /** The oldest frame, if any; `None` on an open empty queue means wait, on a closed one end of stream. */
    method Get() returns (f: Option<Frame>)
      requires Valid()
      modifies this
      ensures Valid() && closed == old(closed)
      ensures f.None? <==> old(frames) == []
      ensures f.Some? ==> f.value == old(frames)[0] && frames == old(frames)[1..]
      ensures f.None? ==> frames == old(frames)
    {
      if frames == [] { return None; }
      hide EventCount, EventBytes, ControlCount, ControlBytes;
      HeadCounts(frames);
      f := Some(frames[0]);
      frames := frames[1..];
      if IsEventBody(f.value.body) {
        events, eventBytes := events - 1, eventBytes - f.value.wire;
      } else {
        controls, controlBytes := controls - 1, controlBytes - f.value.wire;
      }
    }

    method Close()
      requires Valid()
      modifies this`closed
      ensures Valid() && closed
    {
      closed := true;
    }
  }

  /** `_Inbox`: a report takes the losses since the previous report with it. */
  class Inbox {
    var items: seq<Item>
    var events: nat
    var eventBytes: nat
    var controls: nat
    var controlBytes: nat
    var dropped: nat
    var liveDropped: nat

    ghost predicate Valid()
      reads this
    {
      Tallied(Frames(items), events, eventBytes, controls, controlBytes)
    }

    constructor ()
      ensures Valid() && items == [] && dropped == 0 && liveDropped == 0
    {
      items, events, eventBytes, controls, controlBytes, dropped, liveDropped := [], 0, 0, 0, 0, 0, 0;
      new;
      assert Frames(items) == [];
    }

    method Put(f: Frame) returns (r: Admission)
      requires Valid()
      modifies this
      ensures Valid()
      ensures IsEventBody(f.body) ==> r == if EventFits(Frames(old(items)), f.wire) then Admitted else Lost
      ensures !IsEventBody(f.body) ==> r == if ControlFits(Frames(old(items)), f.wire) then Admitted else Refused
      ensures items == if r == Admitted
        then old(items) + [Item(f, if f.body.Report? then old(liveDropped) else 0)] else old(items)
      ensures liveDropped ==
        if r == Lost && f.body.Live? then old(liveDropped) + 1
        else if r == Admitted && f.body.Report? then 0 else old(liveDropped)
      ensures dropped ==
        if r == Lost && f.body.Event? then old(dropped) + 1
        else if r == Admitted && f.body.Report? then 0 else old(dropped)
    {
      hide Frames, EventCount, EventBytes, ControlCount, ControlBytes;
      TailCounts(Frames(items), f);
      FramesGrow(items, Item(f, 0));
      FramesGrow(items, Item(f, liveDropped));
      var parentDropped: nat := 0;
      if IsEventBody(f.body) {
        if f.wire > MAX_EVENT_BYTES + HEADER_BYTES || events >= MAX_PENDING_EVENTS
          || eventBytes + f.wire > MAX_PENDING_EVENT_BYTES
        {
          if f.body.Live? { liveDropped := liveDropped + 1; } else { dropped := dropped + 1; }
          return Lost;
        }
        events, eventBytes := events + 1, eventBytes + f.wire;
      } else {
        if controls >= MAX_PENDING_CONTROLS || controlBytes + f.wire > MAX_PENDING_CONTROL_BYTES { return Refused; }
        controls, controlBytes := controls + 1, controlBytes + f.wire;
        if f.body.Report? {
          parentDropped := liveDropped;
          dropped, liveDropped := 0, 0;
        }
      }
      items := items + [Item(f, parentDropped)];
      return Admitted;
    }

    method Get() returns (item: Option<Item>)
      requires Valid()
      modifies this
      ensures Valid() && dropped == old(dropped) && liveDropped == old(liveDropped)
      ensures item.None? <==> old(items) == []
      ensures item.Some? ==> item.value == old(items)[0] && items == old(items)[1..]
      ensures item.None? ==> items == old(items)
    {
      if items == [] { return None; }
      hide Frames, EventCount, EventBytes, ControlCount, ControlBytes;
      FramesShrink(items);
      HeadCounts(Frames(items));
      item := Some(items[0]);
      items := items[1..];
      if IsEventBody(item.value.frame.body) {
        events, eventBytes := events - 1, eventBytes - item.value.frame.wire;
      } else {
        controls, controlBytes := controls - 1, controlBytes - item.value.frame.wire;
      }
    }
  }
}
