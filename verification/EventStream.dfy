/**
 Bounded delivery of live observations to one asynchronous consumer (`_event_stream.py`): puts from the operation's
 thread, reads and wake-ups on the event loop, and one reserved terminal once the operation has settled.
 */
module EventStream {
  import opened Options

  const MAX_STREAM_EVENTS := 128
  const MAX_STREAM_BYTES := 2 * 1024 * 1024

  /** A detached observation; its size is unknown when it cannot be framed at all. */
  datatype Observation = Observation(id: nat, size: Option<nat>)

  datatype Queued = Queued(event: Observation, size: nat)

  datatype Delivery =
    | Observed(event: Observation, sequence: nat)
    | BridgeGap(lost: nat, sequence: nat)
    | Terminal(consumerDropped: nat, sequence: nat)

  datatype Reading = Deliver(delivery: Delivery) | StopIteration | Wait

  // ---- Reading a delivered history ----------------------------------------------------------

  function Observations(out: seq<Delivery>): seq<Observation> {
    if out == [] then []
    else
      var last := out[|out| - 1];
      Observations(out[..|out| - 1]) + if last.Observed? then [last.event] else []
  }

  function GapSum(out: seq<Delivery>): nat {
    if out == [] then 0
    else
      var last := out[|out| - 1];
      GapSum(out[..|out| - 1]) + if last.BridgeGap? then last.lost else 0
  }

  predicate Numbered(out: seq<Delivery>) { forall i :: 0 <= i < |out| ==> out[i].sequence == i + 1 }

  /** At most one terminal, and nothing after it. */
  predicate TerminalLast(out: seq<Delivery>) { forall i :: 0 <= i < |out| - 1 ==> !out[i].Terminal? }

  lemma OneMore(out: seq<Delivery>, d: Delivery)
    ensures Observations(out + [d]) == Observations(out) + if d.Observed? then [d.event] else []
    ensures GapSum(out + [d]) == GapSum(out) + if d.BridgeGap? then d.lost else 0
  {
    assert (out + [d])[..|out|] == out;
  }

  lemma HistoryGrows(out: seq<Delivery>, d: Delivery)
    requires Numbered(out) && TerminalLast(out) && d.sequence == |out| + 1 && (out != [] ==> !out[|out| - 1].Terminal?)
    ensures Numbered(out + [d]) && TerminalLast(out + [d])
  {
    var longer := out + [d];
    forall i | 0 <= i < |longer| ensures longer[i].sequence == i + 1 {
      if i < |out| { assert longer[i] == out[i]; }
    }
    forall i | 0 <= i < |out| ensures !longer[i].Terminal? {
      assert longer[i] == out[i];
    }
  }

  function TotalSize(queue: seq<Queued>): nat {
    if queue == [] then 0 else queue[0].size + TotalSize(queue[1..])
  }

  lemma {:induction false} TotalSizeAdds(queue: seq<Queued>, q: Queued)
    ensures TotalSize(queue + [q]) == TotalSize(queue) + q.size
  {
    if queue == [] {
      assert queue + [q] == [q] && [q][1..] == [];
    } else {
      assert (queue + [q])[1..] == queue[1..] + [q];
      TotalSizeAdds(queue[1..], q);
    }
  }

  function Events(queue: seq<Queued>): seq<Observation> {
    seq(|queue|, i requires 0 <= i < |queue| => queue[i].event)
  }

  /** `kept` picks, in order, the puts that were not dropped. */
  ghost predicate Picks(kept: seq<nat>, puts: seq<Observation>) {
    && (forall i :: 0 <= i < |kept| ==> kept[i] < |puts|)
    && (forall i, j :: 0 <= i < j < |kept| ==> kept[i] < kept[j])
  }

  ghost function Chosen(kept: seq<nat>, puts: seq<Observation>): seq<Observation>
    requires Picks(kept, puts)
  {
    seq(|kept|, i requires 0 <= i < |kept| => puts[kept[i]])
  }

  /** Queued and delivered observations together are the puts that were kept, in order. */
  ghost predicate Faithful(kept: seq<nat>, puts: seq<Observation>, out: seq<Delivery>, queue: seq<Queued>) {
    Picks(kept, puts) && Chosen(kept, puts) == Observations(out) + Events(queue)
  }

  lemma KeepsOne(kept: seq<nat>, puts: seq<Observation>, out: seq<Delivery>, queue: seq<Queued>, event: Observation, size: nat)
    requires Faithful(kept, puts, out, queue)
    ensures Faithful(kept + [|puts|], puts + [event], out, queue + [Queued(event, size)])
  {
    var more, longer := kept + [|puts|], puts + [event];
    assert Chosen(more, longer) == Chosen(kept, puts) + [event];
    assert Events(queue + [Queued(event, size)]) == Events(queue) + [event];
  }

  lemma DropsOne(kept: seq<nat>, puts: seq<Observation>, out: seq<Delivery>, queue: seq<Queued>, event: Observation)
    requires Faithful(kept, puts, out, queue)
    ensures Faithful(kept, puts + [event], out, queue)
  {
    assert Chosen(kept, puts + [event]) == Chosen(kept, puts);
  }

  lemma DeliversOne(kept: seq<nat>, puts: seq<Observation>, out: seq<Delivery>, queue: seq<Queued>, sequence: nat)
    requires Faithful(kept, puts, out, queue) && queue != []
    ensures Faithful(kept, puts, out + [Observed(queue[0].event, sequence)], queue[1..])
  {
    OneMore(out, Observed(queue[0].event, sequence));
    assert Events(queue) == [queue[0].event] + Events(queue[1..]);
  }

  lemma DeliversOther(kept: seq<nat>, puts: seq<Observation>, out: seq<Delivery>, queue: seq<Queued>, d: Delivery)
    requires Faithful(kept, puts, out, queue) && !d.Observed?
    ensures Faithful(kept, puts, out + [d], queue)
  {
    OneMore(out, d);
  }

  // ---- The stream ---------------------------------------------------------------------------

  class Stream {
    var queue: seq<Queued>
    var bytes: nat
    var wakePending: bool
    var available: bool
    var dropped: nat
    var reported: nat
    var sequence: nat
    var terminal: Option<nat>
    var terminalDelivered: bool
    ghost var puts: seq<Observation>
    ghost var kept: seq<nat>
    ghost var out: seq<Delivery>

    /** Something a reader would be handed. */
    predicate Ready()
      reads this
    {
      queue != [] || reported != dropped || (terminal.Some? && !terminalDelivered)
    }

    /** Deliveries still owed if nothing more is put. */
    ghost function Left(): nat
      reads this
    {
      |queue| + (if reported != dropped then 1 else 0) + (if terminalDelivered then 0 else 1)
    }

    ghost predicate Valid()
      reads this
    {
      && |queue| <= MAX_STREAM_EVENTS && bytes == TotalSize(queue) && bytes <= MAX_STREAM_BYTES
      && Faithful(kept, puts, out, queue) && |puts| == |kept| + dropped
      && sequence == |out| && Numbered(out) && TerminalLast(out)
      && GapSum(out) == reported && reported <= dropped
      && (terminal.Some? ==> terminal.value == dropped)
      && (terminalDelivered <==> out != [] && out[|out| - 1].Terminal?)
      && (terminalDelivered ==> terminal.Some? && queue == [] && reported == dropped && out[|out| - 1].consumerDropped == dropped)
      // No lost wake-up: whatever a waiting reader missed left a flag set or a wake-up scheduled.
      && (Ready() ==> available || wakePending)
    }

    constructor ()
      ensures Valid() && puts == [] && out == [] && terminal.None?
    {
      queue, bytes, wakePending, available, dropped, reported, sequence := [], 0, false, false, 0, 0, 0;
      terminal, terminalDelivered := None, false;
      puts, kept, out := [], [], [];
    }

    /** `_put`: adopt the observation or count it as dropped, and schedule a wake-up. */
    method Put(event: Observation)
      requires Valid() && terminal.None?
      modifies this
      ensures Valid() && puts == old(puts) + [event] && out == old(out) && terminal.None?
      ensures if event.size.Some? && |old(queue)| < MAX_STREAM_EVENTS && old(bytes) + event.size.value <= MAX_STREAM_BYTES
        then kept == old(kept) + [|old(puts)|] && dropped == old(dropped)
        else kept == old(kept) && dropped == old(dropped) + 1
    {
      hide Faithful, TotalSize;
      var size := if event.size.Some? then event.size.value else MAX_STREAM_BYTES + 1;
      if |queue| >= MAX_STREAM_EVENTS || bytes + size > MAX_STREAM_BYTES {
        DropsOne(kept, puts, out, queue, event);
        dropped := dropped + 1;
      } else {
        KeepsOne(kept, puts, out, queue, event, size);
        TotalSizeAdds(queue, Queued(event, size));
        kept := kept + [|puts|];
        queue, bytes := queue + [Queued(event, size)], bytes + size;
      }
      puts := puts + [event];
      if !wakePending { wakePending := true; }
    }

    /** The scheduled wake-up runs on the event loop. */
    method Wake()
      requires Valid()
      modifies this`wakePending, this`available
      ensures Valid() && available && !wakePending
    {
      wakePending, available := false, true;
    }

    /** `_settled`: the operation has ended, so no further put can happen. */
    method Settle()
      requires Valid()
      modifies this`terminal, this`available
      ensures Valid() && terminal == if old(terminal).Some? then old(terminal) else Some(dropped)
    {
      if terminal.Some? { return; }
      terminal, available := Some(dropped), true;
    }

    /** One turn of `__anext__`: an observation, then a loss notice, then the terminal, else wait. */
    method Next() returns (r: Reading)
      requires Valid()
      modifies this
      ensures Valid() && puts == old(puts) && kept == old(kept) && dropped == old(dropped) && terminal == old(terminal)
      ensures r.Deliver? ==> out == old(out) + [r.delivery]
      ensures !r.Deliver? ==> out == old(out)
      ensures r.Wait? <==> !old(Ready()) && terminal.None?
      ensures r.StopIteration? <==> old(terminalDelivered)
      ensures r.Deliver? ==> Left() < old(Left())
    {
      hide Faithful, TotalSize, Numbered, TerminalLast, GapSum, Observations;
      var d: Delivery;
      if queue != [] {
        d := Observed(queue[0].event, sequence + 1);
        DeliversOne(kept, puts, out, queue, sequence + 1);
        SizeOfHead(queue);
        queue, bytes := queue[1..], bytes - queue[0].size;
      } else if reported != dropped {
        d := BridgeGap(dropped - reported, sequence + 1);
        DeliversOther(kept, puts, out, queue, d);
        reported := dropped;
      } else if terminal.Some? {
        if terminalDelivered { return StopIteration; }
        d := Terminal(terminal.value, sequence + 1);
        DeliversOther(kept, puts, out, queue, d);
        terminalDelivered := true;
      } else {
        available := false;
        return Wait;
      }
      OneMore(out, d);
      HistoryGrows(out, d);
      sequence := sequence + 1;
      out := out + [d];
      return Deliver(d);
    }

    /** A fully drained stream ends in exactly one terminal and accounts for every put. */
    lemma DrainedIsComplete()
      requires Valid() && terminalDelivered
      ensures out != [] && out[|out| - 1].Terminal? && forall i :: 0 <= i < |out| - 1 ==> !out[i].Terminal?
      ensures |Observations(out)| + GapSum(out) == |puts|
      ensures out[|out| - 1].consumerDropped == GapSum(out)
      ensures forall i :: 0 <= i < |out| ==> out[i].sequence == i + 1
      ensures Picks(kept, puts) && Observations(out) == Chosen(kept, puts)
    {
      assert Events(queue) == [];
    }
  }

  lemma SizeOfHead(queue: seq<Queued>)
    requires queue != []
    ensures TotalSize(queue) == queue[0].size + TotalSize(queue[1..])
  {}

  // ---- Any interleaving ---------------------------------------------------------------------

  datatype Happening = DoPut(event: Observation) | DoWake | DoSettle | DoRead

  /** What is put before the operation settles. */
  function PutsOf(script: seq<Happening>): seq<Observation> {
    if script == [] || script[0].DoSettle? then []
    else (if script[0].DoPut? then [script[0].event] else []) + PutsOf(script[1..])
  }

  function PutBy(x: Happening, open: bool): seq<Observation> { if open && x.DoPut? then [x.event] else [] }

  /** What is still put from the `i`-th happening on, as long as the operation has not settled. */
  function PutsLeft(script: seq<Happening>, i: nat, open: bool): seq<Observation>
    requires i <= |script|
  {
    if open then PutsOf(script[i..]) else []
  }

  lemma PutsNext(before: seq<Observation>, script: seq<Happening>, i: nat, open: bool)
    requires i < |script|
    ensures before + PutBy(script[i], open) + PutsLeft(script, i + 1, open && !script[i].DoSettle?)
      == before + PutsLeft(script, i, open)
  {
    assert script[i..][1..] == script[i + 1..] && script[i..][0] == script[i];
  }

  lemma AllPutsLeft(script: seq<Happening>)
    ensures [] + PutsLeft(script, 0, true) == PutsOf(script)
  {
    assert script[0..] == script;
  }

  lemma NoMorePuts(before: seq<Observation>, script: seq<Happening>)
    ensures before + PutsLeft(script, |script|, true) == before && before + PutsLeft(script, |script|, false) == before
  {}

  /** One put, wake-up, settlement or read. */
  method Happen(s: Stream, x: Happening) returns (read: seq<Delivery>)
    requires s.Valid()
    modifies s
    ensures s.Valid() && s.out == old(s.out) + read && s.puts == old(s.puts) + PutBy(x, old(s.terminal).None?)
    ensures s.terminal.None? == (old(s.terminal).None? && !x.DoSettle?)
  {
    hide Stream.Valid;
    read := [];
    match x
    case DoPut(event) => if s.terminal.None? { s.Put(event); }
    case DoWake => s.Wake();
    case DoSettle => s.Settle();
    case DoRead =>
      var r := s.Next();
      if r.Deliver? { read := [r.delivery]; }
  }

  /**
   Any interleaving of puts (until the operation settles), wake-ups and reads, then reads to the end: the observations
   delivered are an in-order subsequence of those put, and every other one is in a loss notice and the terminal.
   */
  method PlayAndDrain(script: seq<Happening>) returns (s: Stream, out: seq<Delivery>)
    ensures out != [] && out[|out| - 1].Terminal? && forall i :: 0 <= i < |out| - 1 ==> !out[i].Terminal?
    ensures |Observations(out)| + GapSum(out) == |s.puts| && out[|out| - 1].consumerDropped == GapSum(out)
    ensures forall i :: 0 <= i < |out| ==> out[i].sequence == i + 1
    ensures s.puts == PutsOf(script) && Picks(s.kept, s.puts) && Observations(out) == Chosen(s.kept, s.puts)
  {
    hide Stream.Valid, GapSum, Observations, PutsLeft, PutsOf, PutBy, Picks, Chosen;
    s := new Stream();
    out := [];
    AllPutsLeft(script);
    for i := 0 to |script|
      invariant fresh(s) && s.Valid() && out == s.out
      invariant s.puts + PutsLeft(script, i, s.terminal.None?) == PutsOf(script)
    {
      ghost var before, open := s.puts, s.terminal.None?;
      var read := Happen(s, script[i]);
      PutsNext(before, script, i, open);
      out := out + read;
    }
    NoMorePuts(s.puts, script);
    s.Settle();
    var rest := Drain(s);
    out := out + rest;
    s.DrainedIsComplete();
  }

  /** Read a settled stream to its end. */
  method Drain(s: Stream) returns (read: seq<Delivery>)
    requires s.Valid() && s.terminal.Some?
    modifies s
    ensures s.Valid() && s.terminalDelivered && s.puts == old(s.puts) && s.out == old(s.out) + read
  {
    hide Stream.Valid;
    read := [];
    while !s.terminalDelivered
      invariant s.Valid() && s.terminal.Some? && s.puts == old(s.puts) && s.out == old(s.out) + read
      decreases s.Left()
    {
      var r := s.Next();
      if r.Deliver? { read := read + [r.delivery]; }
    }
  }
}
