/** The wire size of the two receipts a failing or finished worker reserves queue space for (`_worker.py`). */
module ControlFrames {
  import opened JsonFrames
  import opened WorkerMessages
  import opened WorkerSystem

  /** The session envelope around an application message. */
  function Envelope(f: Frame): seq<Field>
    requires f.sequence >= 0 && f.run >= 0
  {
    [Field(Ascii("protocol_version"), Int(1)), Field(Ascii("request_id"), Str(Ascii(f.identity.requestId))),
     Field(Ascii("worker_id"), Str(Ascii(f.identity.workerId))), Field(Ascii("transport_sequence"), Int(f.sequence)),
     Field(Ascii("run_index"), Int(f.run))]
  }

  function FailureMessage(f: Frame): Json
    requires f.body.Failure? && f.sequence >= 0 && f.run >= 0
  {
    Obj([Field(Ascii("type"), Str(Ascii("error"))), Field(Ascii("class"), Str(f.body.className)),
         Field(Ascii("message"), Str(f.body.message))] + Envelope(f))
  }

  function TerminalMessage(f: Frame): Json
    requires f.body.Terminal? && f.sequence >= 0 && f.run >= 0
  {
    Obj([Field(Ascii("type"), Str(Ascii("terminal"))),
         Field(Ascii("status"), Str(Ascii(if f.body.failed then "failed" else "completed"))),
         Field(Ascii("runs"), Int(f.body.runs))] + Envelope(f))
  }

  function Pow10(k: nat): nat { if k == 0 then 1 else 10 * Pow10(k - 1) }

  lemma {:induction false} DigitsAreBounded(n: nat, k: nat)
    requires k >= 1 && n < Pow10(k)
    ensures |Digits(n)| <= k
  {
    assert Pow10(1) == 10 * Pow10(0);
    if n >= 10 { DigitsAreBounded(n / 10, k - 1); }
  }

  lemma CounterDigits(n: nat)
    requires n <= MAX_COUNTER
    ensures |Encode(Int(n))| <= 19
  {
    assert Pow10(5) == 100000;
    assert Pow10(10) == 100000 * 100000;
    assert Pow10(15) == 100000 * 100000 * 100000;
    assert Pow10(19) == 10000 * (100000 * 100000 * 100000);
    DigitsAreBounded(n, 19);
  }

  lemma FieldsGrow(field: Field, rest: seq<Field>)
    ensures |EncodeFields([field] + rest)| <= |EncodeField(field)| + 1 + |EncodeFields(rest)|
  {
    var fields := [field] + rest;
    assert fields[0] == field && fields[1..] == rest;
    hide EncodeField;
    if rest == [] { assert |fields| == 1; }
  }

  /** The most bytes a field with a string or counter value takes, its separator included. */
  lemma TextField(key: Text, value: Text, rest: seq<Field>)
    ensures |EncodeFields([Field(key, Str(value))] + rest)| <= 6 * |key| + 6 * |value| + 6 + |EncodeFields(rest)|
  {
    hide EncodeFields, Escape;
    EscapeIsNoShorter(key);
    EscapeIsNoShorter(value);
    FieldsGrow(Field(key, Str(value)), rest);
  }

  lemma CounterField(key: Text, value: nat, rest: seq<Field>)
    requires value <= MAX_COUNTER
    ensures |EncodeFields([Field(key, Int(value))] + rest)| <= 6 * |key| + 23 + |EncodeFields(rest)|
  {
    hide EncodeFields, Escape, Decimal;
    EscapeIsNoShorter(key);
    CounterDigits(value);
    FieldsGrow(Field(key, Int(value)), rest);
  }

  predicate EnvelopeSized(f: Frame) {
    && |f.identity.requestId| == 32 && |f.identity.workerId| == 32
    && 0 <= f.sequence <= MAX_COUNTER && 0 <= f.run <= MAX_COUNTER
  }

  lemma EnvelopeIsSmall(f: Frame)
    requires EnvelopeSized(f)
    ensures |EncodeFields(Envelope(f))| <= 900
  {
    hide EncodeFields, Ascii;
    var f1, f2 := Ascii("protocol_version"), Ascii("request_id");
    var run := [Field(Ascii("run_index"), Int(f.run))];
    var sequence := [Field(Ascii("transport_sequence"), Int(f.sequence))] + run;
    var worker := [Field(Ascii("worker_id"), Str(Ascii(f.identity.workerId)))] + sequence;
    var request := [Field(f2, Str(Ascii(f.identity.requestId)))] + worker;
    assert Envelope(f) == [Field(f1, Int(1))] + request;
    assert run == run + [];
    NoFields();
    CounterField(Ascii("run_index"), f.run, []);
    CounterField(Ascii("transport_sequence"), f.sequence, run);
    TextField(Ascii("worker_id"), Ascii(f.identity.workerId), sequence);
    TextField(f2, Ascii(f.identity.requestId), worker);
    CounterField(f1, 1, request);
  }

  lemma NoFields()
    ensures EncodeFields([]) == []
  {}

  /** An error receipt with truncated text and an ordinary class name stays within its reservation. */
  lemma FailureFrameIsSmall(f: Frame)
    requires f.body.Failure? && EnvelopeSized(f)
    requires |f.body.message| <= MAX_FAILURE_TEXT && |f.body.className| <= MAX_TEXT
    ensures HEADER_BYTES + |Encode(FailureMessage(f))| <= MAX_FAILURE_WIRE
  {
    hide EncodeFields, Ascii, Envelope;
    var envelope := Envelope(f);
    var message := [Field(Ascii("message"), Str(f.body.message))] + envelope;
    var class_ := [Field(Ascii("class"), Str(f.body.className))] + message;
    assert FailureMessage(f).fields == [Field(Ascii("type"), Str(Ascii("error")))] + class_;
    EnvelopeIsSmall(f);
    TextField(Ascii("message"), f.body.message, envelope);
    TextField(Ascii("class"), f.body.className, message);
    TextField(Ascii("type"), Ascii("error"), class_);
  }

  lemma TerminalFrameIsSmall(f: Frame)
    requires f.body.Terminal? && EnvelopeSized(f) && 0 <= f.body.runs <= MAX_COUNTER
    ensures HEADER_BYTES + |Encode(TerminalMessage(f))| <= MAX_TERMINAL_WIRE
  {
    hide EncodeFields, Ascii, Envelope;
    var envelope := Envelope(f);
    var runs := [Field(Ascii("runs"), Int(f.body.runs))] + envelope;
    var status := if f.body.failed then "failed" else "completed";
    var rest := [Field(Ascii("status"), Str(Ascii(status)))] + runs;
    assert TerminalMessage(f).fields == [Field(Ascii("type"), Str(Ascii("terminal")))] + rest;
    EnvelopeIsSmall(f);
    CounterField(Ascii("runs"), f.body.runs, envelope);
    TextField(Ascii("status"), Ascii(status), runs);
    TextField(Ascii("type"), Ascii("terminal"), rest);
  }
}
