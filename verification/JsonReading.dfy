/**
 Reading back what one side of the pipe has written: a strict reader of JSON text (RFC 8259) against which the encoder
 of `_ipc.py` is proved. Nothing of the encoder is used to define it.
 */
module JsonReading {
  import opened Options
  import opened JsonFrames
  import opened FrameDecoding

  type Bytes = seq<byte>

  // ---- UTF-8 (section 3 of RFC 3629) --------------------------------------------------------

  predicate Tail(b: byte) { 0x80 <= b as int < 0xC0 }

  function Bits(b: byte): int { b as int % 64 }

  /** The next code point; overlong forms and surrogates are refused. */
  function ReadUtf8(b: Bytes): (r: Option<(CodePoint, Bytes)>)
    ensures r.Some? ==> |r.value.1| < |b|
  {
    if b == [] then None
    else if b[0] < 0x80 then Some((b[0] as int, b[1..]))
    else if 0xC0 <= b[0] < 0xE0 && |b| >= 2 && Tail(b[1]) then
      var c := (b[0] as int - 0xC0) * 64 + Bits(b[1]);
      if c < 0x80 then None else Some((c, b[2..]))
    else if 0xE0 <= b[0] < 0xF0 && |b| >= 3 && Tail(b[1]) && Tail(b[2]) then
      var c := (b[0] as int - 0xE0) * 4096 + Bits(b[1]) * 64 + Bits(b[2]);
      if c < 0x800 || Surrogate(c) then None else Some((c, b[3..]))
    else if 0xF0 <= b[0] < 0xF5 && |b| >= 4 && Tail(b[1]) && Tail(b[2]) && Tail(b[3]) then
      var c := (b[0] as int - 0xF0) * 262144 + Bits(b[1]) * 4096 + Bits(b[2]) * 64 + Bits(b[3]);
      if c < 0x1_0000 || c >= 0x11_0000 then None else Some((c, b[4..]))
    else None
  }

  lemma SixBits(c: nat)
    ensures c == (c / 64) * 64 + c % 64 && c / 64 / 64 == c / 4096 && c / 4096 / 64 == c / 262144
  {}

  lemma Groups(c: nat)
    ensures c == (c / 4096) * 4096 + (c / 64 % 64) * 64 + c % 64
    ensures c == (c / 262144) * 262144 + (c / 4096 % 64) * 4096 + (c / 64 % 64) * 64 + c % 64
  {
    SixBits(c);
    SixBits(c / 64);
    SixBits(c / 4096);
  }

  lemma TwoBytesRead(c: CodePoint, rest: Bytes)
    requires 0x80 <= c < 0x800
    ensures ReadUtf8(Utf8(c) + rest) == Some((c, rest))
  {
    SixBits(c);
    var b := Utf8(c) + rest;
    assert b[2..] == rest && Bits(b[1]) == c % 64 && (b[0] as int - 0xC0) == c / 64;
  }

  lemma ThreeBytesRead(c: CodePoint, rest: Bytes)
    requires 0x800 <= c < 0x1_0000 && !Surrogate(c)
    ensures ReadUtf8(Utf8(c) + rest) == Some((c, rest))
  {
    Groups(c);
    var b := Utf8(c) + rest;
    assert b[3..] == rest && Bits(b[2]) == c % 64 && Bits(b[1]) == c / 64 % 64 && (b[0] as int - 0xE0) == c / 4096;
  }

  lemma FourBytesRead(c: CodePoint, rest: Bytes)
    requires 0x1_0000 <= c
    ensures ReadUtf8(Utf8(c) + rest) == Some((c, rest))
  {
    Groups(c);
    var b := Utf8(c) + rest;
    assert b[4..] == rest && Bits(b[3]) == c % 64 && Bits(b[2]) == c / 64 % 64;
    assert Bits(b[1]) == c / 4096 % 64 && (b[0] as int - 0xF0) == c / 262144;
  }

  lemma Utf8Reads(c: CodePoint, rest: Bytes)
    requires !Surrogate(c)
    ensures ReadUtf8(Utf8(c) + rest) == Some((c, rest))
  {
    if c < 0x80 {
      assert (Utf8(c) + rest)[1..] == rest;
    } else if c < 0x800 {
      TwoBytesRead(c, rest);
    } else if c < 0x1_0000 {
      ThreeBytesRead(c, rest);
    } else {
      FourBytesRead(c, rest);
    }
  }

  // ---- Strings (section 7 of RFC 8259) ------------------------------------------------------

  function Hex(b: byte): Option<int> {
    if 48 <= b <= 57 then Some(b as int - 48)
    else if 97 <= b <= 102 then Some(b as int - 87)
    else if 65 <= b <= 70 then Some(b as int - 55)
    else None
  }

  /** What follows a backslash. Pairs of escaped surrogates are not read; nothing here writes them. */
  function ReadEscape(b: Bytes): (r: Option<(CodePoint, Bytes)>)
    ensures r.Some? ==> |r.value.1| < |b|
  {
    if b == [] then None
    else if b[0] in {34, 47, 92} then Some((b[0] as int, b[1..]))
    else if b[0] == 98 then Some((0x08, b[1..]))
    else if b[0] == 102 then Some((0x0C, b[1..]))
    else if b[0] == 110 then Some((0x0A, b[1..]))
    else if b[0] == 114 then Some((0x0D, b[1..]))
    else if b[0] == 116 then Some((0x09, b[1..]))
    else if b[0] == 117 && |b| >= 5 && Hex(b[1]).Some? && Hex(b[2]).Some? && Hex(b[3]).Some? && Hex(b[4]).Some? then
      var c := ((Hex(b[1]).value * 16 + Hex(b[2]).value) * 16 + Hex(b[3]).value) * 16 + Hex(b[4]).value;
      if Surrogate(c) then None else Some((c, b[5..]))
    else None
  }

  /** One character of a string; control characters must be escaped. */
  function ReadChar(b: Bytes): (r: Option<(CodePoint, Bytes)>)
    ensures r.Some? ==> |r.value.1| < |b|
  {
    if b == [] || b[0] < 32 || b[0] == 34 then None
    else if b[0] == 92 then ReadEscape(b[1..])
    else ReadUtf8(b)
  }

  /** The characters up to the closing quotation mark. */
  function ReadChars(b: Bytes): (r: Option<(Text, Bytes)>)
    ensures r.Some? ==> |r.value.1| < |b|
  {
    if b != [] && b[0] == 34 then Some(([], b[1..]))
    else match ReadChar(b)
      case None => None
      case Some((c, more)) =>
        match ReadChars(more)
        case None => None
        case Some((text, rest)) => Some(([c] + text, rest))
  }

  lemma HexReads(d: int)
    requires 0 <= d < 16
    ensures Hex(HexDigit(d)) == Some(d)
  {}

  lemma CharReads(c: CodePoint, rest: Bytes)
    requires !Surrogate(c)
    ensures ReadChar(EscapeChar(c) + rest) == Some((c, rest))
    ensures (EscapeChar(c) + rest)[0] != 34
  {
    var b := EscapeChar(c) + rest;
    if c in {34, 92, 8, 12, 10, 13, 9} {
      assert b[1..][1..] == rest;
    } else if c < 32 {
      HexReads(c / 16);
      HexReads(c % 16);
      assert b[1..][5..] == rest;
    } else {
      hide Utf8, ReadUtf8;
      Utf8Reads(c, rest);
      FirstOfUtf8(c, rest);
    }
  }

  /** A character that needs no escape does not begin like one. */
  lemma FirstOfUtf8(c: CodePoint, rest: Bytes)
    requires c >= 32 && c != 34 && c != 92
    ensures var b := Utf8(c) + rest; b[0] >= 32 && b[0] != 34 && b[0] != 92
  {}

  lemma {:induction false} TextReads(s: Text, rest: Bytes)
    requires NoSurrogates(s)
    ensures ReadChars(Escape(s) + [34] + rest) == Some((s, rest))
  {
    hide EscapeChar, ReadChar;
    if s == [] {
      assert Escape(s) + [34] + rest == [34] + rest;
      assert ([34] + rest)[1..] == rest;
    } else {
      var more := Escape(s[1..]) + [34] + rest;
      assert Escape(s) + [34] + rest == EscapeChar(s[0]) + more;
      CharReads(s[0], more);
      TextReads(s[1..], rest);
      assert [s[0]] + s[1..] == s;
    }
  }

  // ---- Numbers (section 6 of RFC 8259) ------------------------------------------------------

  predicate IsDigit(b: byte) { 48 <= b <= 57 }

  /** A byte that may occur in a number. */
  predicate Numeric(b: byte) { IsDigit(b) || b in {43, 45, 46, 69, 101} }

  /** The longest run of bytes that may occur in a number. */
  function Token(b: Bytes): (t: Bytes)
    ensures |t| <= |b|
  {
    if b == [] || !Numeric(b[0]) then [] else [b[0]] + Token(b[1..])
  }

  predicate AllDigits(t: Bytes) { t != [] && forall i :: 0 <= i < |t| ==> IsDigit(t[i]) }

  function ValueOf(t: Bytes): nat
    requires forall i :: 0 <= i < |t| ==> IsDigit(t[i])
  {
    if t == [] then 0
    else
      assert IsDigit(t[|t| - 1]);
      10 * ValueOf(t[..|t| - 1]) + (t[|t| - 1] as int - 48)
  }

  predicate IntegerText(t: Bytes) { AllDigits(t) || (t != [] && t[0] == 45 && AllDigits(t[1..])) }

  function IntegerOf(t: Bytes): int
    requires IntegerText(t)
  {
    if t[0] == 45 then 0 - (ValueOf(t[1..]) as int) else ValueOf(t)
  }

  /** The text of a number that is no integer. */
  predicate FractionText(t: Bytes) {
    && t != [] && (IsDigit(t[0]) || t[0] == 45) && !IntegerText(t)
    && forall i :: 0 <= i < |t| ==> Numeric(t[i])
  }

  /** An integer is read as one; of any other number the text is kept. */
  function ReadNumber(b: Bytes): (r: Option<(Json, Bytes)>)
    ensures r.Some? ==> |r.value.1| < |b|
  {
    var t := Token(b);
    if IntegerText(t) then Some((Int(IntegerOf(t)), b[|t|..]))
    else if t != [] then Some((Float(true, t, 0.0), b[|t|..]))
    else None
  }

  predicate Ends(rest: Bytes) { rest == [] || !Numeric(rest[0]) }

  lemma {:induction false} TokenIs(t: Bytes, rest: Bytes)
    requires (forall i :: 0 <= i < |t| ==> Numeric(t[i])) && Ends(rest)
    ensures Token(t + rest) == t && (t + rest)[|t|..] == rest
  {
    if t == [] {
      assert t + rest == rest;
    } else {
      assert (t + rest)[1..] == t[1..] + rest;
      TokenIs(t[1..], rest);
    }
  }

  lemma {:induction false} DigitsRead(n: nat)
    ensures AllDigits(Digits(n)) && ValueOf(Digits(n)) == n
  {
    if n >= 10 {
      DigitsRead(n / 10);
      var t := Digits(n / 10);
      assert Digits(n)[..|t|] == t;
    } else {
      assert Digits(n)[..0] == [];
    }
  }

  lemma IntegerReads(n: int, rest: Bytes)
    requires Ends(rest)
    ensures ReadNumber(Decimal(n) + rest) == Some((Int(n), rest))
    ensures Decimal(n) != [] && (IsDigit(Decimal(n)[0]) || Decimal(n)[0] == 45)
  {
    hide Digits, Token, ValueOf;
    DigitsRead(if n < 0 then -n else n);
    if n < 0 { assert Decimal(n)[1..] == Digits(-n); }
    TokenIs(Decimal(n), rest);
  }

  // ---- Values -------------------------------------------------------------------------------

  /** One value from the front of a text without white space. */
  function ReadValue(b: Bytes): (r: Option<(Json, Bytes)>)
    ensures r.Some? ==> |r.value.1| < |b|
    decreases |b|, 1
  {
    if b == [] then None
    else if b[0] == 110 then if [110, 117, 108, 108] <= b then Some((Null, b[4..])) else None
    else if b[0] == 116 then if [116, 114, 117, 101] <= b then Some((Bool(true), b[4..])) else None
    else if b[0] == 102 then if [102, 97, 108, 115, 101] <= b then Some((Bool(false), b[5..])) else None
    else if b[0] == 34 then
      match ReadChars(b[1..])
      case None => None
      case Some((text, rest)) => Some((Str(text), rest))
    else if b[0] == 91 then
      if |b| > 1 && b[1] == 93 then Some((Arr([]), b[2..]))
      else match ReadItems(b[1..])
        case None => None
        case Some((items, rest)) => Some((Arr(items), rest))
    else if b[0] == 123 then
      if |b| > 1 && b[1] == 125 then Some((Obj([]), b[2..]))
      else match ReadFields(b[1..])
        case None => None
        case Some((fields, rest)) => Some((Obj(fields), rest))
    else if IsDigit(b[0]) || b[0] == 45 then ReadNumber(b)
    else None
  }

  /** The items up to the closing bracket. */
  function ReadItems(b: Bytes): (r: Option<(seq<Json>, Bytes)>)
    ensures r.Some? ==> |r.value.1| < |b|
    decreases |b|, 2
  {
    match ReadValue(b)
    case None => None
    case Some((v, rest)) =>
      if rest == [] then None
      else if rest[0] == 93 then Some(([v], rest[1..]))
      else if rest[0] != 44 then None
      else match ReadItems(rest[1..])
        case None => None
        case Some((items, last)) => Some(([v] + items, last))
  }

  /** The members up to the closing brace. */
  function ReadFields(b: Bytes): (r: Option<(seq<Field>, Bytes)>)
    ensures r.Some? ==> |r.value.1| < |b|
    decreases |b|, 2
  {
    match ReadField(b)
    case None => None
    case Some((f, rest)) =>
      if rest == [] then None
      else if rest[0] == 125 then Some(([f], rest[1..]))
      else if rest[0] != 44 then None
      else match ReadFields(rest[1..])
        case None => None
        case Some((fields, last)) => Some(([f] + fields, last))
  }

  function ReadField(b: Bytes): (r: Option<(Field, Bytes)>)
    ensures r.Some? ==> |r.value.1| < |b|
    decreases |b|, 1
  {
    if b == [] || b[0] != 34 then None
    else match ReadChars(b[1..])
      case None => None
      case Some((key, rest)) =>
        if rest == [] || rest[0] != 58 then None
        else match ReadValue(rest[1..])
          case None => None
          case Some((v, last)) => Some((Field(key, v), last))
  }

  // ---- What was written is read -------------------------------------------------------------

  /** The text of every float is that of a number. */
  predicate Rendered(v: Json)
    decreases v, 1
  {
    match v
    case Float(_, digits, _) => FractionText(digits)
    case Arr(items) => RenderedItems(items)
    case Obj(fields) => RenderedFields(fields)
    case _ => true
  }

  predicate RenderedItems(items: seq<Json>)
    decreases items, 0
  {
    items == [] || (Rendered(items[0]) && RenderedItems(items[1..]))
  }

  predicate RenderedFields(fields: seq<Field>)
    decreases fields, 0
  {
    fields == [] || (Rendered(fields[0].value) && RenderedFields(fields[1..]))
  }

  /** A value as its text tells it: a float is its text. */
  function Told(v: Json): Json
    decreases v, 1
  {
    match v
    case Float(_, digits, _) => Float(true, digits, 0.0)
    case Arr(items) => Arr(ToldItems(items))
    case Obj(fields) => Obj(ToldFields(fields))
    case _ => v
  }

  function ToldItems(items: seq<Json>): seq<Json>
    decreases items, 0
  {
    if items == [] then [] else [Told(items[0])] + ToldItems(items[1..])
  }

  function ToldFields(fields: seq<Field>): seq<Field>
    decreases fields, 0
  {
    if fields == [] then [] else [Field(fields[0].key, Told(fields[0].value))] + ToldFields(fields[1..])
  }

  lemma FirstByte(v: Json, depth: nat)
    requires Strict(v, depth) && Rendered(v)
    ensures Encode(v) != [] && Encode(v)[0] != 93
  {
    hide Escape, Digits, EncodeItems, EncodeFields, IntegerText;
    if v.Int? { IntegerReads(v.n, []); }
  }

  lemma ScalarReads(v: Json, depth: nat, rest: Bytes)
    requires Strict(v, depth) && Rendered(v) && Ends(rest) && !v.Arr? && !v.Obj?
    ensures ReadValue(Encode(v) + rest) == Some((Told(v), rest))
  {
    hide Escape, Digits, ReadChars, ReadNumber;
    var b := Encode(v) + rest;
    match v
    case Null => assert [110, 117, 108, 108] <= b && b[4..] == rest;
    case Bool(flag) =>
      if flag {
        assert [116, 114, 117, 101] <= b && b[4..] == rest;
      } else {
        assert [102, 97, 108, 115, 101] <= b && b[5..] == rest;
      }
    case Int(n) => IntegerReads(n, rest);
    case Float(_, digits, _) => FractionReads(digits, rest);
    case Str(s) =>
      assert b[1..] == Escape(s) + [34] + rest;
      TextReads(s, rest);
    case _ =>
  }

  lemma FractionReads(t: Bytes, rest: Bytes)
    requires FractionText(t) && Ends(rest)
    ensures ReadNumber(t + rest) == Some((Float(true, t, 0.0), rest))
  {
    hide Token, IntegerText;
    TokenIs(t, rest);
  }

  /** Reading undoes writing, whatever follows. */
  lemma {:induction false} ValueReads(v: Json, depth: nat, rest: Bytes)
    requires Strict(v, depth) && Rendered(v) && Ends(rest)
    ensures ReadValue(Encode(v) + rest) == Some((Told(v), rest))
    decreases v, 1
  {
    hide ReadNumber, ReadChars, Escape, Digits, EncodeItems, EncodeFields, ReadItems, ReadFields, ToldItems, ToldFields,
      StrictItems, StrictFields, RenderedItems, RenderedFields;
    var b := Encode(v) + rest;
    NothingTold();
    match v
    case Arr(items) =>
      if items == [] {
        assert b == [91, 93] + rest && b[2..] == rest;
      } else {
        assert b[1..] == EncodeItems(items) + [93] + rest;
        FirstOfItems(items, depth + 1);
        ItemsRead(items, depth + 1, rest);
      }
    case Obj(fields) =>
      if fields == [] {
        assert b == [123, 125] + rest && b[2..] == rest;
      } else {
        assert b[1..] == EncodeFields(fields) + [125] + rest;
        FirstOfFields(fields);
        FieldsRead(fields, depth + 1, rest);
      }
    case _ => ScalarReads(v, depth, rest);
  }

  lemma NothingTold()
    ensures ToldItems([]) == [] && ToldFields([]) == [] && EncodeItems([]) == [] && EncodeFields([]) == []
  {}

  lemma FirstOfItems(items: seq<Json>, depth: nat)
    requires items != [] && StrictItems(items, depth) && RenderedItems(items)
    ensures EncodeItems(items) != [] && EncodeItems(items)[0] != 93
  {
    hide Encode;
    FirstByte(items[0], depth);
  }

  lemma FirstOfFields(fields: seq<Field>)
    requires fields != []
    ensures EncodeFields(fields) != [] && EncodeFields(fields)[0] == 34
  {
    hide Encode, Escape;
  }

  lemma {:induction false} ItemsRead(items: seq<Json>, depth: nat, rest: Bytes)
    requires items != [] && StrictItems(items, depth) && RenderedItems(items)
    ensures ReadItems(EncodeItems(items) + [93] + rest) == Some((ToldItems(items), rest))
    decreases items, 0
  {
    hide Encode, ReadValue, Told;
    var b := EncodeItems(items) + [93] + rest;
    if |items| == 1 {
      var after := [93] + rest;
      assert b == Encode(items[0]) + after && after[1..] == rest;
      ValueReads(items[0], depth, after);
      assert items[1..] == [] && ToldItems([]) == [] && ToldItems(items) == [Told(items[0])];
    } else {
      var more := EncodeItems(items[1..]) + [93] + rest;
      var after := [44] + more;
      assert b == Encode(items[0]) + after && after[1..] == more;
      ValueReads(items[0], depth, after);
      ItemsRead(items[1..], depth, rest);
    }
  }

  lemma {:induction false} FieldReads(f: Field, depth: nat, rest: Bytes)
    requires depth <= MAX_DEPTH && NoSurrogates(f.key) && Strict(f.value, depth) && Rendered(f.value) && Ends(rest)
    ensures ReadField(EncodeField(f) + rest) == Some((Field(f.key, Told(f.value)), rest))
    decreases f, 0
  {
    hide Encode, ReadValue, Told, ReadChars, Escape;
    var b := EncodeField(f) + rest;
    var more := Encode(f.value) + rest;
    var after := [58] + more;
    assert b[1..] == Escape(f.key) + [34] + after && after[1..] == more;
    TextReads(f.key, after);
    ValueReads(f.value, depth, rest);
  }

  lemma {:induction false} FieldsRead(fields: seq<Field>, depth: nat, rest: Bytes)
    requires fields != [] && StrictFields(fields, depth) && RenderedFields(fields)
    ensures ReadFields(EncodeFields(fields) + [125] + rest) == Some((ToldFields(fields), rest))
    decreases fields, 0
  {
    hide EncodeField, ReadField, Told;
    var b := EncodeFields(fields) + [125] + rest;
    var told := Field(fields[0].key, Told(fields[0].value));
    if |fields| == 1 {
      var after := [125] + rest;
      assert b == EncodeField(fields[0]) + after && after[1..] == rest;
      FieldReads(fields[0], depth, after);
      assert fields[1..] == [] && ToldFields([]) == [] && ToldFields(fields) == [told];
    } else {
      var more := EncodeFields(fields[1..]) + [125] + rest;
      var after := [44] + more;
      assert b == EncodeField(fields[0]) + after && after[1..] == more;
      FieldReads(fields[0], depth, after);
      FieldsRead(fields[1..], depth, rest);
    }
  }

  /** A whole text: one value and nothing more. */
  function ReadText(b: Bytes): Option<Json> {
    match ReadValue(b)
    case Some((v, rest)) => if rest == [] then Some(v) else None
    case None => None
  }

  /** What one side writes is what the other reads. */
  lemma RoundTrip(v: Json)
    requires Strict(v, 0) && Rendered(v)
    ensures ReadText(Encode(v)) == Some(Told(v))
  {
    hide ReadValue, Encode;
    assert Encode(v) + [] == Encode(v);
    ValueReads(v, 0, []);
  }

  /** Two values are written alike only if their texts tell the same. */
  lemma WrittenAlike(v: Json, w: Json)
    requires Strict(v, 0) && Rendered(v) && Strict(w, 0) && Rendered(w)
    ensures Encode(v) == Encode(w) ==> Told(v) == Told(w)
  {
    hide Encode, Told, ReadText;
    RoundTrip(v);
    RoundTrip(w);
  }

  // ---- A whole connection -------------------------------------------------------------------

  /** What the reader is given for bodies. */
  const READ: Bytes -> Option<Json> := b => ReadText(b)

  predicate Sendable(message: Json) { Encodable(message, MAX_FRAME_BYTES) && Rendered(message) }

  /** The bytes of messages sent one after the other, a frame each. */
  function Sent(messages: seq<Json>): Bytes
    requires forall i :: 0 <= i < |messages| ==> Sendable(messages[i])
  {
    if messages == [] then []
    else
      assert Sendable(messages[0]);
      Header(|Encode(messages[0])|) + Encode(messages[0]) + Sent(messages[1..])
  }

  function Received(messages: seq<Json>): seq<Sized<Json>> {
    if messages == [] then [] else [Sized(Told(messages[0]), |Encode(messages[0])| + 4)] + Received(messages[1..])
  }

  lemma FrameReads(message: Json)
    requires Sendable(message)
    ensures var body := Encode(message);
      |body| < 0x1_0000_0000 && IsFrame(Header(|body|) + body, Sized(Told(message), |body| + 4), READ)
  {
    hide Encode, Told, ReadText, Rendered, Strict;
    RoundTrip(message);
    var body := Encode(message);
    assert (Header(|body|) + body)[4..] == body && (Header(|body|) + body)[..4] == Header(|body|);
    NotEmpty(message);
  }

  lemma NotEmpty(message: Json)
    requires message.Obj?
    ensures Encode(message) != []
  {}

  /**
   From one end of the pipe to the other: whatever is sent, a frame a message, the decoder at the other end makes of
   it exactly those messages, with their wire sizes.
   */
  lemma {:induction false} SentIsReceived(messages: seq<Json>)
    requires forall i :: 0 <= i < |messages| ==> Sendable(messages[i])
    ensures Concatenation(Sent(messages), Received(messages), READ)
  {
    hide Encode, Told, ReadText, Sendable, IsFrame;
    if messages != [] {
      var body := Encode(messages[0]);
      assert Sendable(messages[0]);
      FrameReads(messages[0]);
      SentIsReceived(messages[1..]);
      var first := Header(|body|) + body;
      assert Sent(messages)[..|first|] == first && Sent(messages)[|first|..] == Sent(messages[1..]);
      assert Received(messages)[1..] == Received(messages[1..]);
    }
  }
}
