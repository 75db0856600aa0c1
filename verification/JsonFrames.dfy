/**
 Strict JSON encoding of one frame (`_ipc.py`): the size pre-check that runs before any text is
 produced, the chunked writer, and `encode_frame`, which refuses a message for its size exactly when
 its real encoding is too long.
 */
module JsonFrames {
  import opened Options

  newtype byte = b: int | 0 <= b < 256

  type CodePoint = c: int | 0 <= c < 0x11_0000
  type Text = seq<CodePoint>

  /** The shortest and longest decimal rendering of a finite float is the platform's business. */
  type FloatText = s: seq<byte> | s != [] witness [48]

  /** A Python value; a finite float has a value beside its rendering. `Unsupported` is any value that is not JSON. */
  datatype Json =
    | Null
    | Bool(flag: bool)
    | Int(n: int)
    | Float(finite: bool, digits: FloatText, value: real)
    | Str(text: Text)
    | Arr(items: seq<Json>)
    | Obj(fields: seq<Field>)
    | Unsupported

  datatype Field = Field(key: Text, value: Json)

  /** The code points of an ASCII literal. */
  function Ascii(s: string): (t: Text)
    ensures |t| == |s|
  {
    if s == "" then [] else [if s[0] as int < 0x80 then s[0] as int else 63] + Ascii(s[1..])
  }

  const MAX_FRAME_BYTES := 16 * 1024 * 1024
  const MAX_EVENT_BYTES := 1024 * 1024
  const MAX_DEPTH := 64
  const STRING_CHUNK: nat := 4096

  // ---- Reference encoding -------------------------------------------------------------------

  predicate Surrogate(c: CodePoint) { 0xD800 <= c <= 0xDFFF }

  predicate NoSurrogates(s: Text) { forall i :: 0 <= i < |s| ==> !Surrogate(s[i]) }

  /** UTF-8 (section 3 of RFC 3629). */
  function Utf8(c: CodePoint): (r: seq<byte>)
    ensures 1 <= |r| <= 4
  {
    if c < 0x80 then [c as byte]
    else if c < 0x800 then [(0xC0 + c / 64) as byte, (0x80 + c % 64) as byte]
    else if c < 0x1_0000 then [(0xE0 + c / 4096) as byte, (0x80 + c / 64 % 64) as byte, (0x80 + c % 64) as byte]
    else [(0xF0 + c / 262144) as byte, (0x80 + c / 4096 % 64) as byte, (0x80 + c / 64 % 64) as byte, (0x80 + c % 64) as byte]
  }

  function HexDigit(d: int): byte
    requires 0 <= d < 16
  {
    if d < 10 then (48 + d) as byte else (87 + d) as byte
  }

  /** String escapes without ASCII folding (section 7 of RFC 8259). */
  function EscapeChar(c: CodePoint): (r: seq<byte>)
    ensures 1 <= |r| <= 6
  {
    if c == 34 then [92, 34]
    else if c == 92 then [92, 92]
    else if c == 8 then [92, 98]
    else if c == 12 then [92, 102]
    else if c == 10 then [92, 110]
    else if c == 13 then [92, 114]
    else if c == 9 then [92, 116]
    else if c < 32 then [92, 117, 48, 48, HexDigit(c / 16), HexDigit(c % 16)]
    else Utf8(c)
  }

  function Escape(s: Text): seq<byte> {
    if s == [] then [] else EscapeChar(s[0]) + Escape(s[1..])
  }

  function Quoted(s: Text): seq<byte> { [34] + Escape(s) + [34] }

  function Digits(n: nat): (r: seq<byte>)
    ensures r != []
  {
    if n < 10 then [(48 + n) as byte] else Digits(n / 10) + [(48 + n % 10) as byte]
  }

  function Decimal(n: int): seq<byte> {
    if n < 0 then [45] + Digits(-n) else Digits(n)
  }

  /** The bytes of a value, each string escaped whole. */
  function Encode(v: Json): seq<byte>
    decreases v, 1
  {
    match v
    case Null => [110, 117, 108, 108]
    case Bool(flag) => if flag then [116, 114, 117, 101] else [102, 97, 108, 115, 101]
    case Int(n) => Decimal(n)
    case Float(_, digits, _) => digits
    case Str(s) => Quoted(s)
    case Arr(items) => [91] + EncodeItems(items) + [93]
    case Obj(fields) => [123] + EncodeFields(fields) + [125]
    case Unsupported => []
  }

  function EncodeItems(items: seq<Json>): seq<byte>
    decreases items, 0
  {
    if items == [] then []
    else if |items| == 1 then Encode(items[0])
    else Encode(items[0]) + [44] + EncodeItems(items[1..])
  }

  function EncodeFields(fields: seq<Field>): seq<byte>
    decreases fields, 0
  {
    if fields == [] then []
    else if |fields| == 1 then EncodeField(fields[0])
    else EncodeField(fields[0]) + [44] + EncodeFields(fields[1..])
  }

  function EncodeField(field: Field): seq<byte>
    decreases field, 0
  {
    Quoted(field.key) + [58] + Encode(field.value)
  }

  // ---- The size pre-check -------------------------------------------------------------------

  /** Python's `int.bit_length` of a magnitude. */
  function BitLength(n: nat): nat {
    if n == 0 then 0 else 1 + BitLength(n / 2)
  }

  function Magnitude(n: int): nat { if n < 0 then -n else n }

  function Max(a: int, b: int): int { if a < b then b else a }

  /** The minimum the pre-check accumulates for a value it does not refuse. */
  function MinSize(v: Json): (m: nat)
    decreases v, 1
  {
    match v
    case Null => 4
    case Bool(flag) => if flag then 4 else 5
    case Int(n) => Max(1, BitLength(Magnitude(n)) / 4)
    case Float(_, _, _) => 1
    case Str(s) => |s| + 2
    case Arr(items) => 2 + Max(0, |items| - 1) + MinItems(items)
    case Obj(fields) => 2 + Max(0, |fields| - 1) + MinFields(fields)
    case Unsupported => 0
  }

  function MinItems(items: seq<Json>): (m: nat)
    decreases items, 0
  {
    if items == [] then 0 else MinSize(items[0]) + MinItems(items[1..])
  }

  function MinFields(fields: seq<Field>): (m: nat)
    decreases fields, 0
  {
    if fields == [] then 0
    else 1 + (|fields[0].key| + 2) + MinSize(fields[0].value) + MinFields(fields[1..])
  }

  /** Everything the protocol demands of a value besides its size. */
  predicate Strict(v: Json, depth: nat)
    decreases v, 1
  {
    && depth <= MAX_DEPTH
    && match v
       case Str(s) => NoSurrogates(s)
       case Float(finite, _, _) => finite
       case Arr(items) => StrictItems(items, depth + 1)
       case Obj(fields) => StrictFields(fields, depth + 1)
       case Unsupported => false
       case _ => true
  }

  predicate StrictItems(items: seq<Json>, depth: nat)
    decreases items, 0
  {
    items == [] || (Strict(items[0], depth) && StrictItems(items[1..], depth))
  }

  predicate StrictFields(fields: seq<Field>, depth: nat)
    decreases fields, 0
  {
    fields == [] || (
      && depth <= MAX_DEPTH
      && NoSurrogates(fields[0].key)
      && Strict(fields[0].value, depth)
      && StrictFields(fields[1..], depth))
  }

  datatype Refusal = TooDeep | TooLarge | UnpairedSurrogate | Nonfinite | UnsupportedValue | NotAnObject | BadLimit

  /** `_check_json`: one running minimum shared by the whole recursive visit. */
  class SizeCheck {
    const maximum: nat
    var minimum: nat

    constructor (maximum: nat)
      ensures this.maximum == maximum && minimum == 0
    {
      this.maximum := maximum;
      minimum := 0;
    }

    method Visit(item: Json, depth: nat) returns (refused: Option<Refusal>)
      requires minimum <= maximum
      modifies this
      ensures refused.None? <==> Strict(item, depth) && old(minimum) + MinSize(item) <= maximum
      ensures refused.None? ==> minimum == old(minimum) + MinSize(item)
      decreases item, 1
    {
      if depth > MAX_DEPTH {
        return Some(TooDeep);
      }
      match item {
        case Null => minimum := minimum + 4;
        case Bool(flag) => minimum := minimum + if flag then 4 else 5;
        case Str(s) => {
          minimum := minimum + |s| + 2;
          if minimum > maximum { return Some(TooLarge); }
          if !NoSurrogates(s) { return Some(UnpairedSurrogate); }
        }
        case Int(n) => minimum := minimum + Max(1, BitLength(Magnitude(n)) / 4);
        case Float(finite, _, _) => {
          if !finite { return Some(Nonfinite); }
          minimum := minimum + 1;
        }
        case Arr(items) => {
          minimum := minimum + 2 + Max(0, |items| - 1);
          if minimum > maximum { return Some(TooLarge); }
          refused := VisitItems(items, depth + 1);
          if refused.Some? { return; }
        }
        case Obj(fields) => {
          minimum := minimum + 2 + Max(0, |fields| - 1);
          if minimum > maximum { return Some(TooLarge); }
          refused := VisitFields(fields, depth + 1);
          if refused.Some? { return; }
        }
        case Unsupported => return Some(UnsupportedValue);
      }
      if minimum > maximum { return Some(TooLarge); }
      return None;
    }

    method VisitItems(items: seq<Json>, depth: nat) returns (refused: Option<Refusal>)
      requires minimum <= maximum
      modifies this
      ensures refused.None? <==> StrictItems(items, depth) && old(minimum) + MinItems(items) <= maximum
      ensures refused.None? ==> minimum == old(minimum) + MinItems(items)
      decreases items, 0
    {
      if items == [] { return None; }
      refused := Visit(items[0], depth);
      if refused.Some? { return; }
      refused := VisitItems(items[1..], depth);
    }

    method VisitFields(fields: seq<Field>, depth: nat) returns (refused: Option<Refusal>)
      requires minimum <= maximum
      modifies this
      ensures refused.None? <==> StrictFields(fields, depth) && old(minimum) + MinFields(fields) <= maximum
      ensures refused.None? ==> minimum == old(minimum) + MinFields(fields)
      decreases fields, 0
    {
      if fields == [] { return None; }
      var child := fields[0];
      minimum := minimum + 1;
      // The key is visited as a string of its own, one level down.
      if depth > MAX_DEPTH { return Some(TooDeep); }
      minimum := minimum + |child.key| + 2;
      if minimum > maximum { return Some(TooLarge); }
      if !NoSurrogates(child.key) { return Some(UnpairedSurrogate); }
      refused := Visit(child.value, depth);
      if refused.Some? { return; }
      refused := VisitFields(fields[1..], depth);
    }
  }

  lemma {:induction false} BitLengthIsMonotone(a: nat, b: nat)
    requires a <= b
    ensures BitLength(a) <= BitLength(b)
  {
    if a > 0 { BitLengthIsMonotone(a / 2, b / 2); }
  }

  /** Multiplying by sixteen adds four bits, so one more decimal digit never adds more than four. */
  lemma {:induction false} DigitsCoverBits(n: nat)
    ensures BitLength(n) <= 4 * |Digits(n)|
  {
    hide BitLength;
    if n < 10 {
      BitLengthIsMonotone(n, 15);
      FourMoreBits(0);
    } else {
      DigitsCoverBits(n / 10);
      BitLengthIsMonotone(n, 16 * (n / 10) + 15);
      FourMoreBits(n / 10);
      assert |Digits(n)| == |Digits(n / 10)| + 1;
    }
  }

  lemma FourMoreBits(q: nat)
    ensures BitLength(16 * q + 15) == 4 + BitLength(q) && BitLength(0) == 0
  {
    OneMoreBit(8 * q + 7);
    OneMoreBit(4 * q + 3);
    OneMoreBit(2 * q + 1);
    OneMoreBit(q);
  }

  lemma OneMoreBit(n: nat)
    ensures BitLength(2 * n + 1) == 1 + BitLength(n)
  {
    assert (2 * n + 1) / 2 == n;
  }

  lemma {:induction false} EscapeIsNoShorter(s: Text)
    ensures |s| <= |Escape(s)| <= 6 * |s|
  {
    if s != [] { EscapeIsNoShorter(s[1..]); }
  }

  /** The accumulated minimum never exceeds the length of the real encoding. */
  lemma {:induction false} MinimumIsALowerBound(v: Json)
    requires Strict(v, 0)
    ensures MinSize(v) <= |Encode(v)|
  {
    MinimumBelow(v, 0);
  }

  lemma {:induction false} MinimumBelow(v: Json, depth: nat)
    requires Strict(v, depth)
    ensures MinSize(v) <= |Encode(v)|
    decreases v, 1
  {
    match v
    case Null =>
    case Bool(_) =>
    case Int(n) => DigitsCoverBits(Magnitude(n));
    case Float(_, _, _) =>
    case Str(s) => EscapeIsNoShorter(s);
    case Arr(items) => MinimumBelowItems(items, depth + 1);
    case Obj(fields) => MinimumBelowFields(fields, depth + 1);
  }

  lemma {:induction false} MinimumBelowItems(items: seq<Json>, depth: nat)
    requires StrictItems(items, depth)
    ensures Max(0, |items| - 1) + MinItems(items) <= |EncodeItems(items)|
    decreases items, 0
  {
    if items != [] {
      MinimumBelow(items[0], depth);
      MinimumBelowItems(items[1..], depth);
    }
  }

  lemma {:induction false} MinimumBelowFields(fields: seq<Field>, depth: nat)
    requires StrictFields(fields, depth)
    ensures Max(0, |fields| - 1) + MinFields(fields) <= |EncodeFields(fields)|
    decreases fields, 0
  {
    if fields != [] {
      EscapeIsNoShorter(fields[0].key);
      MinimumBelow(fields[0].value, depth);
      MinimumBelowFields(fields[1..], depth);
    }
  }

  // ---- The chunked writer -------------------------------------------------------------------

  function Flatten(chunks: seq<seq<byte>>): seq<byte> {
    if chunks == [] then [] else chunks[0] + Flatten(chunks[1..])
  }

  /** A string's escaped pieces, at most `STRING_CHUNK` code points each. */
  function Pieces(s: Text): seq<seq<byte>> {
    if s == [] then []
    else if |s| <= STRING_CHUNK then [Escape(s)]
    else [Escape(s[..STRING_CHUNK])] + Pieces(s[STRING_CHUNK..])
  }

  function StringChunks(s: Text): seq<seq<byte>> { [[34]] + Pieces(s) + [[34]] }

  /** `_json_chunks`: the byte strings the generator yields, in order. */
  function JsonChunks(v: Json): seq<seq<byte>>
    decreases v, 1
  {
    match v
    case Str(s) => StringChunks(s)
    case Obj(fields) => [[123]] + FieldChunks(fields, true) + [[125]]
    case Arr(items) => [[91]] + ItemChunks(items, true) + [[93]]
    case _ => [Encode(v)]
  }

  function ItemChunks(items: seq<Json>, first: bool): seq<seq<byte>>
    decreases items, 0
  {
    if items == [] then []
    else (if first then [] else [[44]]) + JsonChunks(items[0]) + ItemChunks(items[1..], false)
  }

  function FieldChunks(fields: seq<Field>, first: bool): seq<seq<byte>>
    decreases fields, 0
  {
    if fields == [] then []
    else (if first then [] else [[44]]) + OneFieldChunks(fields[0]) + FieldChunks(fields[1..], false)
  }

  function OneFieldChunks(field: Field): seq<seq<byte>>
    decreases field, 0
  {
    StringChunks(field.key) + [[58]] + JsonChunks(field.value)
  }

  lemma {:induction false} EscapeConcat(a: Text, b: Text)
    ensures Escape(a + b) == Escape(a) + Escape(b)
  {
    if a == [] {
      assert a + b == b;
    } else {
      assert (a + b)[1..] == a[1..] + b;
      EscapeConcat(a[1..], b);
    }
  }

  lemma {:induction false} FlattenConcat(a: seq<seq<byte>>, b: seq<seq<byte>>)
    ensures Flatten(a + b) == Flatten(a) + Flatten(b)
  {
    if a == [] {
      assert a + b == b;
    } else {
      assert (a + b)[1..] == a[1..] + b;
      FlattenConcat(a[1..], b);
    }
  }

  lemma FlattenOne(c: seq<byte>)
    ensures Flatten([c]) == c
  {
    assert [c][1..] == [];
  }

  /** Escaping a string in pieces yields the bytes of escaping it whole. */
  lemma {:induction false} PiecesAreWhole(s: Text)
    ensures Flatten(Pieces(s)) == Escape(s)
  {
    if s == [] {
    } else if |s| <= STRING_CHUNK {
      FlattenOne(Escape(s));
    } else {
      PiecesAreWhole(s[STRING_CHUNK..]);
      EscapeConcat(s[..STRING_CHUNK], s[STRING_CHUNK..]);
      assert s == s[..STRING_CHUNK] + s[STRING_CHUNK..];
    }
  }

  lemma StringChunksAreWhole(s: Text)
    ensures Flatten(StringChunks(s)) == Quoted(s)
  {
    PiecesAreWhole(s);
    FlattenOne([34]);
    FlattenConcat([[34]], Pieces(s));
    FlattenConcat([[34]] + Pieces(s), [[34]]);
  }

  /** The generator's chunks, joined, are the reference encoding. */
  lemma {:induction false} ChunksAreEncoding(v: Json)
    ensures Flatten(JsonChunks(v)) == Encode(v)
    decreases v, 1
  {
    match v {
      case Str(s) => StringChunksAreWhole(s);
      case Obj(fields) =>
        FieldChunksAreEncoding(fields, true);
        Bracketed([123], FieldChunks(fields, true), [125]);
      case Arr(items) =>
        ItemChunksAreEncoding(items, true);
        Bracketed([91], ItemChunks(items, true), [93]);
      case _ => FlattenOne(Encode(v));
    }
  }

  lemma Bracketed(left: seq<byte>, inner: seq<seq<byte>>, right: seq<byte>)
    ensures Flatten([left] + inner + [right]) == left + Flatten(inner) + right
  {
    FlattenOne(left);
    FlattenOne(right);
    FlattenConcat([left], inner);
    FlattenConcat([left] + inner, [right]);
  }

  function Lead(first: bool, empty: bool): seq<byte> { if first || empty then [] else [44] }

  lemma {:induction false} ItemChunksAreEncoding(items: seq<Json>, first: bool)
    ensures Flatten(ItemChunks(items, first)) == Lead(first, items == []) + EncodeItems(items)
    decreases items, 0
  {
    if items != [] {
      var head := if first then [] else [[44]];
      ChunksAreEncoding(items[0]);
      ItemChunksAreEncoding(items[1..], false);
      FlattenOne([44]);
      FlattenConcat(head, JsonChunks(items[0]));
      FlattenConcat(head + JsonChunks(items[0]), ItemChunks(items[1..], false));
    }
  }

  lemma FlattenNothing()
    ensures Flatten([]) == []
  {}

  lemma NoFields(first: bool)
    ensures FieldChunks([], first) == [] && EncodeFields([]) == []
  {}

  lemma {:induction false} FieldChunksAreEncoding(fields: seq<Field>, first: bool)
    ensures Flatten(FieldChunks(fields, first)) == Lead(first, fields == []) + EncodeFields(fields)
    decreases fields, 0
  {
    hide OneFieldChunks, EncodeField;
    if fields == [] {
      hide EncodeFields;
      NoFields(first);
    } else {
      FlattenNothing();
      hide Flatten;
      var head := if first then [] else [[44]];
      OneFieldIsEncoding(fields[0]);
      FieldChunksAreEncoding(fields[1..], false);
      FlattenOne([44]);
      FlattenConcat(head, OneFieldChunks(fields[0]));
      FlattenConcat(head + OneFieldChunks(fields[0]), FieldChunks(fields[1..], false));
    }
  }

  lemma {:induction false} OneFieldIsEncoding(field: Field)
    ensures Flatten(OneFieldChunks(field)) == EncodeField(field)
    decreases field, 0
  {
    StringChunksAreWhole(field.key);
    ChunksAreEncoding(field.value);
    FlattenOne([58]);
    FlattenConcat(StringChunks(field.key), [[58]]);
    FlattenConcat(StringChunks(field.key) + [[58]], JsonChunks(field.value));
  }

  // ---- encode_frame -------------------------------------------------------------------------

  const EVENT: Text := [101, 118, 101, 110, 116]
  const LIVE_EVENT: Text := [108, 105, 118, 101, 95, 101, 118, 101, 110, 116]
  const TYPE: Text := [116, 121, 112, 101]

  /** `dict.get`: the value under a key, if any. */
  function Get(fields: seq<Field>, key: Text): Option<Json> {
    if fields == [] then None
    else if fields[0].key == key then Some(fields[0].value)
    else Get(fields[1..], key)
  }

  predicate IsEvent(message: Json) {
    message.Obj? && Get(message.fields, TYPE) in {Some(Str(EVENT)), Some(Str(LIVE_EVENT))}
  }

  function Limit(message: Json, maxBytes: nat): nat {
    if IsEvent(message) && MAX_EVENT_BYTES < maxBytes then MAX_EVENT_BYTES else maxBytes
  }

  /** Four bytes, most significant first. */
  function Header(n: nat): (h: seq<byte>)
    requires n < 0x1_0000_0000
    ensures |h| == 4
  {
    [(n / 0x100_0000) as byte, (n / 0x1_0000 % 256) as byte, (n / 256 % 256) as byte, (n % 256) as byte]
  }

  /** What `encode_frame` can carry within `maxBytes`. */
  predicate Encodable(message: Json, maxBytes: nat) {
    message.Obj? && Strict(message, 0) && |Encode(message)| <= Limit(message, maxBytes)
  }

  /** A frame is produced exactly for strict objects whose real encoding fits the limit. */
  method EncodeFrame(message: Json, maxBytes: nat := MAX_FRAME_BYTES) returns (frame: Result<seq<byte>, Refusal>)
    ensures frame.Ok? <==> 0 < maxBytes <= MAX_FRAME_BYTES && Encodable(message, maxBytes)
    ensures frame.Ok? ==> frame.value == Header(|Encode(message)|) + Encode(message)
  {
    if !message.Obj? { return Err(NotAnObject); }
    if !(0 < maxBytes <= MAX_FRAME_BYTES) { return Err(BadLimit); }
    var limit := Limit(message, maxBytes);
    var check := new SizeCheck(limit);
    var refused := check.Visit(message, 0);
    ChunksAreEncoding(message);
    if refused.Some? {
      if Strict(message, 0) { MinimumIsALowerBound(message); }
      return Err(refused.value);
    }
    var chunks := JsonChunks(message);
    var body: seq<byte> := [];
    assert chunks[..|chunks|] == chunks;
    for i := 0 to |chunks|
      invariant body == Flatten(chunks[..i]) && |body| <= limit
    {
      FlattenConcat(chunks[..i], [chunks[i]]);
      FlattenOne(chunks[i]);
      assert chunks[..i + 1] == chunks[..i] + [chunks[i]];
      if |body| + |chunks[i]| > limit {
        FlattenConcat(chunks[..i + 1], chunks[i + 1..]);
        assert chunks == chunks[..i + 1] + chunks[i + 1..];
        return Err(TooLarge);
      }
      body := body + chunks[i];
    }
    return Ok(Header(|body|) + body);
  }
}
