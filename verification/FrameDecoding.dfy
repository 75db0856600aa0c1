/**
 Incremental frame decoding (`_ipc.py`): a decoder fed with arbitrary pieces of a byte stream, and a
 blocking reader of one frame. Both are measured against one parse of the whole stream.
 */
module FrameDecoding {
  import opened Options
  import opened JsonFrames

  /** A decoded message with its wire size, header included. */
  datatype Sized<M> = Sized(message: M, wire: nat)

  /** Outcome of parsing bytes: the complete frames and the unfinished remainder, or a bad frame. */
  datatype Parsed<M> = Frames(frames: seq<Sized<M>>, rest: seq<byte>) | Bad

  function Length(header: seq<byte>): nat
    requires |header| == 4
  {
    header[0] as nat * 0x100_0000 + header[1] as nat * 0x1_0000 + header[2] as nat * 256 + header[3] as nat
  }

  lemma LengthOfHeader(n: nat)
    requires n < 0x1_0000_0000
    ensures Length(Header(n)) == n
  {
    var high := n / 0x1_0000;
    assert high / 256 == n / 0x100_0000;
    assert high == high / 256 * 256 + high % 256;
    assert n / 256 / 256 == high;
    assert n / 256 == high * 256 + n / 256 % 256;
    assert n == n / 256 * 256 + n % 256;
  }

  lemma HeaderOfLength(h: seq<byte>)
    requires |h| == 4
    ensures Length(h) < 0x1_0000_0000 && Header(Length(h)) == h
  {
    var a, b, c, d := h[0] as nat, h[1] as nat, h[2] as nat, h[3] as nat;
    var n := Length(h);
    assert n / 0x100_0000 == a;
    assert n / 0x1_0000 == a * 256 + b;
    assert n / 256 == a * 0x1_0000 + b * 256 + c;
  }

  predicate ValidLength(n: nat) { 0 < n <= MAX_FRAME_BYTES }

  function Prepend<M>(frame: Sized<M>, p: Parsed<M>): Parsed<M> {
    match p
    case Bad => Bad
    case Frames(frames, rest) => Frames([frame] + frames, rest)
  }

  /** What the front of a stream holds. */
  datatype Front<M> = Incomplete | Invalid | First(frame: Sized<M>)

  function Peel<M>(bytes: seq<byte>, decode: seq<byte> -> Option<M>): (f: Front<M>)
    ensures f.First? ==> 4 < f.frame.wire <= |bytes|
    ensures f.Incomplete? ==> |bytes| < 4 + MAX_FRAME_BYTES
  {
    if |bytes| < 4 then Incomplete
    else
      var n := Length(bytes[..4]);
      if !ValidLength(n) then Invalid
      else if |bytes| < 4 + n then Incomplete
      else match decode(bytes[4..4 + n])
        case None => Invalid
        case Some(message) => First(Sized(message, n + 4))
  }

  /** The whole-stream reading: header, body, header, body, ... until bytes run out. */
  function Parse<M>(bytes: seq<byte>, decode: seq<byte> -> Option<M>): (p: Parsed<M>)
    ensures p.Frames? ==> |p.rest| < 4 + MAX_FRAME_BYTES
  {
    match Peel(bytes, decode)
    case Incomplete => Frames([], bytes)
    case Invalid => Bad
    case First(frame) => Prepend(frame, Parse(bytes[frame.wire..], decode))
  }

  /** Resume a parse with more bytes. */
  function Resume<M>(p: Parsed<M>, more: seq<byte>, decode: seq<byte> -> Option<M>): Parsed<M> {
    match p
    case Bad => Bad
    case Frames(frames, rest) =>
      match Parse(rest + more, decode)
      case Bad => Bad
      case Frames(later, rest') => Frames(frames + later, rest')
  }

  /** More bytes never change a front that is already decided. */
  lemma PeelExtends<M>(a: seq<byte>, b: seq<byte>, decode: seq<byte> -> Option<M>)
    ensures !Peel(a, decode).Incomplete? ==> Peel(a + b, decode) == Peel(a, decode)
  {
    if |a| >= 4 {
      var n := Length(a[..4]);
      assert (a + b)[..4] == a[..4];
      if |a| >= 4 + n {
        assert (a + b)[4..4 + n] == a[4..4 + n];
      }
    }
  }

  lemma ResumePrepend<M>(frame: Sized<M>, p: Parsed<M>, b: seq<byte>, decode: seq<byte> -> Option<M>)
    ensures Resume(Prepend(frame, p), b, decode) == Prepend(frame, Resume(p, b, decode))
  {
    if p.Frames? {
      var later := Parse(p.rest + b, decode);
      if later.Frames? {
        assert [frame] + (p.frames + later.frames) == [frame] + p.frames + later.frames;
      }
    }
  }

  lemma ResumeNothing<M>(bytes: seq<byte>, decode: seq<byte> -> Option<M>)
    ensures Resume(Frames([], []), bytes, decode) == Parse(bytes, decode)
    ensures forall a :: Resume(Frames([], a), bytes, decode) == Parse(a + bytes, decode)
  {
    assert [] + bytes == bytes;
    forall a: seq<byte> ensures Resume(Frames([], a), bytes, decode) == Parse(a + bytes, decode) {
      var p := Parse(a + bytes, decode);
      if p.Frames? { assert [] + p.frames == p.frames; }
    }
  }

  /** Parsing may stop anywhere and resume: the split of the stream leaves no trace. */
  lemma {:induction false} ParseSplits<M>(a: seq<byte>, b: seq<byte>, decode: seq<byte> -> Option<M>)
    ensures Parse(a + b, decode) == Resume(Parse(a, decode), b, decode)
    decreases |a|
  {
    PeelExtends(a, b, decode);
    match Peel(a, decode)
    case Incomplete => ResumeNothing(b, decode);
    case Invalid =>
    case First(frame) =>
      assert (a + b)[frame.wire..] == a[frame.wire..] + b;
      ParseSplits(a[frame.wire..], b, decode);
      ResumePrepend(frame, Parse(a[frame.wire..], decode), b, decode);
  }

  /** The bytes of one frame. */
  ghost predicate IsFrame<M>(bytes: seq<byte>, frame: Sized<M>, decode: seq<byte> -> Option<M>) {
    && |bytes| == frame.wire
    && 4 < |bytes| <= 4 + MAX_FRAME_BYTES
    && bytes[..4] == Header(|bytes| - 4)
    && decode(bytes[4..]) == Some(frame.message)
  }

  /** The front of a stream is a frame exactly when some first bytes of it are that frame. */
  lemma FrontIsFrame<M>(bytes: seq<byte>, frame: Sized<M>, decode: seq<byte> -> Option<M>)
    ensures Peel(bytes, decode) == First(frame)
      <==> frame.wire <= |bytes| && IsFrame(bytes[..frame.wire], frame, decode)
  {
    var w := frame.wire;
    if 4 < w <= |bytes| {
      assert bytes[..w][..4] == bytes[..4];
      assert bytes[..w][4..] == bytes[4..w];
      HeaderOfLength(bytes[..4]);
      if w <= 4 + MAX_FRAME_BYTES { LengthOfHeader(w - 4); }
    }
  }

  /** `bytes` is the concatenation of exactly these frames. */
  ghost predicate Concatenation<M>(bytes: seq<byte>, frames: seq<Sized<M>>, decode: seq<byte> -> Option<M>)
    decreases |frames|
  {
    if frames == [] then bytes == []
    else
      && frames[0].wire <= |bytes|
      && IsFrame(bytes[..frames[0].wire], frames[0], decode)
      && Concatenation(bytes[frames[0].wire..], frames[1..], decode)
  }

  lemma PrependIs<M>(frame: Sized<M>, p: Parsed<M>, frames: seq<Sized<M>>)
    requires frames != []
    ensures Prepend(frame, p) == Frames(frames, []) <==> frame == frames[0] && p == Frames(frames[1..], [])
  {
    if p.Frames? {
      assert ([frame] + p.frames)[1..] == p.frames;
      assert frames == [frames[0]] + frames[1..];
    }
  }

  /** A clean parse and a concatenation of frames are the same thing. */
  lemma {:induction false} CleanIffConcatenation<M>(bytes: seq<byte>, frames: seq<Sized<M>>, decode: seq<byte> -> Option<M>)
    ensures Parse(bytes, decode) == Frames(frames, []) <==> Concatenation(bytes, frames, decode)
    decreases |frames|
  {
    if frames == [] {
      if bytes == [] { assert Peel(bytes, decode) == Incomplete; }
    } else {
      FrontIsFrame(bytes, frames[0], decode);
      match Peel(bytes, decode)
      case Incomplete =>
      case Invalid =>
      case First(frame) =>
        PrependIs(frame, Parse(bytes[frame.wire..], decode), frames);
        CleanIffConcatenation(bytes[frame.wire..], frames[1..], decode);
    }
  }

  /** `done` frames have been read off `all`, and `held` is what remains to be read. */
  ghost predicate ReadSoFar<M>(all: seq<byte>, done: seq<Sized<M>>, held: seq<byte>, decode: seq<byte> -> Option<M>) {
    Parse(all, decode) == match Parse(held, decode)
      case Bad => Bad
      case Frames(frames, rest) => Frames(done + frames, rest)
  }

  lemma StartReading<M>(all: seq<byte>, decode: seq<byte> -> Option<M>)
    ensures ReadSoFar(all, [], all, decode)
  {
    var p := Parse(all, decode);
    if p.Frames? { assert [] + p.frames == p.frames; }
  }

  /** One step of reading: pass a first frame, stop at an invalid front, or run out. */
  lemma KeepReading<M>(all: seq<byte>, done: seq<Sized<M>>, held: seq<byte>, decode: seq<byte> -> Option<M>)
    requires ReadSoFar(all, done, held, decode)
    ensures match Peel(held, decode)
      case First(frame) => ReadSoFar(all, done + [frame], held[frame.wire..], decode)
      case Invalid => Parse(all, decode) == Bad
      case Incomplete => Parse(all, decode) == Frames(done, held)
  {
    match Peel(held, decode)
    case First(frame) =>
      var later := Parse(held[frame.wire..], decode);
      if later.Frames? {
        assert done + ([frame] + later.frames) == done + [frame] + later.frames;
      }
    case Invalid =>
    case Incomplete => assert done + [] == done;
  }

  /** Decode partial reads while retaining at most one bounded frame. */
  class FrameDecoder<M> {
    const decode: seq<byte> -> Option<M>
    var header: seq<byte>
    var body: seq<byte>
    var length: Option<nat>
    var ended: bool
    var failed: bool

    constructor (decode: seq<byte> -> Option<M>)
      ensures this.decode == decode && Valid() && !failed && !ended && Pending() == []
    {
      this.decode := decode;
      header, body, length, ended, failed := [], [], None, false, false;
    }

    ghost predicate Valid()
      reads this
    {
      && |header| < 4
      && (length.None? ==> body == [])
      && (length.Some? ==> header == [] && ValidLength(length.value) && |body| < length.value)
    }

    /** The bytes retained between reads, as they came off the wire. */
    ghost function Pending(): (bytes: seq<byte>)
      requires Valid()
      reads this
      ensures |bytes| < 4 + MAX_FRAME_BYTES
    {
      if length.Some? then Header(length.value) + body else header
    }

    lemma PendingIsUnfinished()
      requires Valid()
      ensures Peel(Pending(), decode) == Incomplete
    {
      if length.Some? {
        LengthOfHeader(length.value);
        assert Pending()[..4] == Header(length.value);
      }
    }

    /** What a full body in hand means for the stream it came from. */
    lemma Completed(n: nat, full: seq<byte>, incoming: seq<byte>)
      requires ValidLength(n) && |full| == n
      ensures Peel(Header(n) + full + incoming, decode)
           == (match decode(full) case None => Invalid case Some(m) => First(Sized(m, n + 4)))
      ensures (Header(n) + full + incoming)[n + 4..] == incoming
    {
      var held := Header(n) + full + incoming;
      LengthOfHeader(n);
      assert held[..4] == Header(n);
      assert held[4..4 + n] == full;
    }

    /** Take bytes into the header until it is whole; false means an invalid length was advertised. */
    method TakeHeader(incoming: seq<byte>) returns (left: seq<byte>, ok: bool)
      requires Valid() && length.None? && incoming != []
      modifies this`header, this`length
      ensures !ok ==> Peel(old(Pending()) + incoming, decode) == Invalid
      ensures ok ==> Valid() && Pending() + left == old(Pending()) + incoming && |left| < |incoming|
      ensures ok && length.None? ==> left == []
    {
      var size := if 4 - |header| < |incoming| then 4 - |header| else |incoming|;
      ghost var all := header + incoming;
      header := header + incoming[..size];
      left := incoming[size..];
      assert header + left == all;
      ok := true;
      if |header| == 4 {
        assert all[..4] == header;
        HeaderOfLength(header);
        ok := ValidLength(Length(header));
        if ok {
          length := Some(Length(header));
          header := [];
        }
      }
    }

    /** Take bytes into the body; a full body leaves the decoder empty, decoded or refused. */
    method TakeBody(incoming: seq<byte>) returns (left: seq<byte>, front: Front<M>)
      requires Valid() && length.Some? && incoming != []
      modifies this`body, this`length
      ensures |left| < |incoming|
      ensures front.Incomplete? ==> Valid() && Pending() + left == old(Pending()) + incoming && left == []
      ensures !front.Incomplete? ==> Peel(old(Pending()) + incoming, decode) == front
      ensures front.First? ==> Valid() && Pending() == []
      ensures front.First? ==> left == (old(Pending()) + incoming)[front.frame.wire..]
    {
      var size := if length.value - |body| < |incoming| then length.value - |body| else |incoming|;
      ghost var held := Pending() + incoming;
      body := body + incoming[..size];
      left := incoming[size..];
      assert Header(length.value) + body + left == held;
      if |body| < length.value { return left, Incomplete; }
      Completed(length.value, body, left);
      match decode(body) {
        case None => front := Invalid;
        case Some(message) =>
          front := First(Sized(message, length.value + 4));
          body := [];
          length := None;
      }
    }

    /** Feeding bytes advances the parse of everything seen so far by exactly those bytes. */
    method FeedSized(data: seq<byte>) returns (r: Result<seq<Sized<M>>, ()>)
      requires Valid()
      modifies this`header, this`body, this`length, this`failed
      ensures old(ended || failed) ==> r.Err? && Valid() && failed == old(failed) && ended == old(ended)
      ensures !old(ended || failed) ==> ended == old(ended)
      ensures !old(ended || failed) ==>
        match Parse(old(Pending()) + data, decode)
        case Bad => r.Err? && failed
        case Frames(frames, rest) => r == Ok(frames) && !failed && Valid() && Pending() == rest
    {
      if ended || failed { return Err(()); }
      var incoming := data;
      var completed: seq<Sized<M>> := [];
      ghost var all := Pending() + data;
      StartReading(all, decode);
      while incoming != []
        invariant Valid() && !failed && ended == old(ended)
        invariant ReadSoFar(all, completed, Pending() + incoming, decode)
        decreases |incoming|
      {
        KeepReading(all, completed, Pending() + incoming, decode);
        if length.None? {
          var ok;
          incoming, ok := TakeHeader(incoming);
          if !ok {
            failed := true;
            return Err(());
          }
          if length.None? || incoming == [] { continue; }
        }
        var front;
        incoming, front := TakeBody(incoming);
        match front {
          case Incomplete =>
          case Invalid =>
            failed := true;
            return Err(());
          case First(frame) =>
            completed := completed + [frame];
            assert Pending() + incoming == incoming;
        }
      }
      assert Pending() + incoming == Pending();
      PendingIsUnfinished();
      KeepReading(all, completed, Pending(), decode);
      return Ok(completed);
    }

    /** End of stream: clean exactly when nothing is pending. */
    method Eof() returns (clean: bool)
      requires Valid()
      modifies this
      ensures Valid() && Pending() == old(Pending())
      ensures clean <==> !old(failed) && old(Pending()) == []
      ensures failed == !clean
      ensures !old(failed) ==> ended
    {
      if failed { return false; }
      ended := true;
      if header != [] || length.Some? {
        failed := true;
        return false;
      }
      return true;
    }
  }

  function Joined(chunks: seq<seq<byte>>): seq<byte> { Flatten(chunks) }

  /**
   Decode a stream that arrives in any pieces. Success, the messages and their wire sizes depend only
   on the joined bytes: success means they are a concatenation of exactly these frames.
   */
  method DecodeStream<M>(chunks: seq<seq<byte>>, decode: seq<byte> -> Option<M>) returns (r: Option<seq<Sized<M>>>)
    ensures r.Some? <==> exists frames :: Concatenation(Joined(chunks), frames, decode)
    ensures r.Some? ==> Concatenation(Joined(chunks), r.value, decode)
  {
    var decoder := new FrameDecoder(decode);
    var messages: seq<Sized<M>> := [];
    var bytes := Joined(chunks);
    assert chunks[..0] == [];
    for i := 0 to |chunks|
      invariant fresh(decoder) && decoder.decode == decode && decoder.Valid() && !decoder.failed && !decoder.ended
      invariant Parse(Joined(chunks[..i]), decode) == Frames(messages, decoder.Pending())
    {
      var seen := Joined(chunks[..i]);
      FlattenConcat(chunks[..i], [chunks[i]]);
      FlattenOne(chunks[i]);
      assert chunks[..i + 1] == chunks[..i] + [chunks[i]];
      assert chunks == chunks[..i + 1] + chunks[i + 1..];
      FlattenConcat(chunks[..i + 1], chunks[i + 1..]);
      ParseSplits(seen, chunks[i], decode);
      ParseSplits(seen + chunks[i], Flatten(chunks[i + 1..]), decode);
      var fed := decoder.FeedSized(chunks[i]);
      if fed.Err? {
        forall frames ensures !Concatenation(bytes, frames, decode) {
          CleanIffConcatenation(bytes, frames, decode);
        }
        return None;
      }
      messages := messages + fed.value;
    }
    assert chunks[..|chunks|] == chunks;
    var clean := decoder.Eof();
    if !clean {
      forall frames ensures !Concatenation(bytes, frames, decode) {
        CleanIffConcatenation(bytes, frames, decode);
      }
      return None;
    }
    CleanIffConcatenation(bytes, messages, decode);
    return Some(messages);
  }

  /** Any two ways of cutting the same bytes are indistinguishable. */
  lemma ChunkingIsInvisible<M>(bytes: seq<byte>, a: seq<Sized<M>>, b: seq<Sized<M>>, decode: seq<byte> -> Option<M>)
    requires Concatenation(bytes, a, decode) && Concatenation(bytes, b, decode)
    ensures a == b
  {
    CleanIffConcatenation(bytes, a, decode);
    CleanIffConcatenation(bytes, b, decode);
  }

  /** A blocking byte source that may return fewer bytes than asked for; nothing means end of input. */
  class ByteSource {
    var data: seq<byte>
    var cuts: seq<nat>

    constructor (data: seq<byte>, cuts: seq<nat>)
      ensures this.data == data && this.cuts == cuts
    {
      this.data, this.cuts := data, cuts;
    }

    method Read(size: nat) returns (chunk: seq<byte>)
      requires size > 0
      modifies this
      ensures |chunk| <= size && old(data) == chunk + data
      ensures chunk == [] <==> old(data) == []
    {
      var n := if size < |data| then size else |data|;
      if cuts != [] {
        if 0 < cuts[0] < n { n := cuts[0]; }
        cuts := cuts[1..];
      }
      chunk := data[..n];
      data := data[n..];
    }
  }

  datatype OneFrame<M> = EndOfInput | OneFrame(message: M) | Broken

  /** Read one frame and not a byte more, however the source cuts its reads. */
  method ReadFrame<M>(stream: ByteSource, decode: seq<byte> -> Option<M>) returns (r: OneFrame<M>)
    modifies stream
    ensures r.EndOfInput? <==> old(stream.data) == []
    ensures r.OneFrame? ==>
      var n := |old(stream.data)| - |stream.data|;
      && 0 < n
      && Peel(old(stream.data), decode) == First(Sized(r.message, n))
      && stream.data == old(stream.data)[n..]
    ensures r.Broken? ==> !Peel(old(stream.data), decode).First?
  {
    ghost var all := stream.data;
    var header: seq<byte> := [];
    while |header| < 4
      invariant |header| <= 4 && header + stream.data == all
      decreases 4 - |header|
    {
      var chunk := stream.Read(4 - |header|);
      if chunk == [] {
        if header == [] { return EndOfInput; }
        return Broken;
      }
      header := header + chunk;
    }
    var n := Length(header);
    assert all[..4] == header;
    if !ValidLength(n) { return Broken; }
    var body: seq<byte> := [];
    while |body| < n
      invariant |body| <= n && header + body + stream.data == all
      decreases n - |body|
    {
      var chunk := stream.Read(n - |body|);
      if chunk == [] { return Broken; }
      body := body + chunk;
    }
    assert all[4..4 + n] == body;
    match decode(body) {
      case None => return Broken;
      case Some(message) => return OneFrame(message);
    }
  }

  /** Repeated single reads agree with the incremental decoder on the whole stream. */
  method ReadAll<M>(stream: ByteSource, decode: seq<byte> -> Option<M>) returns (r: Option<seq<Sized<M>>>)
    modifies stream
    ensures r.Some? <==> exists frames :: Concatenation(old(stream.data), frames, decode)
    ensures r.Some? ==> Concatenation(old(stream.data), r.value, decode)
  {
    ghost var all := stream.data;
    var frames: seq<Sized<M>> := [];
    StartReading(all, decode);
    while true
      invariant ReadSoFar(all, frames, stream.data, decode)
      decreases |stream.data|
    {
      KeepReading(all, frames, stream.data, decode);
      ghost var left := stream.data;
      var before := |stream.data|;
      var one := ReadFrame(stream, decode);
      if one.EndOfInput? {
        CleanIffConcatenation(all, frames, decode);
        return Some(frames);
      } else if one.Broken? {
        forall fs ensures !Concatenation(all, fs, decode) {
          CleanIffConcatenation(all, fs, decode);
        }
        return None;
      }
      frames := frames + [Sized(one.message, before - |stream.data|)];
    }
  }
}
