/**
 The wire format of the runner protocol: a payload preceded by its length as four
 big-endian bytes; the incremental parser of the runner, and the one-frame codec of
 the orchestrator.

 A message is its encoded payload; `accepts` says which payloads parse as JSON.
 */
module Framing {
  import opened Wrappers

  type Byte = x: int | 0 <= x < 256

  type Bytes = seq<Byte>

  const HEADER: nat := 4
  const MAX_FRAME_LEN: nat := 16 * 1024 * 1024

  function Encode16(n: nat): (b: Bytes)
    requires n < 0x1_0000
    ensures |b| == 2
  {
    var high: int, low: int := n / 0x100, n % 0x100;
    [high, low]
  }

  function Decode16(high: Byte, low: Byte): (n: nat)
    ensures n < 0x1_0000
  {
    high as int * 0x100 + low as int
  }

  /** `to_be_bytes`, `writeUInt32BE` */
  function Encode32(n: nat): (b: Bytes)
    requires n < 0x1_0000_0000
    ensures |b| == HEADER
  {
    Encode16(n / 0x1_0000) + Encode16(n % 0x1_0000)
  }

  /** `from_be_bytes`, `readUInt32BE` */
  function Decode32(b: Bytes): (n: nat)
    requires HEADER <= |b|
    ensures n < 0x1_0000_0000
  {
    Decode16(b[0], b[1]) * 0x1_0000 + Decode16(b[2], b[3])
  }

  lemma Decode32Encode32(n: nat, rest: Bytes)
    requires n < 0x1_0000_0000
    ensures Decode32(Encode32(n) + rest) == n
  {}

  lemma Encode32Decode32(b: Bytes)
    requires HEADER <= |b|
    ensures Encode32(Decode32(b)) == b[..HEADER]
  {
    HalvesOf(Decode16(b[0], b[1]), Decode16(b[2], b[3]));
    Encode16Decode16(b[0], b[1]);
    Encode16Decode16(b[2], b[3]);
    assert b[..HEADER] == [b[0], b[1]] + [b[2], b[3]];
  }

  lemma HalvesOf(high: nat, low: nat)
    requires low < 0x1_0000
    ensures (high * 0x1_0000 + low) / 0x1_0000 == high && (high * 0x1_0000 + low) % 0x1_0000 == low
  {}

  lemma Encode16Decode16(high: Byte, low: Byte)
    ensures Encode16(Decode16(high, low)) == [high, low]
  {
    var n := high as int * 0x100 + low as int;
    assert n / 0x100 == high as int && n % 0x100 == low as int;
  }

  // ---------- one frame

  function EncodeFrame(payload: Bytes): Option<Bytes> {
    if |payload| < 0x1_0000_0000 then Some(Encode32(|payload|) + payload) else None
  }

  function DecodeFrame(frame: Bytes): Option<Bytes> {
    if |frame| < HEADER || |frame| - HEADER != Decode32(frame) then None else Some(frame[HEADER..])
  }

  /** Encoding and decoding one frame are inverse, in both directions. */
  lemma FrameRoundTrip(payload: Bytes, frame: Bytes)
    ensures EncodeFrame(payload) == Some(frame) <==> DecodeFrame(frame) == Some(payload)
  {
    if EncodeFrame(payload) == Some(frame) {
      Decode32Encode32(|payload|, payload);
    }
    if DecodeFrame(frame) == Some(payload) {
      Encode32Decode32(frame);
      assert frame == frame[..HEADER] + frame[HEADER..];
    }
  }

  function SumOf(a: int, b: int, c: int, d: int): int {
    0x100_0000 * a + 0x1_0000 * b + 0x100 * c + d
  }

  /** A frame is the payload behind its length, the most significant byte first; and every
      such sequence of bytes is a frame. */
  lemma FrameIsLengthAndPayload(payload: Bytes, frame: Bytes)
    ensures EncodeFrame(payload) == Some(frame) <==>
              && |frame| == HEADER + |payload| && frame[HEADER..] == payload
              && |payload| == SumOf(frame[0], frame[1], frame[2], frame[3])
  {
    FrameRoundTrip(payload, frame);
  }

  // ---------- the incremental parser

  datatype ParseError = EmptyPayload | PayloadTooLarge | BadPayload

  datatype Parsed = Parsed(messages: seq<Bytes>, rest: Bytes, error: Option<ParseError>)

  /** What stands at the front of the buffer. */
  datatype Front = Short | Bad(error: ParseError) | Frame(payload: Bytes, left: Bytes)

  function Look(b: Bytes): (front: Front)
    ensures front.Frame? ==> |front.left| < |b|
  {
    if |b| < HEADER then Short
    else
      var length := Decode32(b);
      if length == 0 then Bad(EmptyPayload)
      else if MAX_FRAME_LEN < length then Bad(PayloadTooLarge)
      else if |b| < HEADER + length then Short
      else Frame(b[HEADER..HEADER + length], b[HEADER + length..])
  }

  /** What the parser makes of a frame at the front, whatever follows: it reads payloads of 1
      byte to 16 MiB, and refuses empty and larger ones as such. */
  lemma FrameAtFront(payload: Bytes, frame: Bytes, more: Bytes)
    requires EncodeFrame(payload) == Some(frame)
    ensures Look(frame + more) ==
            if payload == [] then Bad(EmptyPayload)
            else if MAX_FRAME_LEN < |payload| then Bad(PayloadTooLarge)
            else Frame(payload, more)
  {
    assert frame + more == Encode32(|payload|) + (payload + more);
    Decode32Encode32(|payload|, payload + more);
  }

  /** All that can be parsed from the front of `b`. */
  function Parse(accepts: Bytes -> bool, b: Bytes): Parsed {
    match Look(b)
    case Short => Parsed([], b, None)
    case Bad(error) => Parsed([], b, Some(error))
    case Frame(payload, left) =>
      if !accepts(payload) then Parsed([], left, Some(BadPayload)) else After([payload], Parse(accepts, left))
  }

  function After(earlier: seq<Bytes>, more: Parsed): Parsed {
    more.(messages := earlier + more.messages)
  }

  lemma AfterAfter(a: seq<Bytes>, b: seq<Bytes>, more: Parsed)
    ensures After(a, After(b, more)) == After(a + b, more)
    ensures After([], more) == more
  {}

  class FrameParser {
    const accepts: Bytes -> bool
    var buffer: Bytes

    constructor (accepts: Bytes -> bool)
      ensures this.accepts == accepts && buffer == []
    {
      this.accepts, buffer := accepts, [];
    }

    /** A throw loses the messages this call has parsed, not the bytes behind them. */
    method Push(chunk: Bytes) returns (result: Result<seq<Bytes>, ParseError>)
      modifies this
      ensures var parsed := Parse(accepts, old(buffer) + chunk);
              && buffer == parsed.rest
              && result == match parsed.error case None => Ok(parsed.messages) case Some(e) => Err(e)
    {
      buffer := buffer + chunk;
      ghost var all := Parse(accepts, buffer);
      var messages := [];
      AfterAfter([], [], all);
      while HEADER <= |buffer|
        invariant After(messages, Parse(accepts, buffer)) == all
        decreases |buffer|
      {
        var length := Decode32(buffer);
        if length == 0 { return Err(EmptyPayload); }
        if length > MAX_FRAME_LEN { return Err(PayloadTooLarge); }
        if |buffer| < HEADER + length { break; }
        var payload := buffer[HEADER..HEADER + length];
        assert Look(buffer) == Frame(payload, buffer[HEADER + length..]);
        buffer := buffer[HEADER + length..];
        if !accepts(payload) { return Err(BadPayload); }
        AfterAfter(messages, [payload], Parse(accepts, buffer));
        messages := messages + [payload];
      }
      assert messages + [] == messages;
      return Ok(messages);
    }

    /** The `data` handler over a whole stream: a parse error destroys the socket,
        so later chunks are never read. */
    method Feed(chunks: seq<Bytes>) returns (delivered: seq<Bytes>, alive: bool)
      requires buffer == []
      modifies this
      ensures Fed(accepts, chunks, delivered, alive, buffer)
    {
      delivered := [];
      var i := 0;
      while i < |chunks|
        invariant 0 <= i <= |chunks|
        invariant Parse(accepts, Concat(chunks[..i])) == Parsed(delivered, buffer, None)
        invariant NoneBad(accepts, chunks, i)
      {
        NextChunk(accepts, chunks, i, delivered, buffer);
        var result := Push(chunks[i]);
        if result.Err? {
          return delivered, false;
        }
        delivered := delivered + result.value;
        i := i + 1;
      }
      assert chunks[..i] == chunks;
      alive := true;
    }
  }

  function Concat(chunks: seq<Bytes>): Bytes {
    if chunks == [] then [] else Concat(chunks[..|chunks| - 1]) + chunks[|chunks| - 1]
  }

  lemma ConcatNext(chunks: seq<Bytes>, i: nat)
    requires i < |chunks|
    ensures Concat(chunks[..i + 1]) == Concat(chunks[..i]) + chunks[i]
  {
    assert chunks[..i + 1][..i] == chunks[..i];
  }

  lemma NextChunk(accepts: Bytes -> bool, chunks: seq<Bytes>, i: nat, delivered: seq<Bytes>, buffer: Bytes)
    requires i < |chunks| && NoneBad(accepts, chunks, i)
    requires Parse(accepts, Concat(chunks[..i])) == Parsed(delivered, buffer, None)
    ensures var next := Parse(accepts, buffer + chunks[i]);
            && Parse(accepts, Concat(chunks[..i + 1])) == Parsed(delivered + next.messages, next.rest, next.error)
            && if next.error.Some? then DiesAt(accepts, chunks, i) else NoneBad(accepts, chunks, i + 1)
  {
    ConcatNext(chunks, i);
    ParseContinues(accepts, Concat(chunks[..i]), chunks[i]);
  }

  /** What a stream in chunks comes to: all of it is parsed, or it is cut before the
      first chunk that brings a malformed frame into view. */
  ghost predicate Fed(accepts: Bytes -> bool, chunks: seq<Bytes>, delivered: seq<Bytes>, alive: bool, buffer: Bytes) {
    if alive then Parse(accepts, Concat(chunks)) == Parsed(delivered, buffer, None)
    else exists k ::
           && 0 <= k < |chunks| && DiesAt(accepts, chunks, k)
           && delivered == Parse(accepts, Concat(chunks[..k])).messages
  }

  /** Chunk `k` is the first that brings a malformed frame into view. */
  predicate DiesAt(accepts: Bytes -> bool, chunks: seq<Bytes>, k: nat)
    requires k < |chunks|
  {
    Parse(accepts, Concat(chunks[..k + 1])).error.Some? && NoneBad(accepts, chunks, k)
  }

  /** The first `n` chunks, and any fewer, show no malformed frame. */
  predicate NoneBad(accepts: Bytes -> bool, chunks: seq<Bytes>, n: nat)
    requires n <= |chunks|
  {
    forall i :: 0 <= i <= n ==> Parse(accepts, Concat(chunks[..i])).error == None
  }

  lemma MoreBytesSameFront(b: Bytes, more: Bytes)
    ensures match Look(b)
            case Short => true
            case Bad(error) => Look(b + more) == Bad(error)
            case Frame(payload, left) => Look(b + more) == Frame(payload, left + more)
  {}

  /** Parsing may stop anywhere and go on when more bytes come. */
  lemma {:induction false} ParseContinues(accepts: Bytes -> bool, b: Bytes, more: Bytes)
    requires Parse(accepts, b).error == None
    ensures var first := Parse(accepts, b);
            Parse(accepts, b + more) == After(first.messages, Parse(accepts, first.rest + more))
    decreases |b|
  {
    MoreBytesSameFront(b, more);
    match Look(b) {
      case Short => AfterAfter([], [], Parse(accepts, b + more));
      case Frame(payload, left) =>
        ParseContinues(accepts, left, more);
        var first := Parse(accepts, left);
        AfterAfter([payload], first.messages, Parse(accepts, first.rest + more));
    }
  }

  // ---------- any stream, any split

  predicate Sendable(accepts: Bytes -> bool, message: Bytes) {
    1 <= |message| <= MAX_FRAME_LEN && accepts(message)
  }

  predicate AllSendable(accepts: Bytes -> bool, messages: seq<Bytes>) {
    forall i :: 0 <= i < |messages| ==> Sendable(accepts, messages[i])
  }

  function Stream(messages: seq<Bytes>): Bytes {
    if messages == [] then []
    else (match EncodeFrame(messages[0]) case Some(frame) => frame case None => []) + Stream(messages[1..])
  }

  lemma StreamOfMore(messages: seq<Bytes>, tail: Bytes)
    requires messages != [] && |messages[0]| <= MAX_FRAME_LEN
    ensures Stream(messages) + tail == Encode32(|messages[0]|) + messages[0] + (Stream(messages[1..]) + tail)
  {}

  lemma {:induction false} StreamParses(accepts: Bytes -> bool, messages: seq<Bytes>, tail: Bytes)
    requires AllSendable(accepts, messages)
    ensures Parse(accepts, Stream(messages) + tail) == After(messages, Parse(accepts, tail))
  {
    if messages == [] {
      assert Stream(messages) + tail == tail;
      AfterAfter([], [], Parse(accepts, tail));
    } else {
      var m, others := messages[0], messages[1..];
      assert Sendable(accepts, m);
      StreamParses(accepts, others, tail);
      StreamOfMore(messages, tail);
      FrontFrame(accepts, m, Stream(others) + tail);
      AfterAfter([m], others, Parse(accepts, tail));
      assert [m] + others == messages;
    }
  }

  lemma FrontFrame(accepts: Bytes -> bool, m: Bytes, rest: Bytes)
    requires Sendable(accepts, m)
    ensures Parse(accepts, Encode32(|m|) + m + rest) == After([m], Parse(accepts, rest))
  {}

  /** An error once in view never goes away, and the messages before it stay a prefix. */
  lemma {:induction false} ErrorsStay(accepts: Bytes -> bool, b: Bytes, more: Bytes)
    ensures Parse(accepts, b).error.Some? ==> Parse(accepts, b + more).error == Parse(accepts, b).error
    ensures Parse(accepts, b).messages <= Parse(accepts, b + more).messages
    decreases |b|
  {
    MoreBytesSameFront(b, more);
    match Look(b) {
      case Frame(_, left) => ErrorsStay(accepts, left, more);
      case _ =>
    }
  }

  lemma {:induction false} PrefixParsesLess(accepts: Bytes -> bool, chunks: seq<Bytes>, k: nat)
    requires k <= |chunks|
    ensures Parse(accepts, Concat(chunks[..k])).messages <= Parse(accepts, Concat(chunks)).messages
    ensures Parse(accepts, Concat(chunks[..k])).error.Some? ==> Parse(accepts, Concat(chunks)).error.Some?
    decreases |chunks|
  {
    if k < |chunks| {
      var init := chunks[..|chunks| - 1];
      ErrorsStay(accepts, Concat(init), chunks[|chunks| - 1]);
      PrefixParsesLess(accepts, init, k);
      assert init[..k] == chunks[..k];
    } else {
      assert chunks[..k] == chunks;
    }
  }

  /** However the frames of sendable messages are cut into chunks, exactly those
      messages arrive and nothing is left over. */
  lemma GoodStreamArrives(accepts: Bytes -> bool, messages: seq<Bytes>, chunks: seq<Bytes>, delivered: seq<Bytes>,
                          alive: bool, buffer: Bytes)
    requires AllSendable(accepts, messages) && Concat(chunks) == Stream(messages)
    requires Fed(accepts, chunks, delivered, alive, buffer)
    ensures alive && delivered == messages && buffer == []
  {
    StreamParses(accepts, messages, []);
    assert Stream(messages) + [] == Stream(messages) && messages + [] == messages;
    LivesWithoutError(accepts, chunks, delivered, alive, buffer);
  }

  lemma LivesWithoutError(accepts: Bytes -> bool, chunks: seq<Bytes>, delivered: seq<Bytes>, alive: bool, buffer: Bytes)
    requires Fed(accepts, chunks, delivered, alive, buffer)
    ensures alive <==> Parse(accepts, Concat(chunks)).error == None
  {
    if !alive {
      var k :| 0 <= k < |chunks| && DiesAt(accepts, chunks, k);
      PrefixParsesLess(accepts, chunks, k + 1);
    }
  }

  /** Behind a malformed frame the stream dies, and what was delivered is a prefix
      of the messages in front of it: the rest of their last chunk is lost. */
  lemma BadFrameCutsTheStream(accepts: Bytes -> bool, messages: seq<Bytes>, tail: Bytes, chunks: seq<Bytes>,
                              delivered: seq<Bytes>, alive: bool, buffer: Bytes)
    requires AllSendable(accepts, messages) && Concat(chunks) == Stream(messages) + tail
    requires Look(tail).Bad? || (Look(tail).Frame? && !accepts(Look(tail).payload))
    requires Fed(accepts, chunks, delivered, alive, buffer)
    ensures !alive && delivered <= messages
  {
    StreamParses(accepts, messages, tail);
    assert Parse(accepts, Concat(chunks)).messages == messages + [];
    if !alive {
      var k :| 0 <= k < |chunks| && DiesAt(accepts, chunks, k) &&
          delivered == Parse(accepts, Concat(chunks[..k])).messages;
      PrefixParsesLess(accepts, chunks, k);
    }
  }
}
