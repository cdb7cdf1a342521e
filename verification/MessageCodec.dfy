/**
 * Messages over frames. The value codec is a parameter: encode yields the payload bytes of a valid
 * message (None when it is rejected), decode yields the message of a valid payload.
 */
module MessageCodec {
  import opened Common
  import opened FramingSpec
  import opened FrameDecoding

  type Decode<!T> = Bytes -> Option<T>
  type Encode<!T> = T -> Option<Bytes>

  datatype CodecError = InvalidMessage | InvalidFrame | DecoderHasFailed

  /** Decoding undoes encoding on every message the encoder accepts. */
  ghost predicate Inverse<T(!new)>(encode: Encode<T>, decode: Decode<T>) {
    forall m :: encode(m).Some? ==> decode(encode(m).value) == Some(m)
  }

  /** All payloads decoded, or None as soon as one is rejected. */
  function DecodeEach<T>(payloads: seq<Bytes>, decode: Decode<T>): Option<seq<T>> {
    if payloads == [] then Some([])
    else
      var init := DecodeEach(payloads[..|payloads| - 1], decode);
      var last := decode(payloads[|payloads| - 1]);
      if init.None? || last.None? then None else Some(init.value + [last.value])
  }

  lemma {:induction false} DecodeEachAppend<T>(a: seq<Bytes>, b: seq<Bytes>, decode: Decode<T>)
    ensures DecodeEach(a + b, decode) ==
            var (x, y) := (DecodeEach(a, decode), DecodeEach(b, decode));
            if x.None? || y.None? then None else Some(x.value + y.value)
  {
    if b == [] {
      assert a + b == a;
      assert DecodeEach(a, decode).Some? ==> DecodeEach(a, decode).value + [] == DecodeEach(a, decode).value;
    } else {
      var init := b[..|b| - 1];
      assert (a + b)[..|a + b| - 1] == a + init;
      DecodeEachAppend(a, init, decode);
      var (x, y, z) := (DecodeEach(a, decode), DecodeEach(init, decode), decode(b[|b| - 1]));
      if x.Some? && y.Some? && z.Some? {
        assert x.value + y.value + [z.value] == x.value + (y.value + [z.value]);
      }
    }
  }

  lemma {:induction false} DecodeEachEncoded<T(!new)>(messages: seq<T>, payloads: seq<Bytes>, encode: Encode<T>,
                                                      decode: Decode<T>)
    requires Inverse(encode, decode) && |messages| == |payloads|
    requires forall i :: 0 <= i < |messages| ==> encode(messages[i]) == Some(payloads[i])
    ensures DecodeEach(payloads, decode) == Some(messages)
  {
    if messages != [] {
      var n := |messages| - 1;
      DecodeEachEncoded(messages[..n], payloads[..n], encode, decode);
      assert encode(messages[n]).Some?;
      assert messages == messages[..n] + [messages[n]];
    }
  }

  /** What the consumer of a message decoder has received; pending is None once the decoder is locked. */
  datatype MessageStream<T> = MessageStream(delivered: seq<T>, pending: Option<Bytes>)

  function PushMessages<T>(s: MessageStream<T>, chunk: Bytes, max: nat, decode: Decode<T>): MessageStream<T> {
    if s.pending.None? then s
    else
      match Parse(s.pending.value + chunk, max)
      case TooLarge => s.(pending := None)
      case Parsed(frames, rest) =>
        match DecodeEach(frames, decode)
        case None => s.(pending := None)
        case Some(messages) => MessageStream(s.delivered + messages, Some(rest))
  }

  function PushAllMessages<T>(chunks: seq<Bytes>, max: nat, decode: Decode<T>): MessageStream<T> {
    if chunks == [] then MessageStream([], Some([]))
    else PushMessages(PushAllMessages(chunks[..|chunks| - 1], max, decode), chunks[|chunks| - 1], max, decode)
  }

  /** A stream survives exactly when its bytes parse and every payload decodes, whatever the chunks. */
  lemma {:induction false} MessageChunkIndependence<T>(chunks: seq<Bytes>, max: nat, decode: Decode<T>)
    requires max <= MAX_UINT32
    ensures var parsed := Parse(Flatten(chunks), max);
            var stream := PushAllMessages(chunks, max, decode);
            if parsed.Parsed? && DecodeEach(parsed.frames, decode).Some?
            then stream == MessageStream(DecodeEach(parsed.frames, decode).value, Some(parsed.rest))
            else stream.pending.None?
  {
    if chunks != [] {
      var init, last := chunks[..|chunks| - 1], chunks[|chunks| - 1];
      FlattenLast(chunks);
      MessageChunkIndependence(init, max, decode);
      ParseInTwo(Flatten(init), last, max);
      var first := Parse(Flatten(init), max);
      if first.Parsed? {
        var second := Parse(first.rest + last, max);
        if second.Parsed? {
          DecodeEachAppend(first.frames, second.frames, decode);
        }
      }
    }
  }

  /** End to end: encoded messages come back in order however their bytes are cut. */
  lemma MessageRoundTrip<T(!new)>(messages: seq<T>, payloads: seq<Bytes>, chunks: seq<Bytes>, max: nat,
                                  encode: Encode<T>, decode: Decode<T>)
    requires max <= MAX_UINT32 && Inverse(encode, decode) && |messages| == |payloads|
    requires forall i :: 0 <= i < |messages| ==> encode(messages[i]) == Some(payloads[i]) && |payloads[i]| <= max
    requires Flatten(chunks) == Frames(payloads)
    ensures PushAllMessages(chunks, max, decode) == MessageStream(messages, Some([]))
  {
    DecodeEachEncoded(messages, payloads, encode, decode);
    assert Frames(payloads) + [] == Frames(payloads);
    ParseIsTheDecomposition(Frames(payloads), max, payloads, []);
    MessageChunkIndependence(chunks, max, decode);
  }

  method EncodeMessage<T>(message: T, max: nat, encode: Encode<T>) returns (r: Result<array<Byte>, CodecError>)
    requires max <= MAX_UINT32
    ensures r.Ok? <==> encode(message).Some? && |encode(message).value| <= max
    ensures r.Ok? ==> fresh(r.value) && r.value[..] == Frame(encode(message).value)
  {
    var payload := encode(message);
    if payload.None? || |payload.value| > max {
      return Err(InvalidMessage);
    }
    var frame := EncodeFrame(payload.value);
    var error := AssertCompleteFrame(frame.value[..], max);
    assert IsOneFrame(frame.value[..], max);
    return if error.Some? then Err(InvalidMessage) else Ok(frame.value);
  }

  class MessageDecoder<T> {
    const frames: FrameDecoder
    const decode: Decode<T>
    var failed: bool

    ghost predicate Valid()
      reads this, frames, frames.Repr
    {
      this !in frames.Repr && frames.Valid() && (!failed ==> frames.state != HasFailed)
    }

    constructor (maxFrameLength: nat, decode: Decode<T>)
      requires maxFrameLength <= MAX_UINT32
      ensures Valid() && fresh(frames) && fresh(frames.Repr) && !failed && frames.state == Open
      ensures frames.Pending() == [] && frames.maxFrameLength == maxFrameLength && this.decode == decode
    {
      frames := new FrameDecoder(maxFrameLength);
      this.decode := decode;
      failed := false;
    }

    /** The stream this decoder is in, given what it has delivered. */
    ghost function StreamOf(delivered: seq<T>): MessageStream<T>
      requires Valid()
      reads this, frames, frames.Repr
    {
      MessageStream(delivered, if failed then None else Some(frames.Pending()))
    }

    method Push(chunk: Bytes, ghost delivered: seq<T>) returns (r: Result<seq<T>, CodecError>)
      requires Valid()
      modifies this, frames.Repr
      ensures Valid() && fresh(frames.Repr - old(frames.Repr))
              && (frames.state == HasEnded <==> old(frames.state) == HasEnded)
      ensures old(failed) ==> r == Err(DecoderHasFailed)
      ensures r.Err? <==> failed
      ensures old(frames.state) == HasEnded ==> failed
      ensures old(frames.state) != HasEnded ==>
                StreamOf(if r.Ok? then delivered + r.value else delivered)
                == PushMessages(old(StreamOf(delivered)), chunk, frames.maxFrameLength, decode)
    {
      if failed {
        return Err(DecoderHasFailed);
      }
      var parts := frames.Push(chunk);
      if parts.Err? {
        failed := true;
        return Err(InvalidFrame);
      }
      var messages := DecodeFrames(parts.value, Parse(old(frames.Pending()) + chunk, frames.maxFrameLength).frames);
      if messages.None? {
        failed := true;
        return Err(InvalidMessage);
      }
      return Ok(messages.value);
    }

    /** The stream may end only between frames, and a decoder that has failed stays so. */
    method End() returns (error: Option<CodecError>)
      requires Valid()
      modifies this, frames.Repr
      ensures Valid() && frames.Repr <= old(frames.Repr)
      ensures old(failed) ==> error == Some(DecoderHasFailed) && failed
      ensures !old(failed) ==> (error.None? <==> old(frames.state) == Open && old(frames.Pending()) == [])
      ensures !old(failed) ==> failed == error.Some? && (error.Some? ==> error == Some(InvalidFrame))
      ensures error.None? ==> frames.state == HasEnded
    {
      if failed {
        return Some(DecoderHasFailed);
      }
      var e := frames.End();
      if e.Some? {
        failed := true;
        return Some(InvalidFrame);
      }
      return None;
    }

    method DecodeFrames(parts: seq<array<Byte>>, ghost payloads: seq<Bytes>) returns (r: Option<seq<T>>)
      requires Hold(parts, payloads)
      ensures r == DecodeEach(payloads, decode)
    {
      var messages: seq<T> := [];
      var i := 0;
      while i < |parts|
        invariant 0 <= i <= |payloads| && DecodeEach(payloads[..i], decode) == Some(messages)
      {
        var message := decode(parts[i][..]);
        assert payloads[..i + 1][..i] == payloads[..i];
        if message.None? {
          DecodeEachAppend(payloads[..i + 1], payloads[i + 1..], decode);
          assert payloads[..i + 1] + payloads[i + 1..] == payloads;
          return None;
        }
        messages := messages + [message.value];
        i := i + 1;
      }
      assert payloads[..i] == payloads;
      return Some(messages);
    }
  }
}
