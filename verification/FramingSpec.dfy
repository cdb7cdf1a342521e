/**
 * What the framing layer means on a whole byte stream, without buffers or chunks:
 * every payload is preceded by its length as four big-endian bytes.
 */
module FramingSpec {
  import opened Common

  const HEADER_LENGTH := 4
  const MAX_UINT32 := 0xffff_ffff
  const BLOCK_SIZE := 64 * 1024
  const DEFAULT_MAX_FRAME_LENGTH := 16 * 1024 * 1024

  type Byte = b: int | 0 <= b < 256
  type Bytes = seq<Byte>

  function DecodeLength(header: Bytes): (n: nat)
    requires |header| == HEADER_LENGTH
    ensures n <= MAX_UINT32
  {
    (header[0] as int) * 0x1_000_000 + (header[1] as int) * 0x1_0000 + (header[2] as int) * 0x100 + header[3]
  }

  /** The shifts store into a byte array, so each byte keeps its value modulo 256. */
  function EncodeLength(n: nat): (header: Bytes)
    ensures |header| == HEADER_LENGTH
  {
    [n / 0x1_000_000 % 256, n / 0x1_0000 % 256, n / 0x100 % 256, n % 256]
  }

  lemma DecodeEncodeLength(n: nat)
    requires n <= MAX_UINT32
    ensures DecodeLength(EncodeLength(n)) == n
  {
    var (a, b, c) := (n / 0x100, n / 0x1_0000, n / 0x1_000_000);
    assert n == 0x100 * a + n % 0x100;
    assert a / 0x100 == b && a == 0x100 * b + a % 0x100;
    assert b / 0x100 == c && b == 0x100 * c + b % 0x100;
    assert c < 0x100;
  }

  lemma EncodeDecodeLength(header: Bytes)
    requires |header| == HEADER_LENGTH
    ensures EncodeLength(DecodeLength(header)) == header
  {
    var n := DecodeLength(header);
    var a: int, b: int, c: int := header[0], header[1], header[2];
    assert n / 0x100 == a * 0x1_0000 + b * 0x100 + c;
    assert n / 0x1_0000 == a * 0x100 + b;
    assert n / 0x1_000_000 == a && a % 256 == a;
    assert (a * 0x100 + b) % 256 == b;
    assert (a * 0x1_0000 + b * 0x100 + c) % 256 == c;
  }

  function Frame(payload: Bytes): Bytes {
    EncodeLength(|payload|) + payload
  }

  function Frames(payloads: seq<Bytes>): Bytes {
    if payloads == [] then [] else Frame(payloads[0]) + Frames(payloads[1..])
  }

  ghost predicate Fits(payloads: seq<Bytes>, max: nat) {
    forall i :: 0 <= i < |payloads| ==> |payloads[i]| <= max
  }

  /** The bytes start a frame that is still allowed but has not arrived completely. */
  predicate Incomplete(bytes: Bytes, max: nat) {
    |bytes| >= HEADER_LENGTH ==>
      var n := DecodeLength(bytes[..HEADER_LENGTH]);
      n <= max && |bytes| < HEADER_LENGTH + n
  }

  /** The bytes start with a complete header that announces more than the limit. */
  predicate OverLimit(bytes: Bytes, max: nat) {
    |bytes| >= HEADER_LENGTH && DecodeLength(bytes[..HEADER_LENGTH]) > max
  }

  /** Complete frames are followed by an over-limit header. */
  ghost predicate Overflows(bytes: Bytes, max: nat) {
    exists frames, tail :: bytes == Frames(frames) + tail && Fits(frames, max) && OverLimit(tail, max)
  }

  datatype Parsed = Parsed(frames: seq<Bytes>, rest: Bytes) | TooLarge

  function Prepend(frames: seq<Bytes>, p: Parsed): Parsed {
    match p
    case Parsed(fs, rest) => Parsed(frames + fs, rest)
    case TooLarge => TooLarge
  }

  /** The reference decoder: peel frames off the front of the whole stream. */
  function Parse(bytes: Bytes, max: nat): Parsed
    decreases |bytes|
  {
    if Incomplete(bytes, max) then Parsed([], bytes)
    else if OverLimit(bytes, max) then TooLarge
    else
      var end := HEADER_LENGTH + DecodeLength(bytes[..HEADER_LENGTH]);
      Prepend([bytes[HEADER_LENGTH..end]], Parse(bytes[end..], max))
  }

  lemma PrependTwice(a: seq<Bytes>, b: seq<Bytes>, p: Parsed)
    ensures Prepend(a, Prepend(b, p)) == Prepend(a + b, p)
  {
    if p.Parsed? {
      assert a + (b + p.frames) == a + b + p.frames;
    }
  }

  lemma ParseFrame(header: Bytes, payload: Bytes, tail: Bytes, max: nat)
    requires |header| == HEADER_LENGTH && DecodeLength(header) == |payload| <= max
    ensures Parse(header + payload + tail, max) == Prepend([payload], Parse(tail, max))
  {
    var bytes := header + payload + tail;
    assert bytes[..HEADER_LENGTH] == header;
    assert bytes[HEADER_LENGTH..HEADER_LENGTH + |payload|] == payload;
    assert bytes[HEADER_LENGTH + |payload|..] == tail;
  }

  lemma ParseFirstFrame(payload: Bytes, tail: Bytes, max: nat)
    requires |payload| <= max <= MAX_UINT32
    ensures Parse(Frame(payload) + tail, max) == Prepend([payload], Parse(tail, max))
  {
    DecodeEncodeLength(|payload|);
    ParseFrame(EncodeLength(|payload|), payload, tail, max);
  }

  lemma FramesCons(payload: Bytes, payloads: seq<Bytes>, tail: Bytes)
    ensures Frames([payload] + payloads) + tail == Frame(payload) + (Frames(payloads) + tail)
  {
    assert ([payload] + payloads)[1..] == payloads;
  }

  /** Whatever follows complete frames is parsed as if it stood alone. */
  lemma {:induction false} ParseFrames(payloads: seq<Bytes>, tail: Bytes, max: nat)
    requires Fits(payloads, max) && max <= MAX_UINT32
    ensures Parse(Frames(payloads) + tail, max) == Prepend(payloads, Parse(tail, max))
  {
    if payloads == [] {
      assert Frames(payloads) + tail == tail;
    } else {
      var p, ps := payloads[0], payloads[1..];
      assert [p] + ps == payloads;
      ParseFrames(ps, tail, max);
      FramesCons(p, ps, tail);
      ParseFirstFrame(p, Frames(ps) + tail, max);
      PrependTwice([p], ps, Parse(tail, max));
    }
  }

  /** The reference decoder finds exactly the decomposition of the stream into frames and a tail. */
  lemma {:induction false} ParseIsTheDecomposition(bytes: Bytes, max: nat, frames: seq<Bytes>, rest: Bytes)
    requires max <= MAX_UINT32
    ensures Parse(bytes, max) == Parsed(frames, rest) <==>
            bytes == Frames(frames) + rest && Fits(frames, max) && Incomplete(rest, max)
  {
    if bytes == Frames(frames) + rest && Fits(frames, max) && Incomplete(rest, max) {
      ParseFrames(frames, rest, max);
    }
    if Parse(bytes, max) == Parsed(frames, rest) {
      ParseDecomposes(bytes, max);
    }
  }

  lemma SplitFrame(bytes: Bytes, max: nat) returns (payload: Bytes, tail: Bytes)
    requires !Incomplete(bytes, max) && !OverLimit(bytes, max)
    ensures bytes == Frame(payload) + tail && |payload| <= max && |tail| < |bytes|
    ensures Parse(bytes, max) == Prepend([payload], Parse(tail, max))
  {
    var header := bytes[..HEADER_LENGTH];
    var end := HEADER_LENGTH + DecodeLength(header);
    EncodeDecodeLength(header);
    payload, tail := bytes[HEADER_LENGTH..end], bytes[end..];
  }

  /** Every stream is complete frames followed by a tail; the parse fails exactly when the tail is over the limit. */
  lemma {:induction false} ParseDecomposes(bytes: Bytes, max: nat)
    requires max <= MAX_UINT32
    ensures match Parse(bytes, max)
            case Parsed(frames, rest) => bytes == Frames(frames) + rest && Fits(frames, max) && Incomplete(rest, max)
            case TooLarge => Overflows(bytes, max)
    decreases |bytes|
  {
    if Incomplete(bytes, max) {
      assert bytes == Frames([]) + bytes;
    } else if OverLimit(bytes, max) {
      assert bytes == Frames([]) + bytes && Fits([], max);
      assert Overflows(bytes, max);
    } else {
      var p, tail := SplitFrame(bytes, max);
      ParseDecomposes(tail, max);
      match Parse(tail, max)
      case Parsed(fs, rest) =>
        FramesCons(p, fs, rest);
      case TooLarge =>
        var fs, t :| tail == Frames(fs) + t && Fits(fs, max) && OverLimit(t, max);
        FramesCons(p, fs, t);
        assert Fits([p] + fs, max);
    }
  }

  /** The stream fails if and only if some over-limit header follows complete frames. */
  lemma ParseFailsExactly(bytes: Bytes, max: nat)
    requires max <= MAX_UINT32
    ensures Parse(bytes, max).TooLarge? <==> Overflows(bytes, max)
  {
    ParseDecomposes(bytes, max);
    if Overflows(bytes, max) {
      var frames, tail :| bytes == Frames(frames) + tail && Fits(frames, max) && OverLimit(tail, max);
      ParseFrames(frames, tail, max);
    }
  }

  /** Parsing may be interrupted anywhere: only the residual bytes matter for what follows. */
  lemma ParseInTwo(a: Bytes, b: Bytes, max: nat)
    requires max <= MAX_UINT32
    ensures match Parse(a, max)
            case Parsed(frames, rest) => Parse(a + b, max) == Prepend(frames, Parse(rest + b, max))
            case TooLarge => Parse(a + b, max) == TooLarge
  {
    if Parse(a, max).Parsed? {
      ResumeParse(a, b, max);
    } else {
      ParseDecomposes(a, max);
      OverflowStays(a, b, max);
      ParseFailsExactly(a + b, max);
    }
  }

  lemma OverflowStays(a: Bytes, b: Bytes, max: nat)
    requires Overflows(a, max)
    ensures Overflows(a + b, max)
  {
    var frames, tail :| a == Frames(frames) + tail && Fits(frames, max) && OverLimit(tail, max);
    assert a + b == Frames(frames) + (tail + b);
    assert (tail + b)[..HEADER_LENGTH] == tail[..HEADER_LENGTH];
    assert OverLimit(tail + b, max);
  }

  lemma ResumeParse(a: Bytes, b: Bytes, max: nat)
    requires max <= MAX_UINT32 && Parse(a, max).Parsed?
    ensures Parse(a + b, max) == Prepend(Parse(a, max).frames, Parse(Parse(a, max).rest + b, max))
  {
    ParseDecomposes(a, max);
    var Parsed(frames, rest) := Parse(a, max);
    assert a + b == Frames(frames) + (rest + b);
    ParseFrames(frames, rest + b, max);
  }

  /** What a consumer has received after pushing the chunks one by one, and where the decoder stands. */
  datatype Stream = Stream(delivered: seq<Bytes>, pending: Option<Bytes>)

  /** One push: a failing push delivers nothing, and a failed decoder stays failed. */
  function PushOne(s: Stream, chunk: Bytes, max: nat): Stream {
    match s.pending
    case None => s
    case Some(pending) =>
      match Parse(pending + chunk, max)
      case Parsed(frames, rest) => Stream(s.delivered + frames, Some(rest))
      case TooLarge => Stream(s.delivered, None)
  }

  function PushAll(chunks: seq<Bytes>, max: nat): Stream {
    if chunks == [] then Stream([], Some([]))
    else PushOne(PushAll(chunks[..|chunks| - 1], max), chunks[|chunks| - 1], max)
  }

  lemma PushAllStep(chunks: seq<Bytes>, k: nat, max: nat)
    requires k < |chunks|
    ensures PushAll(chunks[..k + 1], max) == PushOne(PushAll(chunks[..k], max), chunks[k], max)
  {
    assert chunks[..k + 1][..k] == chunks[..k];
  }

  lemma FlattenLast(chunks: seq<Bytes>)
    requires chunks != []
    ensures Flatten(chunks) == Flatten(chunks[..|chunks| - 1]) + chunks[|chunks| - 1]
  {
    var last := chunks[|chunks| - 1];
    FlattenAppend(chunks[..|chunks| - 1], [last]);
    assert chunks == chunks[..|chunks| - 1] + [last];
    assert Flatten([last]) == last;
  }

  /** Chunk independence: on a stream that does not fail, only the concatenated bytes matter. */
  lemma {:induction false} ChunkIndependence(chunks: seq<Bytes>, max: nat)
    requires max <= MAX_UINT32
    ensures match Parse(Flatten(chunks), max)
            case Parsed(frames, rest) => PushAll(chunks, max) == Stream(frames, Some(rest))
            case TooLarge => PushAll(chunks, max).pending == None
  {
    if chunks != [] {
      var init, last := chunks[..|chunks| - 1], chunks[|chunks| - 1];
      FlattenLast(chunks);
      ChunkIndependence(init, max);
      ParseInTwo(Flatten(init), last, max);
    }
  }

  /** The push that fails is the one that completes the first over-limit header, and it delivers nothing. */
  lemma FailingPush(chunks: seq<Bytes>, last: Bytes, max: nat)
    requires max <= MAX_UINT32
    ensures PushAll(chunks, max).pending.Some? && PushAll(chunks + [last], max).pending.None? <==>
            !Parse(Flatten(chunks), max).TooLarge? && Parse(Flatten(chunks) + last, max).TooLarge?
    ensures PushAll(chunks + [last], max).pending.None? ==>
            PushAll(chunks + [last], max).delivered == PushAll(chunks, max).delivered
  {
    ChunkIndependence(chunks, max);
    ChunkIndependence(chunks + [last], max);
    FlattenLast(chunks + [last]);
    assert (chunks + [last])[..|chunks|] == chunks;
  }

  /** Round trip: however the encoded frames are cut, the payloads come back and nothing is left over. */
  lemma RoundTrip(payloads: seq<Bytes>, chunks: seq<Bytes>, max: nat)
    requires max <= MAX_UINT32 && Fits(payloads, max)
    requires Flatten(chunks) == Frames(payloads)
    ensures PushAll(chunks, max) == Stream(payloads, Some([]))
  {
    assert Frames(payloads) + [] == Frames(payloads);
    ParseIsTheDecomposition(Frames(payloads), max, payloads, []);
    ChunkIndependence(chunks, max);
  }
}
