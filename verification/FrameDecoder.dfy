/** The incremental decoder: a header buffer and payload blocks filled in place. */
module FrameDecoding {
  import opened Common
  import opened FramingSpec

  datatype FrameError = Ended | Failed | Oversized(length: nat) | Truncated | NoHeader | NotOneFrame

  datatype DecoderState = Open | HasEnded | HasFailed

  function ResolveMaxFrameLength(option: Option<int>): (r: Option<nat>)
    ensures r.Some? <==> option.None? || 0 <= option.value <= MAX_UINT32
    ensures r.Some? ==> r.value == if option.None? then DEFAULT_MAX_FRAME_LENGTH else option.value
  {
    var value := if option.None? then DEFAULT_MAX_FRAME_LENGTH else option.value;
    if value < 0 || value > MAX_UINT32 then None else Some(value)
  }

  method EncodeFrame(payload: Bytes) returns (r: Result<array<Byte>, FrameError>)
    ensures |payload| > MAX_UINT32 <==> r.Err?
    ensures r.Ok? ==> fresh(r.value) && r.value[..] == Frame(payload)
  {
    if |payload| > MAX_UINT32 {
      return Err(Oversized(|payload|));
    }
    var frame := new Byte[HEADER_LENGTH + |payload|];
    var length := |payload|;
    frame[0], frame[1] := length / 0x1_000_000 % 256, length / 0x1_0000 % 256;
    frame[2], frame[3] := length / 0x100 % 256, length % 256;
    forall i | 0 <= i < length {
      frame[HEADER_LENGTH + i] := payload[i];
    }
    return Ok(frame);
  }

  ghost predicate IsOneFrame(bytes: Bytes, max: nat) {
    exists payload: Bytes :: |payload| <= max && bytes == Frame(payload)
  }

  lemma OneFrameExactly(bytes: Bytes, max: nat)
    requires max <= MAX_UINT32 && |bytes| >= HEADER_LENGTH
    ensures IsOneFrame(bytes, max) <==>
            var length := DecodeLength(bytes[..HEADER_LENGTH]);
            length <= max && |bytes| == HEADER_LENGTH + length
  {
    var header, body := bytes[..HEADER_LENGTH], bytes[HEADER_LENGTH..];
    EncodeDecodeLength(header);
    assert bytes == header + body;
    if IsOneFrame(bytes, max) {
      var payload: Bytes :| |payload| <= max && bytes == Frame(payload);
      DecodeEncodeLength(|payload|);
      assert header == EncodeLength(|payload|);
    } else if |bytes| == HEADER_LENGTH + DecodeLength(header) {
      assert bytes == Frame(body);
    }
  }

  method AssertCompleteFrame(frame: Bytes, max: nat) returns (error: Option<FrameError>)
    requires max <= MAX_UINT32
    ensures error.None? <==> IsOneFrame(frame, max)
    ensures error == Some(NoHeader) <==> |frame| < HEADER_LENGTH
    ensures |frame| >= HEADER_LENGTH ==>
              (error == Some(Oversized(DecodeLength(frame[..HEADER_LENGTH]))) <==>
               DecodeLength(frame[..HEADER_LENGTH]) > max)
    ensures error.Some? ==> error.value.NoHeader? || error.value.Oversized? || error.value.NotOneFrame?
  {
    if |frame| < HEADER_LENGTH {
      return Some(NoHeader);
    }
    OneFrameExactly(frame, max);
    var length := DecodeLength(frame[..HEADER_LENGTH]);
    if length > max {
      return Some(Oversized(length));
    }
    if |frame| != HEADER_LENGTH + length {
      return Some(NotOneFrame);
    }
    return None;
  }

  /** The size of the k-th block of a payload of the given length. */
  function BlockLength(k: nat, expected: nat): int {
    Min(BLOCK_SIZE, expected - BLOCK_SIZE * k)
  }

  function Space(blocks: seq<array<Byte>>): nat {
    if blocks == [] then 0 else Space(blocks[..|blocks| - 1]) + blocks[|blocks| - 1].Length
  }

  /** All blocks but the last hold a full 64 KiB, so the space reserved is known in closed form. */
  lemma {:induction false} SpaceReserved(blocks: seq<array<Byte>>, expected: nat)
    requires forall k :: 0 <= k < |blocks| ==> blocks[k].Length == BlockLength(k, expected) > 0
    ensures Space(blocks) == Min(BLOCK_SIZE * |blocks|, expected)
  {
    if blocks != [] {
      SpaceReserved(blocks[..|blocks| - 1], expected);
    }
  }

  /** The arrays hold these payloads, in order. */
  ghost predicate Hold(frames: seq<array<Byte>>, payloads: seq<Bytes>)
    reads frames
  {
    |frames| == |payloads| && forall i :: 0 <= i < |frames| ==> frames[i][..] == payloads[i]
  }

  class FrameDecoder {
    const header: array<Byte>
    const maxFrameLength: nat
    var headerLength: nat
    var payloadBlocks: seq<array<Byte>>
    var currentPayloadBlock: array?<Byte>
    var currentPayloadBlockLength: nat
    var expectedPayloadLength: Option<nat>
    var payloadLength: nat
    var state: DecoderState
    /** The payload bytes of the unfinished frame, in order. */
    ghost var received: Bytes

    /** The objects the decoder may still write to. */
    ghost var Repr: set<object>

    /** The blocks hold the received bytes: all but the last are full, and none is larger than needed. */
    ghost predicate Filled(expected: nat)
      reads this, payloadBlocks
    {
      var n := |payloadBlocks|;
      && |received| == payloadLength <= expected
      && (n == 0 ==> currentPayloadBlock == null && currentPayloadBlockLength == 0 && payloadLength == 0)
      && (n > 0 ==>
            && currentPayloadBlock == payloadBlocks[n - 1]
            && 0 < currentPayloadBlockLength <= payloadBlocks[n - 1].Length
            && payloadLength == BLOCK_SIZE * (n - 1) + currentPayloadBlockLength)
      && (forall k :: 0 <= k < n ==> payloadBlocks[k].Length == BlockLength(k, expected) > 0)
      && (forall k, j :: 0 <= k < n && 0 <= j < payloadBlocks[k].Length && BLOCK_SIZE * k + j < payloadLength ==>
            payloadBlocks[k][j] == received[BLOCK_SIZE * k + j])
    }

    ghost predicate Shape()
      reads this, Repr
    {
      && this in Repr && header in Repr && (forall b <- payloadBlocks :: b in Repr)
      && header.Length == HEADER_LENGTH
      && maxFrameLength <= MAX_UINT32
      && (forall k :: 0 <= k < |payloadBlocks| ==> payloadBlocks[k] != header)
      && (forall k, l :: 0 <= k < l < |payloadBlocks| ==> payloadBlocks[k] != payloadBlocks[l])
      && match expectedPayloadLength
         case None =>
           && payloadBlocks == [] && currentPayloadBlock == null && currentPayloadBlockLength == 0
           && payloadLength == 0 && received == [] && headerLength < HEADER_LENGTH
           && (state != Open ==> headerLength == 0)
         case Some(expected) =>
           && state == Open && headerLength == 0
           && 0 < expected <= maxFrameLength && DecodeLength(header[..]) == expected
           && Filled(expected)
    }

    ghost predicate Valid()
      reads this, Repr
    {
      Shape() && (expectedPayloadLength.Some? ==> payloadLength < expectedPayloadLength.value)
    }

    /** The bytes of the stream that belong to no finished frame. */
    ghost function Pending(): Bytes
      requires header.Length == HEADER_LENGTH && headerLength <= HEADER_LENGTH
      reads this, header
    {
      if expectedPayloadLength.None? then header[..headerLength] else header[..] + received
    }

    constructor (maxFrameLength: nat)
      requires maxFrameLength <= MAX_UINT32
      ensures Valid() && fresh(Repr) && state == Open && Pending() == [] && this.maxFrameLength == maxFrameLength
    {
      header := new Byte[HEADER_LENGTH];
      this.maxFrameLength := maxFrameLength;
      headerLength, payloadBlocks, currentPayloadBlock, currentPayloadBlockLength := 0, [], null, 0;
      expectedPayloadLength, payloadLength, state, received := None, 0, Open, [];
      Repr := {this, header};
    }

    method Push(chunk: Bytes) returns (r: Result<seq<array<Byte>>, FrameError>)
      requires Valid()
      modifies Repr
      ensures Valid() && fresh(Repr - old(Repr))
      ensures old(state) == HasEnded ==> r == Err(Ended) && state == HasEnded && Pending() == old(Pending())
      ensures old(state) == HasFailed ==> r == Err(Failed) && state == HasFailed && Pending() == old(Pending())
      ensures old(state) == Open ==>
        match Parse(old(Pending()) + chunk, maxFrameLength)
        case Parsed(frames, rest) =>
          r.Ok? && Hold(r.value, frames) && Pending() == rest && state == Open
        case TooLarge => r.Err? && r.error.Oversized? && r.error.length > maxFrameLength && state == HasFailed
      // A returned payload is never written again: it is no longer part of the decoder.
      ensures r.Ok? ==> forall f <- r.value :: f !in Repr
    {
      if state == HasEnded {
        return Err(Ended);
      }
      if state == HasFailed {
        return Err(Failed);
      }
      r := PushOpen(chunk);
    }

    method PushOpen(chunk: Bytes) returns (r: Result<seq<array<Byte>>, FrameError>)
      requires Valid() && state == Open
      modifies Repr
      ensures Valid() && fresh(Repr - old(Repr))
      ensures match Parse(old(Pending()) + chunk, maxFrameLength)
              case Parsed(frames, rest) => r.Ok? && Hold(r.value, frames) && Pending() == rest && state == Open
              case TooLarge => r.Err? && r.error.Oversized? && r.error.length > maxFrameLength && state == HasFailed
      ensures r.Ok? ==> forall f <- r.value :: f !in Repr
    {
      var frames: seq<array<Byte>> := [];
      var offset := 0;
      ghost var done: seq<Bytes>, target := [], Parse(Pending() + chunk, maxFrameLength);
      assert chunk[0..] == chunk && Prepend([], target) == target;
      hide Parse, Prepend, Incomplete;
      while offset < |chunk|
        invariant Valid() && state == Open && fresh(Repr - old(Repr)) && offset <= |chunk|
        invariant forall f <- frames :: f !in Repr
        invariant Hold(frames, done)
        invariant Prepend(done, Parse(Pending() + chunk[offset..], maxFrameLength)) == target
      {
        var next, frame, error := PushStep(chunk, offset);
        if error.Some? {
          return Err(error.value);
        }
        offset := next;
        if frame != null {
          PrependTwice(done, [frame[..]], Parse(Pending() + chunk[offset..], maxFrameLength));
          frames, done := frames + [frame], done + [frame[..]];
        }
      }
      assert Pending() + chunk[offset..] == Pending();
      PendingIsIncomplete(done);
      return Ok(frames);
    }

    /**
     * Between pushes every block but the last is full, and the space reserved exceeds neither
     * the announced length nor the received payload bytes plus 65535.
     */
    lemma AllocationBound()
      requires Valid() && expectedPayloadLength.Some?
      ensures forall k :: 0 <= k < |payloadBlocks| - 1 ==>
        payloadBlocks[k].Length == BLOCK_SIZE && payloadBlocks[k][..] == received[BLOCK_SIZE * k..BLOCK_SIZE * (k + 1)]
      ensures Space(payloadBlocks) <= expectedPayloadLength.value
      ensures Space(payloadBlocks) <= |received| + (BLOCK_SIZE - 1)
    {
      SpaceReserved(payloadBlocks, expectedPayloadLength.value);
      forall k | 0 <= k < |payloadBlocks| - 1
        ensures payloadBlocks[k].Length == BLOCK_SIZE
        ensures payloadBlocks[k][..] == received[BLOCK_SIZE * k..BLOCK_SIZE * (k + 1)]
      {
        assert payloadBlocks[k + 1].Length > 0;
      }
    }

    /** One round of the outer loop. */
    method PushStep(chunk: Bytes, offset: nat)
      returns (next: nat, frame: array?<Byte>, error: Option<FrameError>)
      requires Valid() && state == Open && offset < |chunk|
      modifies Repr
      ensures Valid() && fresh(Repr - old(Repr)) && offset < next <= |chunk|
      ensures var input := Parse(old(Pending()) + chunk[offset..], maxFrameLength);
              var remaining := Parse(Pending() + chunk[next..], maxFrameLength);
              match error
              case Some(e) => input == TooLarge && e.Oversized? && e.length > maxFrameLength && state == HasFailed
              case None =>
                && state == Open
                && if frame == null then remaining == input
                   else frame !in Repr && input == Prepend([frame[..]], remaining)
    {
      next, frame, error := offset, null, None;
      if expectedPayloadLength.None? {
        next, frame, error := ReadHeader(chunk, offset);
      }
      if expectedPayloadLength.Some? {
        next, frame := ReadPayload(chunk, next);
      }
    }

    /** The header part of a push: complete it if possible, then check the length it announces. */
    method ReadHeader(chunk: Bytes, offset: nat)
      returns (next: nat, frame: array?<Byte>, error: Option<FrameError>)
      requires Valid() && state == Open && expectedPayloadLength.None? && offset < |chunk|
      modifies this, header
      ensures Valid() && Repr <= old(Repr) && offset < next <= |chunk|
      ensures var input := Parse(old(Pending()) + chunk[offset..], maxFrameLength);
              var remaining := Parse(Pending() + chunk[next..], maxFrameLength);
              match error
              case Some(e) =>
                input == TooLarge && e.Oversized? && e.length > maxFrameLength && state == HasFailed && frame == null
              case None =>
                && state == Open
                && if frame == null then remaining == input
                   else
                     && fresh(frame) && expectedPayloadLength.None?
                     && input == Prepend([frame[..]], remaining)
    {
      ghost var bytes := Pending() + chunk[offset..];
      frame, error := null, None;
      ghost var before := Pending();
      next := FillHeader(chunk, offset);
      assert bytes == before + chunk[offset..next] + chunk[next..];
      if headerLength < HEADER_LENGTH {
        return;
      }
      var frameLength := DecodeLength(header[..]);
      headerLength := 0;
      assert bytes == header[..] + chunk[next..];
      if frameLength > maxFrameLength {
        OversizedFrame(header[..], chunk[next..]);
        Fail();
        error := Some(Oversized(frameLength));
      } else if frameLength == 0 {
        frame := new Byte[0];
        assert frame[..] == [];
        EmptyFrame(header[..], chunk[next..]);
        assert Pending() + chunk[next..] == chunk[next..];
      } else {
        expectedPayloadLength := Some(frameLength);
        payloadBlocks, currentPayloadBlock, currentPayloadBlockLength, payloadLength := [], null, 0, 0;
        assert Pending() + chunk[next..] == bytes;
      }
    }

    /** The payload part of a push: fill blocks until the chunk or the frame is used up. */
    method ReadPayload(chunk: Bytes, offset: nat) returns (next: nat, frame: array?<Byte>)
      requires Valid() && state == Open && expectedPayloadLength.Some? && offset <= |chunk|
      modifies Repr
      ensures Valid() && state == Open && fresh(Repr - old(Repr))
      ensures offset <= next <= |chunk| && (offset < |chunk| ==> offset < next)
      ensures var input := Parse(old(Pending()) + chunk[offset..], maxFrameLength);
              var remaining := Parse(Pending() + chunk[next..], maxFrameLength);
              if frame == null then remaining == input
              else
                && frame !in Repr
                && input == Prepend([frame[..]], remaining)
    {
      ghost var head, held := header[..], received;
      frame := null;
      hide Parse, Prepend;
      next := FillBlocks(chunk, offset);
      Carry(head, held, chunk, offset, next);
      if payloadLength == expectedPayloadLength.value {
        ghost var payload := received;
        frame := TakePayload();
        ParseFrame(header[..], payload, chunk[next..], maxFrameLength);
        assert Pending() + chunk[next..] == chunk[next..];
      }
    }

    lemma Carry(head: Bytes, held: Bytes, chunk: Bytes, offset: nat, next: nat)
      requires offset <= next <= |chunk|
      ensures head + held + chunk[offset..] == head + (held + chunk[offset..next]) + chunk[next..]
    {
    }

    method FillBlocks(chunk: Bytes, offset: nat) returns (next: nat)
      requires Valid() && state == Open && expectedPayloadLength.Some? && offset <= |chunk|
      modifies Repr
      ensures Shape() && state == Open && fresh(Repr - old(Repr))
      ensures expectedPayloadLength == old(expectedPayloadLength) && header[..] == old(header[..])
      ensures offset <= next <= |chunk| && (offset < |chunk| ==> offset < next)
      ensures next == |chunk| || payloadLength == expectedPayloadLength.value
      ensures received == old(received) + chunk[offset..next]
    {
      next := offset;
      var expected := expectedPayloadLength.value;
      ghost var held := received;
      while next < |chunk| && payloadLength < expected
        invariant Shape() && state == Open && fresh(Repr - old(Repr))
        invariant expectedPayloadLength == Some(expected) && header[..] == old(header[..])
        invariant offset <= next <= |chunk| && (payloadLength < expected || offset < next)
        invariant received == held + chunk[offset..next]
      {
        ghost var from := next;
        next := FillBlock(chunk, next);
        assert chunk[offset..next] == chunk[offset..from] + chunk[from..next];
      }
    }

    lemma PendingIsIncomplete(done: seq<Bytes>)
      requires Valid()
      ensures Prepend(done, Parse(Pending(), maxFrameLength)) == Parsed(done, Pending())
    {
      if expectedPayloadLength.Some? {
        assert Pending()[..HEADER_LENGTH] == header[..];
      }
    }

    lemma EmptyFrame(head: Bytes, tail: Bytes)
      requires |head| == HEADER_LENGTH && DecodeLength(head) == 0
      ensures Parse(head + tail, maxFrameLength) == Prepend([[]], Parse(tail, maxFrameLength))
    {
      assert head + [] + tail == head + tail;
      ParseFrame(head, [], tail, maxFrameLength);
    }

    lemma OversizedFrame(head: Bytes, tail: Bytes)
      requires |head| == HEADER_LENGTH && DecodeLength(head) > maxFrameLength
      ensures Parse(head + tail, maxFrameLength) == TooLarge
    {
      assert (head + tail)[..HEADER_LENGTH] == head;
    }

    /** Copies the bytes that still belong to the header. */
    method FillHeader(chunk: Bytes, offset: nat) returns (next: nat)
      requires Valid() && state == Open && expectedPayloadLength.None? && offset < |chunk|
      modifies header, this`headerLength
      ensures headerLength <= HEADER_LENGTH && offset < next <= |chunk|
      ensures headerLength < HEADER_LENGTH ==> next == |chunk|
      ensures header[..headerLength] == old(Pending()) + chunk[offset..next]
    {
      var headerBytes := Min(HEADER_LENGTH - headerLength, |chunk| - offset);
      forall i | headerLength <= i < headerLength + headerBytes {
        header[i] := chunk[offset + (i - headerLength)];
      }
      next := offset + headerBytes;
      ghost var filled := old(Pending()) + chunk[offset..next];
      headerLength := headerLength + headerBytes;
      assert forall i :: 0 <= i < headerLength ==> header[i] == filled[i];
      assert |header[..headerLength]| == |filled|;
    }

    /** Starts the next block, no larger than what the frame still needs. */
    method AddBlock()
      requires Shape() && state == Open && expectedPayloadLength.Some?
      requires payloadLength < expectedPayloadLength.value
      requires currentPayloadBlock == null || currentPayloadBlockLength == currentPayloadBlock.Length
      modifies this`payloadBlocks, this`currentPayloadBlock, this`currentPayloadBlockLength, this`Repr
      ensures |payloadBlocks| == |old(payloadBlocks)| + 1 && payloadBlocks[..|old(payloadBlocks)|] == old(payloadBlocks)
      ensures currentPayloadBlock == payloadBlocks[|payloadBlocks| - 1] && fresh(currentPayloadBlock)
      ensures currentPayloadBlockLength == 0 && Repr == old(Repr) + {currentPayloadBlock}
      ensures payloadLength == BLOCK_SIZE * (|payloadBlocks| - 1)
      ensures currentPayloadBlock.Length == BlockLength(|payloadBlocks| - 1, expectedPayloadLength.value) > 0
    {
      var expected := expectedPayloadLength.value;
      ghost var n := |payloadBlocks|;
      assert n > 0 ==> BlockLength(n - 1, expected) == currentPayloadBlockLength;
      var block := new Byte[Min(BLOCK_SIZE, expected - payloadLength)];
      payloadBlocks, Repr := payloadBlocks + [block], Repr + {block};
      currentPayloadBlock := block;
      currentPayloadBlockLength := 0;
    }

    /** One step of the payload loop: at most one new block, then one copy into the current block. */
    method FillBlock(chunk: Bytes, offset: nat) returns (next: nat)
      requires Shape() && state == Open && expectedPayloadLength.Some?
      requires offset < |chunk| && payloadLength < expectedPayloadLength.value
      modifies this, currentPayloadBlock
      ensures Shape() && state == Open && fresh(Repr - old(Repr))
      ensures expectedPayloadLength == old(expectedPayloadLength) && header[..] == old(header[..])
      ensures offset < next <= |chunk| && received == old(received) + chunk[offset..next]
    {
      if currentPayloadBlock == null || currentPayloadBlockLength == currentPayloadBlock.Length {
        AddBlock();
        assert CopyReady(expectedPayloadLength.value);
      }
      assert CopyReady(expectedPayloadLength.value);
      hide BlockLength;
      next := CopyIntoBlock(chunk, offset);
    }

    method CopyIntoBlock(chunk: Bytes, offset: nat) returns (next: nat)
      requires header.Length == HEADER_LENGTH && offset < |chunk|
      requires expectedPayloadLength.Some? && CopyReady(expectedPayloadLength.value)
      modifies this`currentPayloadBlockLength, this`payloadLength, this`received, currentPayloadBlock
      ensures Filled(expectedPayloadLength.value) && header[..] == old(header[..])
      ensures offset < next <= |chunk| && received == old(received) + chunk[offset..next]
    {
      var block := currentPayloadBlock;
      var at := currentPayloadBlockLength;
      var payloadBytes := Min(block.Length - at, |chunk| - offset);
      forall i | at <= i < at + payloadBytes {
        block[i] := chunk[offset + (i - at)];
      }
      ghost var held, n := received, |payloadBlocks|;
      currentPayloadBlockLength := at + payloadBytes;
      payloadLength := payloadLength + payloadBytes;
      next := offset + payloadBytes;
      received := received + chunk[offset..next];
      forall k, j | 0 <= k < n && 0 <= j < payloadBlocks[k].Length && BLOCK_SIZE * k + j < payloadLength
        ensures payloadBlocks[k][j] == received[BLOCK_SIZE * k + j]
      {
        if k < n - 1 {
          assert payloadBlocks[k] != block;
          assert payloadBlocks[k][j] == held[BLOCK_SIZE * k + j];
        } else if j < at {
          assert block[j] == held[BLOCK_SIZE * k + j];
        } else {
          assert block[j] == chunk[offset + (j - at)];
        }
      }
    }

    /** As Filled, but the current block may still be empty and must have room. */
    ghost predicate CopyReady(expected: nat)
      reads this, payloadBlocks
    {
      var n := |payloadBlocks|;
      && |received| == payloadLength < expected
      && n > 0 && currentPayloadBlock == payloadBlocks[n - 1] && currentPayloadBlock != header
      && currentPayloadBlockLength < payloadBlocks[n - 1].Length
      && payloadLength == BLOCK_SIZE * (n - 1) + currentPayloadBlockLength
      && (forall k :: 0 <= k < n ==> payloadBlocks[k].Length == BlockLength(k, expected) > 0)
      && (forall k :: 0 <= k < n - 1 ==> payloadBlocks[k] != currentPayloadBlock)
      && (forall k, j :: 0 <= k < n && 0 <= j < payloadBlocks[k].Length && BLOCK_SIZE * k + j < payloadLength ==>
            payloadBlocks[k][j] == received[BLOCK_SIZE * k + j])
    }

    /** Hands the finished payload over: a single block as it is, several blocks joined. */
    method TakePayload() returns (payload: array<Byte>)
      requires Shape() && expectedPayloadLength == Some(payloadLength)
      modifies this
      ensures Valid() && state == Open && expectedPayloadLength.None? && headerLength == 0
      ensures Repr <= old(Repr)
      ensures payload !in Repr
      ensures payload[..] == old(received)
    {
      if |payloadBlocks| == 1 {
        payload := payloadBlocks[0];
      } else {
        payload := JoinBlocks();
      }
      payloadBlocks, currentPayloadBlock, currentPayloadBlockLength := [], null, 0;
      expectedPayloadLength, payloadLength, received := None, 0, [];
      Repr := {this, header};
    }

    method JoinBlocks() returns (payload: array<Byte>)
      requires payloadLength > 0 && Filled(payloadLength)
      ensures fresh(payload) && payload[..] == received
    {
      payload := new Byte[payloadLength];
      var offset, k := 0, 0;
      ghost var n := |payloadBlocks|;
      while k < |payloadBlocks|
        invariant 0 <= k <= n
        invariant offset == if k < n then BLOCK_SIZE * k else payloadLength
        invariant forall i :: 0 <= i < offset ==> payload[i] == received[i]
      {
        var block := payloadBlocks[k];
        if k + 1 < n {
          assert payloadBlocks[k + 1].Length > 0;
        }
        forall j | 0 <= j < block.Length {
          payload[offset + j] := block[j];
        }
        assert forall j :: 0 <= j < block.Length ==> payload[offset + j] == payloadBlocks[k][j] == received[offset + j];
        ghost var from := offset;
        offset := offset + block.Length;
        forall i | from <= i < offset ensures payload[i] == received[i] {
          assert payload[from + (i - from)] == received[from + (i - from)];
        }
        k := k + 1;
      }
    }

    method End() returns (error: Option<FrameError>)
      requires Valid()
      modifies this
      ensures Valid() && Repr <= old(Repr)
      ensures old(state) == HasEnded ==> error == Some(Ended) && state == HasEnded
      ensures old(state) == HasFailed ==> error == Some(Failed) && state == HasFailed
      ensures old(state) == Open && old(Pending()) == [] ==> error == None && state == HasEnded
      ensures old(state) == Open && old(Pending()) != [] ==> error == Some(Truncated) && state == HasFailed
    {
      if state == HasEnded {
        return Some(Ended);
      }
      if state == HasFailed {
        return Some(Failed);
      }
      if headerLength != 0 || expectedPayloadLength.Some? {
        Fail();
        return Some(Truncated);
      }
      state := HasEnded;
      return None;
    }

    method Fail()
      modifies this
      requires header.Length == HEADER_LENGTH && maxFrameLength <= MAX_UINT32 && {this, header} <= Repr
      ensures Valid() && state == HasFailed && Pending() == [] && Repr <= old(Repr)
    {
      state, headerLength := HasFailed, 0;
      payloadBlocks, currentPayloadBlock, currentPayloadBlockLength := [], null, 0;
      expectedPayloadLength, payloadLength, received := None, 0, [];
      Repr := {this, header};
    }
  }

  /**
   * A receiver that pushes every chunk of a stream and then signals its end, as a connection does.
   * It observes what the reference decoder says of the concatenated bytes.
   */
  method Receive(chunks: seq<Bytes>, max: nat) returns (delivered: seq<array<Byte>>, clean: bool)
    requires max <= MAX_UINT32
    ensures Hold(delivered, PushAll(chunks, max).delivered)
    ensures clean <==> PushAll(chunks, max).pending == Some([])
    ensures clean ==> Parse(Flatten(chunks), max) == Parsed(PushAll(chunks, max).delivered, [])
    // However encoded frames were cut, it returns their payloads and ends cleanly.
    ensures forall payloads :: Fits(payloads, max) && Flatten(chunks) == Frames(payloads) ==>
            clean && Hold(delivered, payloads)
  {
    var decoder := new FrameDecoder(max);
    delivered := [];
    ghost var stream := Stream([], Some([]));
    var k := 0;
    while k < |chunks|
      invariant k <= |chunks| && stream == PushAll(chunks[..k], max)
      invariant InStep(decoder, max, delivered, stream) && fresh(decoder.Repr)
    {
      delivered, stream := PushInto(decoder, chunks[k], max, delivered, stream);
      PushAllStep(chunks, k, max);
      k := k + 1;
    }
    assert chunks[..k] == chunks;
    var error := decoder.End();
    clean := error.None?;
    ChunkIndependence(chunks, max);
    forall payloads | Fits(payloads, max) && Flatten(chunks) == Frames(payloads)
      ensures PushAll(chunks, max) == Stream(payloads, Some([]))
    {
      RoundTrip(payloads, chunks, max);
    }
  }

  /** The decoder stands where the reference stream stands, and owns none of what it delivered. */
  ghost predicate InStep(decoder: FrameDecoder, max: nat, delivered: seq<array<Byte>>, stream: Stream)
    reads decoder, decoder.Repr, delivered
  {
    && decoder.Valid() && decoder.maxFrameLength == max && decoder.state != HasEnded
    && Hold(delivered, stream.delivered) && (forall f <- delivered :: f !in decoder.Repr)
    && stream.pending == if decoder.state == Open then Some(decoder.Pending()) else None
  }

  method PushInto(decoder: FrameDecoder, chunk: Bytes, max: nat, delivered: seq<array<Byte>>, ghost stream: Stream)
    returns (delivered': seq<array<Byte>>, ghost stream': Stream)
    requires InStep(decoder, max, delivered, stream)
    modifies decoder.Repr
    ensures InStep(decoder, max, delivered', stream') && fresh(decoder.Repr - old(decoder.Repr))
    ensures stream' == PushOne(stream, chunk, max)
  {
    var r := decoder.Push(chunk);
    stream' := PushOne(stream, chunk, max);
    delivered' := if r.Ok? then delivered + r.value else delivered;
  }
}
