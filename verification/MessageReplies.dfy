/**
 What a server's frames are received as, field by field, compressed or not; and how a stream
 ends at one it cannot take.
 */
module MessageReplies {
  import opened Wrappers
  import opened Sequences
  import opened Bytes
  import opened Commands
  import opened MessageStreams

  // A message as a server sends it: plain, or packed by the compressor with this id.
  datatype Sent =
    | Plain(requestId: int, responseTo: int, opCode: int, body: seq<byte>)
    | Packed(requestId: int, responseTo: int, opCode: int, size: int, compressor: byte, packed: seq<byte>)

  // Its fields fit the wire.
  predicate Fits(m: Sent)
  {
    && IsInt32(m.requestId) && IsInt32(m.responseTo) && IsInt32(m.opCode)
    && match m {
      case Plain(_, _, opCode, body) => opCode != OP_COMPRESSED && 16 + |body| <= INT32_MAX
      case Packed(_, _, _, size, _, packed) => IsInt32(size) && 25 + |packed| <= INT32_MAX
    }
  }

  function Wire(m: Sent): seq<byte>
    requires Fits(m)
  {
    match m
    case Plain(requestId, responseTo, opCode, body) =>
      HeaderBytes(16 + |body|, requestId, responseTo, opCode) + body
    case Packed(requestId, responseTo, opCode, size, compressor, packed) =>
      HeaderBytes(25 + |packed|, requestId, responseTo, OP_COMPRESSED)
      + (WriteInt32LE(opCode) + WriteInt32LE(size) + [compressor] + packed)
  }

  // The body inside, if the compressor is known and the bytes unpack.
  function Unpacked(m: Sent, inflate: Codec): Option<seq<byte>>
  {
    match m
    case Plain(_, _, _, body) => Some(body)
    case Packed(_, _, _, _, compressor, packed) =>
      if compressor == 2 then inflate(packed) else if compressor < 2 then Some(packed) else None
  }

  // A message that is what it says: it unpacks to the size it declares, and an OP_MSG has its
  // flag word.
  predicate Sound(m: Sent, inflate: Codec)
  {
    && Unpacked(m, inflate).Some?
    && (m.Packed? ==> |Unpacked(m, inflate).value| == m.size)
    && (m.opCode == OP_MSG ==> |Unpacked(m, inflate).value| >= 4)
  }

  // Why a message that is not sound cannot be taken, and whether the write is told or an
  // exception leaves it hanging.
  function FaultOf(m: Sent, inflate: Codec): Delivery
    requires !Sound(m, inflate)
  {
    if m.Packed? && m.compressor > 2 then Raised(UnsupportedCompressor)
    else if Unpacked(m, inflate).None? then Failed(DecompressionFailed)
    else if m.Packed? && |Unpacked(m, inflate).value| != m.size then Failed(LengthMismatch)
    else Raised(RangeError)
  }

  lemma HeaderRead(length: int, requestId: int, responseTo: int, opCode: int, rest: seq<byte>)
    requires IsInt32(length) && IsInt32(requestId) && IsInt32(responseTo) && IsInt32(opCode)
    ensures var frame := HeaderBytes(length, requestId, responseTo, opCode) + rest;
      |frame| == 16 + |rest| && ReadHeader(frame) == MessageHeader(length, requestId, responseTo, opCode, false)
      && frame[16..] == rest
  {
    HeaderRoundTrip(length, requestId, responseTo, opCode, rest);
  }

  lemma DetailsRead(opCode: int, size: int, compressor: byte, packed: seq<byte>, header: seq<byte>)
    requires IsInt32(opCode) && IsInt32(size) && |header| == 16
    ensures var frame := header + (WriteInt32LE(opCode) + WriteInt32LE(size) + [compressor] + packed);
      && |frame| == 25 + |packed| && ReadInt32LE(frame, 16) == opCode && ReadInt32LE(frame, 20) == size
      && frame[24] == compressor && frame[25..] == packed
  {
    var frame := header + (WriteInt32LE(opCode) + WriteInt32LE(size) + [compressor] + packed);
    ReadWriteInt32(opCode, frame, 16);
    ReadWriteInt32(size, frame, 20);
  }

  // What a sound message is received as: the header has exactly the ids it was sent with, so
  // the caller finds the operation it answers, and the body is what was packed.
  predicate Received(m: Sent, inflate: Codec, message: Message)
    requires Fits(m) && Sound(m, inflate)
  {
    && message.header.requestId == m.requestId && message.header.responseTo == m.responseTo
    && message.header.opCode == m.opCode && message.header.fromCompressed == m.Packed?
    && message.header.length == (if m.Packed? then m.size else 16 + |m.body|)
    && message.body == Unpacked(m, inflate).value && message.raw == Wire(m)
    && (message.BinMessage? <==> m.opCode == OP_MSG)
  }

  // Every frame a server can send: it arrives as that message exactly when it is sound, and
  // otherwise ends the write with the fault it has.
  lemma FrameReceived(m: Sent, inflate: Codec)
    requires Fits(m)
    ensures var d := DeliverWith(inflate)(Wire(m));
      && |Wire(m)| >= 16 && ReadInt32LE(Wire(m), 0) == |Wire(m)|
      && (d.Emit? <==> Sound(m, inflate))
      && if Sound(m, inflate) then Received(m, inflate, d.message) else d == FaultOf(m, inflate)
  {
    hide HeaderBytes, WriteInt32LE, ReadInt32LE;
    match m {
      case Plain(requestId, responseTo, opCode, body) =>
        HeaderRead(16 + |body|, requestId, responseTo, opCode, body);
      case Packed(requestId, responseTo, opCode, size, compressor, packed) =>
        var details := WriteInt32LE(opCode) + WriteInt32LE(size) + [compressor] + packed;
        DetailsRead(opCode, size, compressor, packed, HeaderBytes(25 + |packed|, requestId, responseTo, OP_COMPRESSED));
        HeaderRead(25 + |packed|, requestId, responseTo, OP_COMPRESSED, details);
    }
  }

  // ----- Whole streams -----

  function Wires(ms: seq<Sent>): (frames: seq<seq<byte>>)
    requires forall m <- ms :: Fits(m)
    ensures |frames| == |ms| && forall i :: 0 <= i < |ms| ==> frames[i] == Wire(ms[i])
  {
    seq(|ms|, i requires 0 <= i < |ms| => Wire(ms[i]))
  }

  // Messages a stream with this size limit takes.
  predicate Takes(ms: seq<Sent>, inflate: Codec, max: nat)
  {
    forall m <- ms :: Fits(m) && Sound(m, inflate) && |Wire(m)| <= max
  }

  predicate AllReceived(ms: seq<Sent>, inflate: Codec, messages: seq<Message>)
    requires forall m <- ms :: Fits(m) && Sound(m, inflate)
  {
    |messages| == |ms| && forall i :: 0 <= i < |ms| ==> Received(ms[i], inflate, messages[i])
  }

  // Sound messages in front of anything are received, and then what the rest means.
  lemma ReceivedFirst(ms: seq<Sent>, tail: seq<byte>, max: nat, inflate: Codec)
    requires Takes(ms, inflate, max)
    ensures var handle := DeliverWith(inflate);
      var got, more := Receive(Flatten(Wires(ms)) + tail, max, handle), Receive(tail, max, handle);
      && |got.messages| >= |ms| && AllReceived(ms, inflate, got.messages[..|ms|])
      && got.messages[|ms|..] == more.messages && got.rest == more.rest && got.ending == more.ending
  {
    hide Wire, Received, Sound, Fits, DeliverWith, Receive;
    var handle := DeliverWith(inflate);
    forall i | 0 <= i < |ms|
      ensures Acceptable(Wires(ms)[i], max, handle) && Received(ms[i], inflate, MessageOf(Wires(ms)[i], max, handle))
    {
      assert ms[i] in ms;
      FrameReceived(ms[i], inflate);
    }
    FramesArrive(Wires(ms), tail, max, handle);
    var first := MessagesOf(Wires(ms), max, handle);
    assert (first + Receive(tail, max, handle).messages)[..|ms|] == first;
  }

  // Whatever sound messages a server sends, in any chunks: each is received once, in order,
  // with the ids, the opcode and the body it was sent with.
  lemma RepliesArrive(ms: seq<Sent>, chunks: seq<seq<byte>>, max: nat, inflate: Codec)
    requires Takes(ms, inflate, max) && Flatten(chunks) == Flatten(Wires(ms))
    ensures var got := WriteAll([], chunks, max, DeliverWith(inflate));
      got.ending == CalledBack && got.rest == [] && AllReceived(ms, inflate, got.messages)
  {
    hide AllReceived, Received, Sound, Fits, Wire, DeliverWith, Receive, WriteAll;
    var handle := DeliverWith(inflate);
    NothingLeft(max, handle);
    ReceivedFirst(ms, [], max, inflate);
    ChunkingInvisible([], chunks, max, handle);
    assert Flatten(Wires(ms)) + [] == [] + Flatten(chunks);
    var got := Receive([] + Flatten(chunks), max, handle);
    assert got.messages == got.messages[..|ms|] + got.messages[|ms|..];
    assert got.messages[..|ms|] + [] == got.messages[..|ms|];
  }

  lemma NothingLeft(max: nat, handle: Handler)
    ensures Receive([], max, handle) == Reception([], [], CalledBack)
  {
  }

  // A message that is not sound ends the stream there, with its fault: the ones before it are
  // received, and nothing behind it.
  lemma FaultEnds(ms: seq<Sent>, bad: Sent, tail: seq<byte>, chunks: seq<seq<byte>>, max: nat, inflate: Codec)
    requires Takes(ms, inflate, max) && Fits(bad) && !Sound(bad, inflate) && |Wire(bad)| <= max
    requires Flatten(chunks) == Flatten(Wires(ms)) + (Wire(bad) + tail)
    ensures var got := WriteAll([], chunks, max, DeliverWith(inflate));
      && AllReceived(ms, inflate, got.messages)
      && got.ending == match FaultOf(bad, inflate) {
           case Failed(fault) => CalledBackWith(fault)
           case Raised(fault) => Threw(fault)
           case Emit(_) => CalledBack
         }
  {
    hide AllReceived, Received, Sound, Fits, Wire, DeliverWith, Receive, WriteAll;
    var handle := DeliverWith(inflate);
    BadFirst(bad, tail, max, inflate);
    NothingLeft(max, handle);
    ReceivedFirst(ms, Wire(bad) + tail, max, inflate);
    ChunkingInvisible([], chunks, max, handle);
    Whole([], chunks, Flatten(Wires(ms)) + (Wire(bad) + tail));
    var got := Receive(Flatten(Wires(ms)) + (Wire(bad) + tail), max, handle);
    assert got.messages == got.messages[..|ms|] + got.messages[|ms|..];
    assert got.messages[..|ms|] + [] == got.messages[..|ms|];
  }

  lemma Whole(before: seq<byte>, chunks: seq<seq<byte>>, bytes: seq<byte>)
    requires before == [] && Flatten(chunks) == bytes
    ensures before + Flatten(chunks) == bytes
  {
  }

  lemma BadFirst(bad: Sent, tail: seq<byte>, max: nat, inflate: Codec)
    requires Fits(bad) && !Sound(bad, inflate) && |Wire(bad)| <= max
    ensures Receive(Wire(bad) + tail, max, DeliverWith(inflate))
         == Reception([], tail, match FaultOf(bad, inflate) {
              case Failed(fault) => CalledBackWith(fault)
              case Raised(fault) => Threw(fault)
              case Emit(_) => CalledBack
            })
  {
    hide Wire, Sound, Fits, DeliverWith, FaultOf;
    FrameReceived(bad, inflate);
    FaultIsFault(bad, inflate);
    var bytes, frame := Wire(bad) + tail, Wire(bad);
    assert ReadInt32LE(bytes, 0) == ReadInt32LE(frame, 0);
    assert bytes[..|frame|] == frame && bytes[|frame|..] == tail;
  }

  lemma FaultIsFault(m: Sent, inflate: Codec)
    requires Fits(m) && !Sound(m, inflate)
    ensures !FaultOf(m, inflate).Emit?
  {
  }

  // A length below zero or above the limit ends the stream with an error, one too short for a
  // header with an exception; any other waits until the frame is whole.
  lemma LengthDecides(size: int, tail: seq<byte>, max: nat, inflate: Codec)
    requires IsInt32(size)
    ensures var got := Receive(WriteInt32LE(size) + tail, max, DeliverWith(inflate));
      && (got.ending == CalledBackWith(InvalidMessageSize(size)) <== size < 0)
      && (got.ending == CalledBackWith(MessageTooLarge(size)) <== size >= 0 && size > max)
      && (got.ending == Threw(RangeError) <== 0 <= size <= max && size <= 4 + |tail| && size < 16)
      && (0 <= size <= max && size > 4 + |tail| ==>
            got == Reception([], WriteInt32LE(size) + tail, CalledBack))
      && (size < 0 || size > max || size < 16 ==> got.messages == [])
  {
    hide WriteInt32LE, DeliverWith;
    ReadWriteInt32(size, WriteInt32LE(size) + tail, 0);
  }
}
