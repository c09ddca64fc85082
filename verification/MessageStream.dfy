/**
 Framing (src/cmap/message_stream.ts): length-prefixed messages cut out of a byte stream,
 with optional compression, and commands written as such messages.
 */
module MessageStreams {
  import opened Wrappers
  import opened Sequences
  import opened Bytes
  import opened Commands
  import opened BufferPools

  const COMPRESSION_DETAILS_SIZE := 9

  // ----- Compression: zlib is a parameter, everything around it is as in the wire protocol -----

  datatype CompressorName = NoCompressor | Snappy | Zlib

  const COMPRESSOR_ZLIB := 2
  const UNCOMPRESSIBLE_COMMANDS := {"ismaster", "saslStart", "saslContinue", "getnonce", "authenticate",
                                    "createUser", "updateUser", "copydbSaslStart", "copydbgetnonce", "copydb"}

  // zlib.inflate; None is the error it may call back with.
  type Codec = seq<byte> -> Option<seq<byte>>

  datatype Inflation = Inflated(body: seq<byte>) | InflateFailed | InflateThrew

  // The compressor id is missing when the frame ends right after the compression details.
  // Id 1 (snappy) has no case of its own and falls through to the identity.
  function Decompress(id: Option<byte>, data: seq<byte>, inflate: Codec): Inflation
  {
    if id.Some? && id.value > 2 then InflateThrew
    else if id == Some(COMPRESSOR_ZLIB) then
      match inflate(data)
      case Some(body) => Inflated(body)
      case None => InflateFailed
    else Inflated(data)
  }

  // ----- Receiving -----

  datatype Message =
    | BinMessage(header: MessageHeader, raw: seq<byte>, body: seq<byte>)
    | Reply(header: MessageHeader, raw: seq<byte>, body: seq<byte>)

  // How the handling of one frame, or of one `_write`, ends: the write callback is called
  // without or with an error, or an exception leaves it uncalled.
  datatype Delivery = Emit(message: Message) | Failed(fault: Fault) | Raised(fault: Fault)
  datatype Ending = CalledBack | CalledBackWith(fault: Fault) | Threw(fault: Fault)

  function NewResponse(header: MessageHeader, raw: seq<byte>, body: seq<byte>): Delivery
  {
    if header.opCode != OP_MSG then Emit(Reply(header, raw, body))
    else if |body| < 4 then Raised(RangeError)
    else Emit(BinMessage(header, raw, body))
  }

  // Buffer.slice(start): empty when the buffer is shorter.
  function Tail(bytes: seq<byte>, start: nat): seq<byte>
  {
    if |bytes| < start then [] else bytes[start..]
  }

  function Deliver(header: MessageHeader, frame: seq<byte>, inflate: Codec): Delivery
  {
    if header.opCode != OP_COMPRESSED then NewResponse(header, frame, Tail(frame, MESSAGE_HEADER_SIZE))
    else if |frame| < MESSAGE_HEADER_SIZE + 8 then Raised(RangeError)
    else
      var inner := header.(fromCompressed := true,
                           opCode := ReadInt32LE(frame, MESSAGE_HEADER_SIZE),
                           length := ReadInt32LE(frame, MESSAGE_HEADER_SIZE + 4));
      var details := MESSAGE_HEADER_SIZE + COMPRESSION_DETAILS_SIZE;
      var id := if |frame| < details then None else Some(frame[details - 1]);
      match Decompress(id, Tail(frame, details), inflate)
      case InflateThrew => Raised(UnsupportedCompressor)
      case InflateFailed => Failed(DecompressionFailed)
      case Inflated(body) =>
        if |body| != inner.length then Failed(LengthMismatch) else NewResponse(inner, frame, body)
  }

  function ReadHeader(frame: seq<byte>): MessageHeader
    requires |frame| >= MESSAGE_HEADER_SIZE
  {
    MessageHeader(ReadInt32LE(frame, 0), ReadInt32LE(frame, 4), ReadInt32LE(frame, 8), ReadInt32LE(frame, 12), false)
  }

  // What a stream does with a frame; reading the header of a short one throws.
  type Handler = seq<byte> -> Delivery

  function DeliverWith(inflate: Codec): Handler
  {
    frame =>
      if |frame| < MESSAGE_HEADER_SIZE then Raised(RangeError) else Deliver(ReadHeader(frame), frame, inflate)
  }

  // What the length prefix of the buffered bytes asks for.
  datatype Prefix = Wait | Refuse(fault: Fault) | Frame(size: nat)

  function ReadPrefix(bytes: seq<byte>, max: nat): (p: Prefix)
    ensures p.Frame? ==> p.size <= |bytes|
  {
    if |bytes| < 4 then Wait
    else
      var size := ReadInt32LE(bytes, 0);
      if size < 0 then Refuse(InvalidMessageSize(size))
      else if size > max then Refuse(MessageTooLarge(size))
      else if size > |bytes| then Wait
      else Frame(size)
  }

  datatype Reception = Reception(messages: seq<Message>, rest: seq<byte>, ending: Ending)

  // What a flat byte string means to the parser: the messages in it, the bytes left over,
  // and how the last step ended.
  function Receive(bytes: seq<byte>, max: nat, handle: Handler): Reception
    decreases |bytes|, 0
  {
    match ReadPrefix(bytes, max)
    case Wait => Reception([], bytes, CalledBack)
    case Refuse(fault) => Reception([], bytes, CalledBackWith(fault))
    case Frame(size) =>
      if size < MESSAGE_HEADER_SIZE then Reception([], bytes[size..], Threw(RangeError))  // no header to read
      else AfterHandling(handle(bytes[..size]), bytes[size..], max, handle)
  }

  function AfterHandling(delivery: Delivery, rest: seq<byte>, max: nat, handle: Handler): Reception
    decreases |rest|, 1
  {
    match delivery
    case Raised(fault) => Reception([], rest, Threw(fault))
    case Failed(fault) => Reception([], rest, CalledBackWith(fault))
    case Emit(message) =>
      var more := Receive(rest, max, handle);
      Reception([message] + more.messages, more.rest, more.ending)
  }

  class MessageStream {
    const maxBsonMessageSize: nat
    const handle: Handler
    const buffer: BufferPool
    var emitted: seq<Message>
    // The buffers pushed to the socket, and the compressions that will push theirs later.
    var pushed: seq<seq<byte>>
    var deflating: seq<Deflation>
    // What the callers know: the commands handed over, which of them each buffer is, and which
    // ended with a fault.
    var sent: seq<Sending>
    var order: seq<nat>
    var failed: seq<nat>

    ghost predicate Valid()
      reads this, buffer
    {
      buffer.Valid()
    }

    ghost function Sender(): Outbox
      reads this
    {
      Outbox(sent, deflating, pushed, order, failed)
    }

    constructor (maxBsonMessageSize: nat, inflate: Codec)
      ensures Valid() && fresh(buffer) && buffer.Contents() == [] && emitted == [] && Sender() == NOTHING_SENT
      ensures this.maxBsonMessageSize == maxBsonMessageSize && handle == DeliverWith(inflate)
    {
      this.maxBsonMessageSize, this.handle := maxBsonMessageSize, DeliverWith(inflate);
      buffer := new BufferPool();
      emitted, pushed, deflating, sent, order, failed := [], [], [], [], [], [];
    }

    method Write(chunk: seq<byte>) returns (ending: Ending)
      requires Valid()
      modifies `emitted, buffer
      ensures Valid()
      ensures var r := Receive(old(buffer.Contents()) + chunk, maxBsonMessageSize, handle);
        && emitted == old(emitted) + r.messages
        && buffer.Contents() == r.rest
        && ending == r.ending
    {
      buffer.Append(chunk);
      ending := ProcessIncomingData();
    }

    // Cut the next frame off the buffer, if a whole one is there.
    method TakeFrame() returns (prefix: Prefix, frame: seq<byte>)
      requires Valid()
      modifies buffer
      ensures Valid()
      ensures prefix == ReadPrefix(old(buffer.Contents()), maxBsonMessageSize)
      ensures if prefix.Frame? then
                frame == old(buffer.Contents())[..prefix.size]
                  && buffer.Contents() == old(buffer.Contents())[prefix.size..]
              else frame == [] && buffer.Contents() == old(buffer.Contents())
    {
      if buffer.length < 4 {
        return Wait, [];
      }
      var head := buffer.Peek(4);
      var sizeOfMessage := ReadInt32LE(head.value, 0);
      assert sizeOfMessage == ReadInt32LE(old(buffer.Contents()), 0);
      if sizeOfMessage < 0 {
        return Refuse(InvalidMessageSize(sizeOfMessage)), [];
      }
      if sizeOfMessage > maxBsonMessageSize {
        return Refuse(MessageTooLarge(sizeOfMessage)), [];
      }
      if sizeOfMessage > buffer.length {
        return Wait, [];
      }
      var message := buffer.Read(sizeOfMessage, true);
      return Frame(sizeOfMessage), message.value;
    }

    method ProcessIncomingData() returns (ending: Ending)
      requires Valid()
      modifies `emitted, buffer
      ensures Valid()
      ensures var r := Receive(old(buffer.Contents()), maxBsonMessageSize, handle);
        && emitted == old(emitted) + r.messages
        && buffer.Contents() == r.rest
        && ending == r.ending
      decreases buffer.length, 0
    {
      var prefix, message := TakeFrame();
      match prefix {
        case Wait =>
          ending := CalledBack;
        case Refuse(fault) =>
          ending := CalledBackWith(fault);
        case Frame(size) =>
          if size < MESSAGE_HEADER_SIZE {
            ending := Threw(RangeError);
          } else {
            ending := Dispatch(message);
          }
      }
    }

    // Hand one frame on: emit its message and go on with the rest of the buffer, or end the
    // write with the fault.
    method Dispatch(message: seq<byte>) returns (ending: Ending)
      requires Valid()
      modifies `emitted, buffer
      ensures Valid()
      ensures var r := AfterHandling(handle(message), old(buffer.Contents()), maxBsonMessageSize, handle);
        && emitted == old(emitted) + r.messages
        && buffer.Contents() == r.rest
        && ending == r.ending
      decreases buffer.length, 1
    {
      match handle(message) {
        case Raised(fault) =>
          ending := Threw(fault);
        case Failed(fault) =>
          ending := CalledBackWith(fault);
        case Emit(response) =>
          emitted := emitted + [response];
          if buffer.length >= 4 {
            ending := ProcessIncomingData();
          } else {
            ending := CalledBack;
          }
      }
    }

    // A plain frame is pushed at once; a command to be compressed is only handed to zlib.
    method WriteCommand(command: Command, agreedCompressor: CompressorName) returns (error: Option<SendFault>)
      modifies `pushed, `deflating, `sent, `order, `failed
      ensures (Sender(), error) == Send(old(Sender()), Sending(command, agreedCompressor))
    {
      var call := |sent|;
      sent := sent + [Sending(command, agreedCompressor)];
      var msg := new Msg(command);
      var data := msg.ToBin();
      if data.Err? {
        failed := failed + [call];
        return Some(Thrown(data.error));
      }
      if agreedCompressor == NoCompressor || !CanCompress(command) {
        var bytes := Concat(data.value);
        pushed, order := pushed + [bytes], order + [call];
        return None;
      }
      if agreedCompressor == Snappy {
        failed := failed + [call];
        return Some(UnknownCompressor);
      }
      deflating := deflating + [Deflation(call, command)];
      error := None;
    }

    // The callback of one compression: the frame is put together and pushed.
    method OnDeflated(i: nat, compressed: Option<seq<byte>>) returns (error: Option<SendFault>)
      requires i < |deflating| && Printable(deflating[i].command)
      modifies `pushed, `deflating, `order, `failed
      ensures (Sender(), error) == Finish(old(Sender()), i, compressed)
    {
      var call, command := deflating[i].call, deflating[i].command;
      deflating := deflating[..i] + deflating[i + 1..];
      if compressed.None? {
        failed := failed + [call];
        return Some(DeflateFailed);
      }
      var length := MESSAGE_HEADER_SIZE + COMPRESSION_DETAILS_SIZE + |compressed.value|;
      if !IsInt32(length) {
        failed := failed + [call];
        return Some(Thrown(RangeError));
      }
      var original := MessageBytes(command);
      HeaderRoundTrip(|original|, command.requestId, 0, OP_MSG, MessageBody(command));
      var originalCommandOpCode := ReadInt32LE(original, 12);
      var messageToBeCompressed := original[MESSAGE_HEADER_SIZE..];
      pushed := pushed + [HeaderBytes(length, command.requestId, 0, OP_COMPRESSED)
        + CompressionDetails(originalCommandOpCode, |messageToBeCompressed|) + compressed.value];
      order := order + [call];
      error := None;
    }
  }

  // ----- Sending -----

  datatype SendFault = Thrown(fault: Fault) | UnknownCompressor | DeflateFailed

  predicate CanCompress(command: Command)
  {
    command.name !in UNCOMPRESSIBLE_COMMANDS
  }

  function CompressionDetails(opCode: int, uncompressedSize: int): (b: seq<byte>)
    requires IsInt32(opCode) && IsInt32(uncompressedSize)
    ensures |b| == COMPRESSION_DETAILS_SIZE
  {
    WriteInt32LE(opCode) + WriteInt32LE(uncompressedSize) + [COMPRESSOR_ZLIB]
  }

  predicate FitsFrame(compressed: seq<byte>)
  {
    MESSAGE_HEADER_SIZE + COMPRESSION_DETAILS_SIZE + |compressed| <= INT32_MAX
  }

  function CompressedFrame(command: Command, compressed: seq<byte>): (frame: seq<byte>)
    requires IsInt32(command.requestId) && |MessageBody(command)| <= INT32_MAX && FitsFrame(compressed)
  {
    HeaderBytes(MESSAGE_HEADER_SIZE + COMPRESSION_DETAILS_SIZE + |compressed|, command.requestId, 0, OP_COMPRESSED)
    + CompressionDetails(OP_MSG, |MessageBody(command)|) + compressed
  }

  // A command handed to `writeCommand`; calls are numbered.
  datatype Sending = Sending(command: Command, compressor: CompressorName)

  // A compression under way, for the call with this number.
  datatype Deflation = Deflation(call: nat, command: Command)

  // Frame k was pushed for call order[k].
  datatype Outbox = Outbox(
    sent: seq<Sending>, deflating: seq<Deflation>, frames: seq<seq<byte>>, order: seq<nat>, failed: seq<nat>)

  const NOTHING_SENT := Outbox([], [], [], [], [])

  // What a call does right away.
  datatype Start = Refused(fault: SendFault) | Push(frame: seq<byte>) | StartDeflating

  function StartOf(s: Sending): Start
  {
    if !Printable(s.command) then Refused(Thrown(RangeError))
    else if s.compressor == NoCompressor || !CanCompress(s.command) then Push(MessageBytes(s.command))
    else if s.compressor == Snappy then Refused(UnknownCompressor)
    else StartDeflating
  }

  function Send(o: Outbox, s: Sending): (Outbox, Option<SendFault>)
  {
    var call, taken := |o.sent|, o.(sent := o.sent + [s]);
    match StartOf(s)
    case Refused(fault) => (taken.(failed := o.failed + [call]), Some(fault))
    case Push(frame) => (taken.(frames := o.frames + [frame], order := o.order + [call]), None)
    case StartDeflating => (taken.(deflating := o.deflating + [Deflation(call, s.command)]), None)
  }

  function Finish(o: Outbox, i: nat, compressed: Option<seq<byte>>): (Outbox, Option<SendFault>)
    requires i < |o.deflating| && Printable(o.deflating[i].command)
  {
    var d, ended := o.deflating[i], o.(deflating := o.deflating[..i] + o.deflating[i + 1..]);
    if compressed.None? then (ended.(failed := o.failed + [d.call]), Some(DeflateFailed))
    else if !FitsFrame(compressed.value) then (ended.(failed := o.failed + [d.call]), Some(Thrown(RangeError)))
    else (ended.(frames := o.frames + [CompressedFrame(d.command, compressed.value)], order := o.order + [d.call]),
          None)
  }

  // ----- Framing does not depend on how the bytes are cut -----

  lemma PrefixKept(a: seq<byte>, b: seq<byte>, max: nat)
    requires ReadPrefix(a, max) != Wait
    ensures ReadPrefix(a + b, max) == ReadPrefix(a, max)
  {
    assert ReadInt32LE(a + b, 0) == ReadInt32LE(a, 0);
  }

  lemma {:induction false} ReceiveMore(a: seq<byte>, b: seq<byte>, max: nat, handle: Handler)
    ensures var ra, rab := Receive(a, max, handle), Receive(a + b, max, handle);
      if ra.ending == CalledBack then
        var more := Receive(ra.rest + b, max, handle);
        rab == Reception(ra.messages + more.messages, more.rest, more.ending)
      else rab == Reception(ra.messages, ra.rest + b, ra.ending)
    decreases |a|
  {
    if ReadPrefix(a, max) == Wait {
      assert [] + Receive(a + b, max, handle).messages == Receive(a + b, max, handle).messages;
    } else {
      PrefixKept(a, b, max);
      if ReadPrefix(a, max).Frame? {
        var size := ReadPrefix(a, max).size;
        assert (a + b)[..size] == a[..size] && (a + b)[size..] == a[size..] + b;
        if size >= MESSAGE_HEADER_SIZE && handle(a[..size]).Emit? {
          var message := handle(a[..size]).message;
          var ra := Receive(a[size..], max, handle);
          ReceiveMore(a[size..], b, max, handle);
          var more := Receive(ra.rest + b, max, handle);
          assert [message] + (ra.messages + more.messages) == [message] + ra.messages + more.messages;
        }
      }
    }
  }

  // The writes a stream sees: after an error or an exception no further chunk is processed.
  function WriteAll(before: seq<byte>, chunks: seq<seq<byte>>, max: nat, handle: Handler): Reception
    decreases |chunks|
  {
    if chunks == [] then Reception([], before, CalledBack)
    else
      var first := Receive(before + chunks[0], max, handle);
      if first.ending != CalledBack then first
      else
        var more := WriteAll(first.rest, chunks[1..], max, handle);
        Reception(first.messages + more.messages, more.rest, more.ending)
  }

  // Any cutting of any bytes gives the messages, the ending and (unless the stream failed)
  // the leftover of the flat byte string.
  lemma {:induction false} ChunkingInvisible(before: seq<byte>, chunks: seq<seq<byte>>, max: nat, handle: Handler)
    requires Receive(before, max, handle) == Reception([], before, CalledBack)
    ensures var cut, flat := WriteAll(before, chunks, max, handle), Receive(before + Flatten(chunks), max, handle);
      && cut.messages == flat.messages
      && cut.ending == flat.ending
      && (cut.ending == CalledBack ==> cut.rest == flat.rest)
    decreases |chunks|
  {
    if chunks == [] {
      assert before + [] == before;
    } else {
      var first := Receive(before + chunks[0], max, handle);
      assert before + Flatten(chunks) == before + chunks[0] + Flatten(chunks[1..]);
      ReceiveMore(before + chunks[0], Flatten(chunks[1..]), max, handle);
      if first.ending == CalledBack {
        ReceiveSettles(before + chunks[0], max, handle);
        ChunkingInvisible(first.rest, chunks[1..], max, handle);
      }
    }
  }

  // Nothing is left to find in the leftover of a reception that ended normally.
  lemma {:induction false} ReceiveSettles(bytes: seq<byte>, max: nat, handle: Handler)
    requires Receive(bytes, max, handle).ending == CalledBack
    ensures var rest := Receive(bytes, max, handle).rest;
      Receive(rest, max, handle) == Reception([], rest, CalledBack)
    decreases |bytes|
  {
    if ReadPrefix(bytes, max).Frame? && ReadPrefix(bytes, max).size > 0 {
      ReceiveSettles(bytes[ReadPrefix(bytes, max).size..], max, handle);
    }
  }

  // ----- End to end -----

  // A frame the receiver accepts whole.
  predicate Acceptable(frame: seq<byte>, max: nat, handle: Handler)
  {
    MESSAGE_HEADER_SIZE <= |frame| <= max && ReadInt32LE(frame, 0) == |frame|
    && handle(frame).Emit?
  }

  function MessageOf(frame: seq<byte>, max: nat, handle: Handler): Message
    requires Acceptable(frame, max, handle)
  {
    handle(frame).message
  }

  // What a command is received as. The header's length is the whole frame for a plain
  // message, but only the body for one that was compressed.
  predicate ReceivedAs(command: Command, message: Message, compressed: bool)
  {
    && message.BinMessage?
    && message.header.requestId == command.requestId && message.header.responseTo == 0
    && message.header.opCode == OP_MSG
    && message.header.fromCompressed == compressed
    && message.body == MessageBody(command)
    && message.header.length == |message.body| + (if compressed then 0 else MESSAGE_HEADER_SIZE)
    && Sections(message.body, 4) == Parsed([command.document], None)
  }

  lemma PlainFrameArrives(command: Command, inflate: Codec, max: nat)
    requires IsDocument(command.document) && Printable(command) && |MessageBytes(command)| <= max
    ensures var frame := MessageBytes(command);
      && Acceptable(frame, max, DeliverWith(inflate))
      && ReceivedAs(command, MessageOf(frame, max, DeliverWith(inflate)), false)
  {
    BodyRoundTrip(command);
    HeaderRoundTrip(|MessageBytes(command)|, command.requestId, 0, OP_MSG, MessageBody(command));
  }

  lemma CompressedFrameFields(command: Command, compressed: seq<byte>)
    requires IsInt32(command.requestId) && |MessageBody(command)| <= INT32_MAX
    requires FitsFrame(compressed)
    ensures var frame := CompressedFrame(command, compressed);
      && |frame| == 25 + |compressed|
      && ReadHeader(frame) == MessageHeader(|frame|, command.requestId, 0, OP_COMPRESSED, false)
      && ReadInt32LE(frame, 16) == OP_MSG && ReadInt32LE(frame, 20) == |MessageBody(command)|
      && frame[24] == COMPRESSOR_ZLIB && frame[25..] == compressed
  {
    var frame := CompressedFrame(command, compressed);
    var details := CompressionDetails(OP_MSG, |MessageBody(command)|);
    HeaderRoundTrip(|frame|, command.requestId, 0, OP_COMPRESSED, details + compressed);
    assert frame == HeaderBytes(|frame|, command.requestId, 0, OP_COMPRESSED) + (details + compressed);
    ReadWriteInt32(OP_MSG, frame, 16);
    ReadWriteInt32(|MessageBody(command)|, frame, 20);
  }

  lemma CompressedFrameArrives(command: Command, compressed: seq<byte>, inflate: Codec, max: nat)
    requires IsDocument(command.document) && IsInt32(command.requestId) && |MessageBody(command)| <= INT32_MAX
    requires FitsFrame(compressed)
    requires |CompressedFrame(command, compressed)| <= max && inflate(compressed) == Some(MessageBody(command))
    ensures var frame := CompressedFrame(command, compressed);
      && Acceptable(frame, max, DeliverWith(inflate))
      && ReceivedAs(command, MessageOf(frame, max, DeliverWith(inflate)), true)
  {
    BodyRoundTrip(command);
    CompressedFrameFields(command, compressed);
  }

  function MessagesOf(frames: seq<seq<byte>>, max: nat, handle: Handler): (messages: seq<Message>)
    requires forall i :: 0 <= i < |frames| ==> Acceptable(frames[i], max, handle)
    ensures |messages| == |frames|
    ensures forall i :: 0 <= i < |frames| ==> messages[i] == MessageOf(frames[i], max, handle)
  {
    if frames == [] then [] else [MessageOf(frames[0], max, handle)] + MessagesOf(frames[1..], max, handle)
  }

  // Whole frames in front of anything: one message each, and then what the rest means.
  lemma {:induction false} FramesArrive(frames: seq<seq<byte>>, tail: seq<byte>, max: nat, handle: Handler)
    requires forall i :: 0 <= i < |frames| ==> Acceptable(frames[i], max, handle)
    ensures var more := Receive(tail, max, handle);
      Receive(Flatten(frames) + tail, max, handle)
      == Reception(MessagesOf(frames, max, handle) + more.messages, more.rest, more.ending)
    decreases |frames|
  {
    hide Receive, Acceptable;
    var more := Receive(tail, max, handle);
    if frames == [] {
      assert Flatten(frames) + tail == tail && [] + more.messages == more.messages;
    } else {
      var frame, rest := frames[0], Flatten(frames[1..]) + tail;
      assert Flatten(frames) + tail == frame + rest;
      FirstArrives(frame, rest, max, handle);
      FramesArrive(frames[1..], tail, max, handle);
      var first, others := MessageOf(frame, max, handle), MessagesOf(frames[1..], max, handle);
      assert [first] + (others + more.messages) == [first] + others + more.messages;
    }
  }

  lemma FirstArrives(frame: seq<byte>, rest: seq<byte>, max: nat, handle: Handler)
    requires Acceptable(frame, max, handle)
    ensures var more := Receive(rest, max, handle);
      Receive(frame + rest, max, handle)
      == Reception([MessageOf(frame, max, handle)] + more.messages, more.rest, more.ending)
  {
    hide ReadInt32LE;
    var bytes := frame + rest;
    SamePrefix(frame, rest);
    assert bytes[..|frame|] == frame && bytes[|frame|..] == rest;
  }

  lemma SamePrefix(frame: seq<byte>, rest: seq<byte>)
    requires |frame| >= 4
    ensures ReadInt32LE(frame + rest, 0) == ReadInt32LE(frame, 0)
  {
  }
}
