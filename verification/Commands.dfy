/**
 OP_MSG messages as bytes (src/cmap/commands.ts): the printer `Msg` and the parser `BinMsg`.
 A document is its serialized form, which starts with its own length (BSON 1.1).
 */
module Commands {
  import opened Wrappers
  import opened Sequences
  import opened Bytes

  const MESSAGE_HEADER_SIZE := 16
  const OP_COMPRESSED := 2012
  const OP_MSG := 2013

  const OPTS_CHECKSUM_PRESENT := 1
  const OPTS_MORE_TO_COME := 2
  const OPTS_EXHAUST_ALLOWED := 0x1_0000

  datatype Fault =
    | RangeError
    | UnsupportedPayload
    | InvalidMessageSize(size: int)
    | MessageTooLarge(size: int)
    | DecompressionFailed
    | UnsupportedCompressor
    | LengthMismatch

  predicate IsDocument(d: seq<byte>)
  {
    |d| >= 5 && ReadUInt32LE(d, 0) == |d|
  }

  // ----- Printing -----

  datatype Command = Command(
    name: string, requestId: int, document: seq<byte>,
    checksumPresent: bool, moreToCome: bool, exhaustAllowed: bool)

  // The three flags are distinct bits, so the bitwise "or" is a sum.
  function Flags(c: Command): (f: int)
    ensures 0 <= f < 0x2_0000
  {
    (if c.checksumPresent then OPTS_CHECKSUM_PRESENT else 0)
    + (if c.moreToCome then OPTS_MORE_TO_COME else 0)
    + (if c.exhaustAllowed then OPTS_EXHAUST_ALLOWED else 0)
  }

  function MessageBody(c: Command): (b: seq<byte>)
  {
    WriteInt32LE(Flags(c)) + [0] + c.document
  }

  function HeaderBytes(length: int, requestId: int, responseTo: int, opCode: int): (b: seq<byte>)
    requires IsInt32(length) && IsInt32(requestId) && IsInt32(responseTo) && IsInt32(opCode)
    ensures |b| == MESSAGE_HEADER_SIZE
  {
    WriteInt32LE(length) + WriteInt32LE(requestId) + WriteInt32LE(responseTo) + WriteInt32LE(opCode)
  }

  predicate Printable(c: Command)
  {
    IsInt32(c.requestId) && MESSAGE_HEADER_SIZE + |MessageBody(c)| <= INT32_MAX
  }

  function MessageBytes(c: Command): seq<byte>
    requires Printable(c)
  {
    HeaderBytes(MESSAGE_HEADER_SIZE + |MessageBody(c)|, c.requestId, 0, OP_MSG) + MessageBody(c)
  }

  // writeInt32LE into a buffer that is already allocated.
  method PutInt32LE(target: array<byte>, v: int, at: nat)
    requires IsInt32(v) && at + 4 <= target.Length
    modifies target
    ensures target[..at] == old(target[..at])
    ensures target[at..at + 4] == WriteInt32LE(v)
    ensures target[at + 4..] == old(target[at + 4..])
  {
    var n := Copy(WriteInt32LE(v), target, at, 0, 4);
  }

  class Msg {
    const command: Command

    constructor (command: Command)
      ensures this.command == command
    {
      this.command := command;
    }

    // The header is allocated first and filled in when the length of the document is known.
    method ToBin() returns (r: Result<seq<seq<byte>>, Fault>)
      ensures r.Ok? <==> Printable(command)
      ensures r.Ok? ==> Flatten(r.value) == MessageBytes(command)
      ensures r.Err? ==> r.error == RangeError
    {
      var header := new byte[20](_ => 0);
      var buffers, segmentLength := MakeDocumentSegment(command.document);
      var totalLength := 20 + segmentLength;
      if !IsInt32(totalLength) || !IsInt32(command.requestId) {
        return Err(RangeError);
      }
      FillHeader(header, totalLength);
      FlattenConcat([header[..]], buffers);
      assert Flatten([header[..]]) == header[..] + Flatten<byte>([]);
      r := Ok([header[..]] + buffers);
      assert header[..] + [0] + command.document == MessageBytes(command);
    }

    method FillHeader(header: array<byte>, totalLength: int)
      requires header.Length == 20 && IsInt32(totalLength) && IsInt32(command.requestId)
      modifies header
      ensures header[..] == HeaderBytes(totalLength, command.requestId, 0, OP_MSG) + WriteInt32LE(Flags(command))
    {
      PutInt32LE(header, totalLength, 0);
      label Length:
      PutInt32LE(header, command.requestId, 4);
      label RequestId:
      PutInt32LE(header, 0, 8);
      label ResponseTo:
      PutInt32LE(header, OP_MSG, 12);
      label OpCode:
      PutInt32LE(header, Flags(command), 16);
      assert header[..] == header[..16] + header[16..20];
      assert header[..16] == old@OpCode(header[..12]) + old@OpCode(header[12..16]);
      assert old@OpCode(header[..12]) == old@ResponseTo(header[..8]) + old@ResponseTo(header[8..12]);
      assert old@ResponseTo(header[..8]) == old@RequestId(header[..4]) + old@RequestId(header[4..8]);
    }
  }

  method MakeDocumentSegment(document: seq<byte>) returns (buffers: seq<seq<byte>>, length: nat)
    ensures Flatten(buffers) == [0] + document && length == 1 + |document|
  {
    buffers := [[0]] + [document];
    length := |buffers[0]| + |buffers[1]|;
    FlattenSnoc([[0]], document);
    FlattenSnoc([], [0 as byte]);
    assert [] + [[0 as byte]] == [[0 as byte]];
  }

  // The request id counter: `(id + 1) & 0x7fffffff`.
  class RequestIds {
    var requestId: nat

    ghost predicate Valid()
      reads this
    {
      requestId <= INT32_MAX
    }

    method GetRequestId() returns (id: nat)
      requires Valid()
      modifies this
      ensures Valid() && id == requestId == NthRequestId(old(requestId), 1)
    {
      requestId := (requestId + 1) % 0x8000_0000;
      id := requestId;
    }
  }

  function NthRequestId(start: nat, calls: nat): (id: nat)
    ensures id <= INT32_MAX
  {
    (start + calls) % 0x8000_0000
  }

  // Ids repeat exactly when the number of calls between them is a multiple of 2^31.
  lemma RequestIdsDistinct(start: nat, j: nat, k: nat)
    requires j <= k
    ensures NthRequestId(start, j) == NthRequestId(start, k) <==> (k - j) % 0x8000_0000 == 0
    ensures NthRequestId(NthRequestId(start, j), k - j) == NthRequestId(start, k)
  {
    var a, b, m := start + j, start + k, 0x8000_0000;
    assert a == a / m * m + a % m && b == b / m * m + b % m;
    assert k - j == (b / m - a / m) * m + (b % m - a % m);
  }

  // ----- Parsing -----

  datatype MessageHeader = MessageHeader(
    length: int, requestId: int, responseTo: int, opCode: int, fromCompressed: bool)

  datatype Parsed = Parsed(documents: seq<seq<byte>>, error: Option<Fault>)

  // The sections of a message body from `index` on. A payload type other than 0 and 1 is
  // skipped as a single byte, and a document that claims too many bytes is cut at the end.
  function Sections(data: seq<byte>, index: nat): Parsed
    decreases |data| - index
  {
    if index >= |data| then Parsed([], None)
    else if data[index] == 0 then
      if index + 5 > |data| then Parsed([], Some(RangeError))
      else
        var size := ReadUInt32LE(data, index + 1);
        var rest := Sections(data, index + 1 + size);
        rest.(documents := [data[index + 1..Min(index + 1 + size, |data|)]] + rest.documents)
    else if data[index] == 1 then Parsed([], Some(UnsupportedPayload))
    else Sections(data, index + 1)
  }

  // One bit of a 32-bit word, for a signed word too: `(word & bit) !== 0`.
  predicate HasFlag(word: int, bit: int)
    requires bit > 0
  {
    word / bit % 2 == 1
  }

  class BinMsg {
    const header: MessageHeader
    const data: seq<byte>
    var parsed: bool
    var documents: seq<seq<byte>>
    var index: nat

    // The constructor reads the flag word, so it needs four bytes of body.
    constructor (header: MessageHeader, body: seq<byte>)
      requires |body| >= 4
      ensures this.header == header && data == body && !parsed && documents == []
    {
      this.header, data, parsed, documents, index := header, body, false, [], 0;
    }

    // Parsing in raw mode: a document is kept as its bytes.
    method Parse() returns (error: Option<Fault>)
      modifies this
      ensures old(parsed) ==> error == None && documents == old(documents)
      ensures !old(parsed) ==>
                var p := Sections(data, 4);
                documents == old(documents) + p.documents && error == p.error
      ensures parsed == (old(parsed) || error == None)
    {
      if parsed {
        return None;
      }
      index := 4;
      while index < |data|
        invariant !parsed
        invariant var p, q := Sections(data, 4), Sections(data, index);
                  old(documents) + p.documents == documents + q.documents && p.error == q.error
        decreases |data| - index
      {
        var payloadType := data[index];
        index := index + 1;
        if payloadType == 0 {
          if index + 4 > |data| {
            return Some(RangeError);
          }
          var bsonSize := ReadUInt32LE(data, index);
          var bin := data[index..Min(index + bsonSize, |data|)];
          documents := documents + [bin];
          index := index + bsonSize;
        } else if payloadType == 1 {
          return Some(UnsupportedPayload);
        }
      }
      parsed := true;
      error := None;
    }
  }

  // Any number of document sections, the general form of what `Msg` prints one of.
  function PrintSections(documents: seq<seq<byte>>): seq<byte>
  {
    if documents == [] then [] else [0] + documents[0] + PrintSections(documents[1..])
  }

  // One document section, found and skipped.
  lemma SectionAt(data: seq<byte>, index: nat, d: seq<byte>)
    requires IsDocument(d) && index + 1 + |d| <= |data|
    requires data[index] == 0 && data[index + 1..index + 1 + |d|] == d
    ensures Sections(data, index) ==
      var rest := Sections(data, index + 1 + |d|); Parsed([d] + rest.documents, rest.error)
  {
    assert forall i :: 0 <= i < 4 ==> data[index + 1 + i] == d[i];
    assert ReadUInt32LE(data, index + 1) == |d|;
  }

  // Printed sections in front of anything: the documents, and then what the rest means.
  lemma {:induction false} PrintedFirst(before: seq<byte>, documents: seq<seq<byte>>, tail: seq<byte>)
    requires forall d <- documents :: IsDocument(d)
    ensures var data, at := before + (PrintSections(documents) + tail), |before + PrintSections(documents)|;
      Sections(data, |before|) == Parsed(documents + Sections(data, at).documents, Sections(data, at).error)
    decreases |documents|
  {
    hide Sections, IsDocument, PrintSections;
    if documents == [] {
      NothingPrinted(before, tail);
    } else {
      var d, rest := documents[0], documents[1..];
      assert IsDocument(d);
      FirstPrinted(documents);
      var printed := PrintSections(rest);
      FirstSection(before, d, printed + tail);
      PrintedFirst(before + ([0] + d), rest, tail);
      assert before + (PrintSections(documents) + tail) == before + ([0] + d + (printed + tail));
      assert before + ([0] + d + (printed + tail)) == before + ([0] + d) + (printed + tail);
      assert before + PrintSections(documents) == before + ([0] + d) + printed;
      var q := Sections(before + (PrintSections(documents) + tail), |before + PrintSections(documents)|);
      assert [d] + (rest + q.documents) == documents + q.documents;
    }
  }

  lemma NothingPrinted(before: seq<byte>, tail: seq<byte>)
    ensures PrintSections([]) == [] && before + ([] + tail) == before + tail && before + [] == before
    ensures var p := Sections(before + tail, |before|); p == Parsed([] + p.documents, p.error)
  {
  }

  lemma ParsePrintedSections(before: seq<byte>, documents: seq<seq<byte>>)
    requires forall d <- documents :: IsDocument(d)
    ensures Sections(before + PrintSections(documents), |before|) == Parsed(documents, None)
  {
    hide IsDocument, PrintSections;
    PrintedFirst(before, documents, []);
    var data := before + PrintSections(documents);
    assert before + (PrintSections(documents) + []) == data;
    assert documents + [] == documents;
  }

  // What follows the documents: a section of payload type 1 is refused, one without the four
  // bytes of its length cannot be read, and a type that is neither is skipped. The documents
  // before it are kept.
  lemma OtherSections(before: seq<byte>, documents: seq<seq<byte>>, kind: byte, rest: seq<byte>)
    requires forall d <- documents :: IsDocument(d)
    ensures var data := before + (PrintSections(documents) + ([kind] + rest));
      var p, at := Sections(data, |before|), |before + PrintSections(documents)|;
      && (kind == 1 ==> p == Parsed(documents, Some(UnsupportedPayload)))
      && (kind == 0 && |rest| < 4 ==> p == Parsed(documents, Some(RangeError)))
      && (kind > 1 ==> p == Parsed(documents + Sections(data, at + 1).documents, Sections(data, at + 1).error))
  {
    hide IsDocument, PrintSections;
    PrintedFirst(before, documents, [kind] + rest);
    var data, at := before + (PrintSections(documents) + ([kind] + rest)), |before + PrintSections(documents)|;
    assert data == before + PrintSections(documents) + [kind] + rest;
    assert documents + [] == documents;
  }

  lemma FirstPrinted(documents: seq<seq<byte>>)
    requires documents != []
    ensures PrintSections(documents) == [0] + documents[0] + PrintSections(documents[1..])
  {
  }

  lemma FirstSection(before: seq<byte>, d: seq<byte>, rest: seq<byte>)
    requires IsDocument(d)
    ensures var after := before + ([0] + d);
      var p := Sections(after + rest, |after|);
      Sections(before + ([0] + d + rest), |before|) == Parsed([d] + p.documents, p.error)
  {
    hide Sections, IsDocument;
    var data, after := before + ([0] + d + rest), before + ([0] + d);
    assert data == before + [0] + d + rest == after + rest;
    assert data[|before|] == 0 && data[|before| + 1..|before| + 1 + |d|] == d;
    SectionAt(data, |before|, d);
  }

  // The body of a printed message parses back to its one document and its three flags.
  lemma BodyRoundTrip(c: Command)
    requires IsDocument(c.document)
    ensures Sections(MessageBody(c), 4) == Parsed([c.document], None)
    ensures var flags := ReadInt32LE(MessageBody(c), 0);
      && (HasFlag(flags, OPTS_CHECKSUM_PRESENT) <==> c.checksumPresent)
      && (HasFlag(flags, OPTS_MORE_TO_COME) <==> c.moreToCome)
      && (HasFlag(flags, OPTS_EXHAUST_ALLOWED) <==> c.exhaustAllowed)
  {
    var flagBytes := WriteInt32LE(Flags(c));
    assert PrintSections([c.document]) == [0] + c.document + PrintSections([]);
    assert MessageBody(c) == flagBytes + PrintSections([c.document]);
    ParsePrintedSections(flagBytes, [c.document]);
    ReadWriteInt32(Flags(c), MessageBody(c), 0);
  }

  // The header in front of any body reads back field by field.
  lemma HeaderRoundTrip(length: int, requestId: int, responseTo: int, opCode: int, body: seq<byte>)
    requires IsInt32(length) && IsInt32(requestId) && IsInt32(responseTo) && IsInt32(opCode)
    ensures var m := HeaderBytes(length, requestId, responseTo, opCode) + body;
      && ReadInt32LE(m, 0) == length && ReadInt32LE(m, 4) == requestId
      && ReadInt32LE(m, 8) == responseTo && ReadInt32LE(m, 12) == opCode
      && m[MESSAGE_HEADER_SIZE..] == body
  {
    var m := HeaderBytes(length, requestId, responseTo, opCode) + body;
    ReadWriteInt32(length, m, 0);
    ReadWriteInt32(requestId, m, 4);
    ReadWriteInt32(responseTo, m, 8);
    ReadWriteInt32(opCode, m, 12);
  }
}
