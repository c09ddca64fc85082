/**
 Downloading a file or a range of it (src/gridfs/download.ts): the options turn into a query
 on the chunks and into how much to cut off the first and the last chunk.
 */
module GridFSDownloads {
  import opened Wrappers
  import opened Bytes
  import opened GridFSUploads

  datatype File = File(length: int, chunkSize: nat)

  // Chunks of the file with n >= from in ascending order, at most `limit` of them; 0 is no limit.
  datatype Query = Query(from: int, limit: int)

  datatype ReadError =
    | FileNotFound
    | StartUndefined | StartAfterFile | StartNegative | StartAfterEnd
    | EndUndefined | EndAfterFile
    | ChunkIsMissing | ExtraChunk | ChunkIsWrongSize

  datatype Reader = Reader(
    start: Option<int>, end: Option<int>,
    bytesRead: int, bytesToSkip: int, bytesToTrim: int, expected: int, expectedEnd: int,
    file: Option<File>, query: Option<Query>,
    pushed: seq<seq<byte>>, ended: bool, error: Option<ReadError>)

  // Both options default to 0; None is an option set to null.
  function Open(start: Option<int>, end: Option<int>): Reader
  {
    Reader(start, end, 0, 0, 0, 0, 0, None, None, [], false, None)
  }

  function Ceil(a: int, b: int): int
    requires b > 0
  {
    (a + b - 1) / b
  }

  function HandleStart(r: Reader, file: File): Result<Reader, ReadError>
    requires file.chunkSize > 0
  {
    if r.start.None? then Err(StartUndefined)
    else if r.start.value > file.length then Err(StartAfterFile)
    else if r.start.value < 0 then Err(StartNegative)
    else if r.end.Some? && r.end.value < r.start.value then Err(StartAfterEnd)
    else
      var first := r.start.value / file.chunkSize;
      Ok(r.(bytesRead := first * file.chunkSize, expected := first,
            bytesToSkip := r.start.value - first * file.chunkSize))
  }

  function HandleEnd(r: Reader, file: File): Result<Reader, ReadError>
    requires file.chunkSize > 0 && r.query.Some?
  {
    if r.end.None? then Err(EndUndefined)
    else if r.end.value > file.length then Err(EndAfterFile)
    else if r.start.None? || r.start.value < 0 then Err(StartNegative)
    else
      var last := Ceil(r.end.value, file.chunkSize);
      Ok(r.(query := Some(r.query.value.(limit := last - r.start.value / file.chunkSize)),
            expectedEnd := last, bytesToTrim := last * file.chunkSize - r.end.value))
  }

  function Init(r: Reader, doc: Option<File>): Reader
    requires doc.Some? ==> doc.value.chunkSize > 0
  {
    if doc.None? then r.(error := Some(FileNotFound))
    else if doc.value.length <= 0 then r.(ended := true)
    else
      match HandleStart(r, doc.value)
      case Err(e) => r.(error := Some(e))
      case Ok(started) =>
        var located := started.(query := Some(Query(started.expected, 0)), file := doc,
                               expectedEnd := Ceil(doc.value.length, doc.value.chunkSize));
        match HandleEnd(located, doc.value)
        case Err(e) => located.(error := Some(e))
        case Ok(ready) => ready
  }

  // Buffer.slice: a negative offset counts from the end, and both are clamped to the buffer.
  function Offset(at: int, length: nat): (o: nat)
    ensures o <= length
  {
    var o := if at < 0 then at + length else at;
    if o < 0 then 0 else Min(o, length)
  }

  function Slice(buf: seq<byte>, from: int, to: int): seq<byte>
  {
    var s, e := Offset(from, |buf|), Offset(to, |buf|);
    if s < e then buf[s..e] else []
  }

  // Where the pushed slice of a chunk ends, None when the chunk is not cut at its end.
  function SliceEnd(r: Reader, n: int, length: nat): Option<int>
    requires r.file.Some?
  {
    if n == r.expectedEnd - 1 then Some(r.file.value.chunkSize - r.bytesToTrim)
    else if r.end.Some? && r.end.value != 0 && r.end.value < length then Some(r.end.value)
    else None
  }

  // The next document of the cursor, or None when there is no more.
  function DoRead(r: Reader, doc: Option<Chunk>): Reader
    requires r.file.Some?
  {
    if doc.None? then r.(ended := true)
    else
      var bytesRemaining := r.file.value.length - r.bytesRead;
      var expectedLength := Min(r.file.value.chunkSize, bytesRemaining);
      var n, buf := r.expected, doc.value.data;
      var next := r.(expected := n + 1);
      if doc.value.n > n then next.(error := Some(ChunkIsMissing))
      else if doc.value.n < n then next.(error := Some(ExtraChunk))
      else if |buf| != expectedLength then
        next.(error := Some(if bytesRemaining <= 0 then ExtraChunk else ChunkIsWrongSize))
      else
        var read := next.(bytesRead := r.bytesRead + |buf|);
        if |buf| == 0 then read.(ended := true)
        else
          var skipped := read.(bytesToSkip := 0);
          var sliceEnd := SliceEnd(skipped, n, |buf|);
          var to := if sliceEnd.None? || sliceEnd.value == 0 then |buf| else sliceEnd.value;
          skipped.(pushed := r.pushed + [Slice(buf, r.bytesToSkip, to)])
  }

  // All reads of a stream: until an error, the end, or the end of the cursor.
  function ReadAll(r: Reader, docs: seq<Chunk>): Reader
    requires r.error == None && !r.ended ==> r.file.Some?
    decreases |docs|
  {
    if r.error.Some? || r.ended then r
    else if docs == [] then DoRead(r, None)
    else ReadAll(DoRead(r, Some(docs[0])), docs[1..])
  }

  class GridFSBucketReadStream {
    const start: Option<int>
    const end: Option<int>
    var bytesRead: int
    var bytesToSkip: int
    var bytesToTrim: int
    var expected: int
    var expectedEnd: int
    var file: Option<File>
    var query: Option<Query>
    var pushed: seq<seq<byte>>
    var ended: bool
    var error: Option<ReadError>

    ghost function State(): Reader
      reads this
    {
      Reader(start, end, bytesRead, bytesToSkip, bytesToTrim, expected, expectedEnd, file, query, pushed, ended, error)
    }

    constructor (start: Option<int>, end: Option<int>)
      ensures State() == Open(start, end)
    {
      this.start, this.end := start, end;
      bytesRead, bytesToSkip, bytesToTrim, expected, expectedEnd := 0, 0, 0, 0, 0;
      file, query, pushed, ended, error := None, None, [], false, None;
    }

    method InitStream(doc: Option<File>)
      requires doc.Some? ==> doc.value.chunkSize > 0
      modifies this
      ensures State() == Init(old(State()), doc)
    {
      if doc.None? {
        error := Some(FileNotFound);
        return;
      }
      if doc.value.length <= 0 {
        ended := true;
        return;
      }
      var thrown := HandleStartOption(doc.value);
      if thrown.Some? {
        error := thrown;
        return;
      }
      query := Some(Query(start.value / doc.value.chunkSize, 0));
      expectedEnd := Ceil(doc.value.length, doc.value.chunkSize);
      file := doc;
      thrown := HandleEndOption(doc.value);
      if thrown.Some? {
        error := thrown;
      }
    }

    method HandleStartOption(doc: File) returns (thrown: Option<ReadError>)
      requires doc.chunkSize > 0
      modifies this
      ensures match HandleStart(old(State()), doc)
              case Err(e) => thrown == Some(e) && State() == old(State())
              case Ok(r) => thrown == None && State() == r && start.Some? && expected == start.value / doc.chunkSize
    {
      if start.None? {
        return Some(StartUndefined);
      }
      if start.value > doc.length {
        return Some(StartAfterFile);
      }
      if start.value < 0 {
        return Some(StartNegative);
      }
      if end.Some? && end.value < start.value {
        return Some(StartAfterEnd);
      }
      bytesRead := start.value / doc.chunkSize * doc.chunkSize;
      expected := start.value / doc.chunkSize;
      bytesToSkip := start.value - bytesRead;
      thrown := None;
    }

    method HandleEndOption(doc: File) returns (thrown: Option<ReadError>)
      requires doc.chunkSize > 0 && query.Some?
      modifies this
      ensures match HandleEnd(old(State()), doc)
              case Err(e) => thrown == Some(e) && State() == old(State())
              case Ok(r) => thrown == None && State() == r
    {
      if end.None? {
        return Some(EndUndefined);
      }
      if end.value > doc.length {
        return Some(EndAfterFile);
      }
      if start.None? || start.value < 0 {
        return Some(StartNegative);
      }
      query := Some(query.value.(limit := Ceil(end.value, doc.chunkSize) - start.value / doc.chunkSize));
      expectedEnd := Ceil(end.value, doc.chunkSize);
      bytesToTrim := Ceil(end.value, doc.chunkSize) * doc.chunkSize - end.value;
      thrown := None;
    }

    method Read(doc: Option<Chunk>)
      requires file.Some?
      modifies `ended, `expected, `error, `bytesRead, `bytesToSkip, `pushed
      ensures State() == DoRead(old(State()), doc)
    {
      hide Slice;
      if doc.None? {
        ended := true;
        return;
      }
      var bytesRemaining := file.value.length - bytesRead;
      var expectedN := expected;
      expected := expected + 1;
      var expectedLength := Min(file.value.chunkSize, bytesRemaining);
      if doc.value.n > expectedN {
        error := Some(ChunkIsMissing);
        return;
      }
      if doc.value.n < expectedN {
        error := Some(ExtraChunk);
        return;
      }
      var buf := doc.value.data;
      if |buf| != expectedLength {
        error := Some(if bytesRemaining <= 0 then ExtraChunk else ChunkIsWrongSize);
        return;
      }
      bytesRead := bytesRead + |buf|;
      if |buf| == 0 {
        ended := true;
        return;
      }
      PushSlice(expectedN, buf);
    }

    // The chunk without what the range leaves out at its start and its end.
    method PushSlice(expectedN: int, chunk: seq<byte>)
      requires file.Some?
      modifies `bytesToSkip, `pushed
      ensures bytesToSkip == 0
      ensures var sliceEnd := old(SliceEnd(State().(bytesToSkip := 0), expectedN, |chunk|));
        var to := if sliceEnd.None? || sliceEnd.value == 0 then |chunk| else sliceEnd.value;
        pushed == old(pushed) + [Slice(chunk, old(bytesToSkip), to)]
    {
      hide Slice;
      var buf, sliceStart := chunk, bytesToSkip;
      bytesToSkip := 0;
      var sliceEnd: Option<int> := None;
      var atEndOfStream := expectedN == expectedEnd - 1;
      var endsInBuffer := end.Some? && end.value != 0 && end.value - bytesToSkip < |buf|;
      if atEndOfStream {
        sliceEnd := Some(file.value.chunkSize - bytesToTrim);
      } else if endsInBuffer {
        sliceEnd := Some(end.value - bytesToSkip);
      }
      buf := Slice(buf, sliceStart, if sliceEnd.None? || sliceEnd.value == 0 then |buf| else sliceEnd.value);
      pushed := pushed + [buf];
    }
  }
}
