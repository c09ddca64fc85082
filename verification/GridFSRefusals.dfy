/**
 What a download refuses and why, and what an aborted upload leaves: every error of the options
 and of the chunks with the input it is for.
 */
module GridFSRefusals {
  import opened Wrappers
  import opened Bytes
  import opened GridFSUploads
  import opened GridFSUploadRuns
  import GridFSDownloads

  // ----- Downloads -----

  // A file that is not there is an error, and an empty file ends at once whatever the options.
  lemma NothingToRead(start: Option<int>, end: Option<int>, chunkSize: nat, length: int)
    requires chunkSize > 0 && length <= 0
    ensures var r := GridFSDownloads.Open(start, end);
      && GridFSDownloads.Init(r, None) == r.(error := Some(GridFSDownloads.FileNotFound))
      && GridFSDownloads.Init(r, Some(GridFSDownloads.File(length, chunkSize))) == r.(ended := true)
  {
  }

  // The first thing wrong with the options of a range.
  function OptionFault(start: Option<int>, end: Option<int>, length: int): Option<GridFSDownloads.ReadError>
  {
    if start.None? then Some(GridFSDownloads.StartUndefined)
    else if start.value > length then Some(GridFSDownloads.StartAfterFile)
    else if start.value < 0 then Some(GridFSDownloads.StartNegative)
    else if end.None? then Some(GridFSDownloads.EndUndefined)
    else if end.value < start.value then Some(GridFSDownloads.StartAfterEnd)
    else if end.value > length then Some(GridFSDownloads.EndAfterFile)
    else None
  }

  lemma OptionsRefused(start: Option<int>, end: Option<int>, chunkSize: nat, length: int)
    requires chunkSize > 0 && length > 0
    ensures var r := GridFSDownloads.Init(GridFSDownloads.Open(start, end),
                                          Some(GridFSDownloads.File(length, chunkSize)));
      r.error == OptionFault(start, end, length) && r.pushed == [] && !r.ended
  {
    hide GridFSDownloads.Ceil;
  }

  // A reader between two chunks.
  predicate Between(r: GridFSDownloads.Reader)
  {
    r.file.Some? && r.error == None && !r.ended
  }

  // What is wrong with a chunk: it comes after or before the expected one, there should be no
  // more, or it is not as long as the file's length says.
  function ChunkFault(r: GridFSDownloads.Reader, doc: Chunk): Option<GridFSDownloads.ReadError>
    requires r.file.Some?
  {
    var left := r.file.value.length - r.bytesRead;
    var size := if left < r.file.value.chunkSize then left else r.file.value.chunkSize;
    if doc.n > r.expected then Some(GridFSDownloads.ChunkIsMissing)
    else if doc.n < r.expected then Some(GridFSDownloads.ExtraChunk)
    else if |doc.data| == size then None
    else if left <= 0 then Some(GridFSDownloads.ExtraChunk)
    else Some(GridFSDownloads.ChunkIsWrongSize)
  }

  // One chunk: with anything wrong it is refused and nothing is pushed; otherwise it counts,
  // and a piece is pushed unless it is empty, which ends the stream.
  lemma ChunkRefused(r: GridFSDownloads.Reader, doc: Chunk)
    requires Between(r)
    ensures var next, fault := GridFSDownloads.DoRead(r, Some(doc)), ChunkFault(r, doc);
      && next.error == fault && next.expected == r.expected + 1
      && (fault.Some? ==> next.pushed == r.pushed && next.bytesRead == r.bytesRead && !next.ended)
      && (fault.None? ==> next.bytesRead == r.bytesRead + |doc.data| && (next.ended <==> doc.data == []))
      && (fault.None? && doc.data != [] ==> |next.pushed| == |r.pushed| + 1 && next.pushed[..|r.pushed|] == r.pushed)
      && (fault.None? && doc.data == [] ==> next.pushed == r.pushed)
  {
    hide GridFSDownloads.Slice, GridFSDownloads.SliceEnd;
  }

  // A refused chunk ends the download: nothing behind it is read.
  lemma RefusedStops(r: GridFSDownloads.Reader, doc: Chunk, more: seq<Chunk>)
    requires Between(r) && ChunkFault(r, doc).Some?
    ensures var out := GridFSDownloads.ReadAll(r, [doc] + more);
      out.error == ChunkFault(r, doc) && out.pushed == r.pushed && !out.ended
  {
    hide GridFSDownloads.DoRead;
    ChunkRefused(r, doc);
    assert ([doc] + more)[0] == doc && ([doc] + more)[1..] == more;
  }

  // ----- Uploads -----

  // An upload aborted before its end: no later call or answer brings a files document or a
  // further chunk.
  predicate Stopped(u: Upload)
  {
    u.aborted && !u.streamEnd && u.files == [] && !u.done && forall g <- u.groups :: !g.ends
  }

  lemma StepStopped(h: History, e: Event)
    requires h.u.chunkSize > 0 && Stopped(h.u)
    ensures var q := Step(h, e);
      Stopped(q.u) && |q.u.inserts| == |h.u.inserts| && q.written == h.written
  {
    hide DoWrite, End, FullChunks, Remnant, AckInsert, FiledShort, ComesTooLate;
    match e {
      case WriteCall(data) => StoppedWrite(h.u, data);
      case EndCall(last) => EndAgain(h.u, last);
      case Answer(i, ok) => if CanAnswer(h.u, i) && ok { StoppedAck(h.u, i); }
      case _ =>
    }
  }

  lemma StoppedWrite(u: Upload, data: seq<byte>)
    requires u.chunkSize > 0 && u.aborted
    ensures DoWrite(u, data, false) == u
  {
  }

  lemma StoppedAck(u: Upload, i: nat)
    requires CanAnswer(u, i) && Stopped(u)
    ensures Stopped(AckInsert(u, i)) && |AckInsert(u, i).inserts| == |u.inserts|
  {
  }

  // An abort takes effect exactly when the stream has not ended and is not aborted already.
  lemma AbortDecides(h: History)
    requires h.u.chunkSize > 0
    ensures var q := Step(h, AbortCall);
      && q.u.aborted == (h.u.aborted || !h.u.streamEnd)
      && q.u.(aborted := h.u.aborted) == h.u && q.written == h.written
  {
  }

  lemma {:induction false} AbortedFilesNothing(chunkSize: nat, before: seq<Event>, after: seq<Event>)
    requires chunkSize > 0 && !Run(chunkSize, before).u.streamEnd
    ensures var h, q := Run(chunkSize, before), Run(chunkSize, before + [AbortCall] + after);
      q.u.aborted && q.u.files == [] && |q.u.inserts| == |h.u.inserts| && q.written == h.written && Stopped(q.u)
    decreases |after|
  {
    hide Run, Step;
    if after == [] {
      var all := before + [AbortCall];
      assert all + [] == all && all[..|all| - 1] == before;
      RunStep(chunkSize, all);
      AbortDecides(Run(chunkSize, before));
      OpenBefore(chunkSize, before);
    } else {
      var all := before + [AbortCall] + after;
      var init := after[..|after| - 1];
      assert all[..|all| - 1] == before + [AbortCall] + init;
      RunStep(chunkSize, all);
      AbortedFilesNothing(chunkSize, before, init);
      StepStopped(Run(chunkSize, before + [AbortCall] + init), after[|after| - 1]);
    }
  }

  lemma RunStep(chunkSize: nat, events: seq<Event>)
    requires chunkSize > 0 && events != []
    ensures Run(chunkSize, events) == Step(Run(chunkSize, events[..|events| - 1]), events[|events| - 1])
  {
  }

  // Before its end an upload has filed nothing and no write is its last.
  lemma OpenBefore(chunkSize: nat, events: seq<Event>)
    requires chunkSize > 0 && !Run(chunkSize, events).u.streamEnd
    ensures var u := Run(chunkSize, events).u; u.files == [] && !u.done && forall g <- u.groups :: !g.ends
  {
    hide Run, Sound, Ending, Damaged, Open, Counted;
    RunKeeps(chunkSize, events);
    var u := Run(chunkSize, events).u;
    forall g | g in u.groups
      ensures !g.ends
    {
      var k :| 0 <= k < |u.groups| && u.groups[k] == g;
      assert !u.groups[k].ends;
    }
  }
}
