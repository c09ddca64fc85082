/**
 Uploading a file (src/gridfs/upload.ts): bytes are carried in a buffer of one chunk, full
 chunks are inserted without waiting, and the files document is inserted when the last
 insert is acknowledged after `end`.
 */
module GridFSUploads {
  import opened Wrappers
  import opened Bytes

  datatype Chunk = Chunk(n: nat, data: seq<byte>)
  datatype FilesDoc = FilesDoc(length: nat, chunkSize: nat)

  // ----- Cutting bytes into chunks -----

  // The full chunks at the front of some bytes, numbered from n on, and the bytes after them.
  function FullChunks(data: seq<byte>, chunkSize: nat, n: nat): seq<Chunk>
    requires chunkSize > 0
    decreases |data|
  {
    if |data| < chunkSize then []
    else [Chunk(n, data[..chunkSize])] + FullChunks(data[chunkSize..], chunkSize, n + 1)
  }

  function Remnant(data: seq<byte>, chunkSize: nat): (r: seq<byte>)
    requires chunkSize > 0
    ensures |r| < chunkSize
    decreases |data|
  {
    if |data| < chunkSize then data else Remnant(data[chunkSize..], chunkSize)
  }

  // The chunks of a whole file: the full ones and, if bytes are left, a shorter last one.
  function Layout(data: seq<byte>, chunkSize: nat): seq<Chunk>
    requires chunkSize > 0
  {
    var full, rest := FullChunks(data, chunkSize, 0), Remnant(data, chunkSize);
    if rest == [] then full else full + [Chunk(|full|, rest)]
  }

  // A buffer that is exactly full is the next chunk.
  lemma CutFront(full: seq<byte>, after: seq<byte>, chunkSize: nat, n: nat)
    requires |full| == chunkSize > 0
    ensures FullChunks(full + after, chunkSize, n) == [Chunk(n, full)] + FullChunks(after, chunkSize, n + 1)
    ensures Remnant(full + after, chunkSize) == Remnant(after, chunkSize)
  {
    assert (full + after)[..chunkSize] == full && (full + after)[chunkSize..] == after;
  }

  lemma NoFullChunk(data: seq<byte>, chunkSize: nat, n: nat)
    requires |data| < chunkSize
    ensures FullChunks(data, chunkSize, n) == [] && Remnant(data, chunkSize) == data
  {
  }

  // One turn of the flushing loop: the buffer is full, so its chunk leaves the front.
  lemma FlushStep(all: seq<byte>, first: nat, issued: seq<Chunk>, full: seq<byte>, after: seq<byte>, chunkSize: nat,
                  n: nat)
    requires |full| == chunkSize > 0
    requires FullChunks(all, chunkSize, first) == issued + FullChunks(full + after, chunkSize, n)
    ensures FullChunks(all, chunkSize, first) == issued + [Chunk(n, full)] + FullChunks(after, chunkSize, n + 1)
    ensures Remnant(full + after, chunkSize) == Remnant(after, chunkSize)
  {
    CutFront(full, after, chunkSize, n);
  }

  lemma {:induction false} ChunksAppend(a: seq<byte>, b: seq<byte>, chunkSize: nat, n: nat)
    requires chunkSize > 0
    ensures var first, rest := FullChunks(a, chunkSize, n), Remnant(a, chunkSize);
      && FullChunks(a + b, chunkSize, n) == first + FullChunks(rest + b, chunkSize, n + |first|)
      && Remnant(a + b, chunkSize) == Remnant(rest + b, chunkSize)
    decreases |a|
  {
    hide FullChunks, Remnant;
    if |a| < chunkSize {
      NoFullChunk(a, chunkSize, n);
      assert [] + FullChunks(a + b, chunkSize, n) == FullChunks(a + b, chunkSize, n);
    } else {
      var head, tail := a[..chunkSize], a[chunkSize..];
      assert a == head + tail && a + b == head + (tail + b);
      CutFront(head, tail, chunkSize, n);
      CutFront(head, tail + b, chunkSize, n);
      ChunksAppend(tail, b, chunkSize, n + 1);
      var first := FullChunks(tail, chunkSize, n + 1);
      var more := FullChunks(Remnant(tail, chunkSize) + b, chunkSize, n + 1 + |first|);
      assert [Chunk(n, head)] + (first + more) == [Chunk(n, head)] + first + more;
    }
  }

  // ----- The stream and its outstanding inserts -----

  datatype Status = Pending | Acked | Rejected

  // An insert of a chunk; `group` is the write that issued it, None for the remnant.
  datatype Insert = Insert(chunk: Chunk, group: Option<nat>, status: Status)

  // One write that flushed: how many of its inserts are out, and whether its callback is
  // the one `end` passed, which writes the remnant.
  datatype Group = Group(outstanding: int, ends: bool)

  datatype Upload = Upload(
    chunkSize: nat, carry: seq<byte>, n: nat, length: nat,
    done: bool, streamEnd: bool, errored: bool, aborted: bool,
    outstanding: int, groups: seq<Group>, inserts: seq<Insert>, files: seq<FilesDoc>)

  function Fresh(chunkSize: nat): Upload
  {
    Upload(chunkSize, [], 0, 0, false, false, false, false, 0, [], [], [])
  }

  function Issue(chunks: seq<Chunk>, group: Option<nat>): (issued: seq<Insert>)
    ensures |issued| == |chunks|
    ensures forall i :: 0 <= i < |issued| ==> issued[i] == Insert(chunks[i], group, Pending)
  {
    seq(|chunks|, i requires 0 <= i < |chunks| => Insert(chunks[i], group, Pending))
  }

  lemma IssueSnoc(chunks: seq<Chunk>, chunk: Chunk, group: Option<nat>)
    ensures Issue(chunks + [chunk], group) == Issue(chunks, group) + Issue([chunk], group)
  {
    assert forall i :: 0 <= i < |chunks| ==> (chunks + [chunk])[i] == chunks[i];
  }

  function CheckDone(u: Upload): (v: Upload)
    ensures v.chunkSize == u.chunkSize
  {
    if u.done || !u.streamEnd || u.outstanding != 0 || u.errored then u
    else if u.aborted then u.(done := true)
    else u.(done := true, files := u.files + [FilesDoc(u.length, u.chunkSize)])
  }

  function WriteRemnant(u: Upload): (v: Upload)
    ensures v.chunkSize == u.chunkSize
  {
    if u.carry == [] then CheckDone(u)
    else if u.aborted then u.(outstanding := u.outstanding + 1)
    else u.(outstanding := u.outstanding + 1, inserts := u.inserts + Issue([Chunk(u.n, u.carry)], None))
  }

  function DoWrite(u: Upload, data: seq<byte>, ends: bool): (v: Upload)
    requires u.chunkSize > 0
    ensures v.chunkSize == u.chunkSize
  {
    if u.aborted then u
    else
      var all := u.carry + data;
      var grown := u.(length := u.length + |data|, carry := Remnant(all, u.chunkSize));
      if |all| < u.chunkSize then if ends then WriteRemnant(grown) else grown
      else
        var chunks := FullChunks(all, u.chunkSize, u.n);
        grown.(n := u.n + |chunks|,
               outstanding := u.outstanding + |chunks|,
               groups := u.groups + [Group(|chunks|, ends)],
               inserts := u.inserts + Issue(chunks, Some(|u.groups|)))
  }

  function End(u: Upload, last: Option<seq<byte>>): (v: Upload)
    requires u.chunkSize > 0
    ensures v.chunkSize == u.chunkSize
  {
    if u.streamEnd || u.aborted then u
    else if last.None? then WriteRemnant(u.(streamEnd := true))
    else DoWrite(u.(streamEnd := true), last.value, true)
  }

  function Abort(u: Upload): (v: Upload)
    ensures v.chunkSize == u.chunkSize
  {
    if u.streamEnd || u.aborted then u else u.(aborted := true)
  }

  predicate CanAnswer(u: Upload, i: nat)
  {
    i < |u.inserts| && u.inserts[i].status == Pending
    && (u.inserts[i].group.Some? ==> u.inserts[i].group.value < |u.groups|)
  }

  function AckInsert(u: Upload, i: nat): (v: Upload)
    requires CanAnswer(u, i)
    ensures v.chunkSize == u.chunkSize
  {
    var request := u.inserts[i];
    var acked := u.(inserts := u.inserts[i := request.(status := Acked)], outstanding := u.outstanding - 1);
    if request.group.None? then CheckDone(acked)
    else
      var g := request.group.value;
      var group := u.groups[g].(outstanding := u.groups[g].outstanding - 1);
      var counted := acked.(groups := u.groups[g := group]);
      if group.outstanding != 0 then counted
      else CheckDone(if group.ends then WriteRemnant(counted) else counted)
  }

  // An error leaves the counters as they are, so they never reach zero again.
  function RejectInsert(u: Upload, i: nat): (v: Upload)
    requires CanAnswer(u, i)
    ensures v.chunkSize == u.chunkSize
  {
    u.(inserts := u.inserts[i := u.inserts[i].(status := Rejected)], errored := true)
  }

  // ----- The class -----

  class GridFSBucketWriteStream {
    const chunkSizeBytes: nat
    const bufToStore: array<byte>
    var pos: nat
    var n: nat
    var length: nat
    var done: bool
    var streamEnd: bool
    var errored: bool
    var aborted: bool
    var outstandingRequests: int
    // The environment's side: requests issued so far, and the counter each write closed over.
    var groups: seq<Group>
    var inserts: seq<Insert>
    var files: seq<FilesDoc>

    ghost predicate Valid()
      reads this, bufToStore
    {
      pos < chunkSizeBytes == bufToStore.Length
    }

    ghost function State(): Upload
      requires Valid()
      reads this, bufToStore
    {
      Upload(chunkSizeBytes, bufToStore[..pos], n, length, done, streamEnd, errored, aborted,
             outstandingRequests, groups, inserts, files)
    }

    constructor (chunkSizeBytes: nat)
      requires chunkSizeBytes > 0
      ensures Valid() && fresh(bufToStore) && State() == Fresh(chunkSizeBytes)
    {
      this.chunkSizeBytes := chunkSizeBytes;
      bufToStore := new byte[chunkSizeBytes](_ => 0);
      pos, n, length, outstandingRequests := 0, 0, 0, 0;
      done, streamEnd, errored, aborted := false, false, false, false;
      groups, inserts, files := [], [], [];
    }

    method CheckDoneNow()
      requires Valid()
      modifies this
      ensures Valid() && State() == CheckDone(old(State()))
    {
      if done {
        return;
      }
      if streamEnd && outstandingRequests == 0 && !errored {
        done := true;
        if aborted {
          return;
        }
        files := files + [FilesDoc(length, chunkSizeBytes)];
      }
    }

    method WriteRemnantNow()
      requires Valid()
      modifies this
      ensures Valid() && State() == WriteRemnant(old(State()))
    {
      if pos == 0 {
        CheckDoneNow();
        return;
      }
      outstandingRequests := outstandingRequests + 1;
      if aborted {
        return;
      }
      inserts := inserts + Issue([Chunk(n, bufToStore[..pos])], None);
    }

    method Write(chunk: seq<byte>)
      requires Valid()
      modifies this, bufToStore
      ensures Valid() && State() == DoWrite(old(State()), chunk, false)
    {
      DoWriteNow(chunk, false);
    }

    method DoWriteNow(inputBuf: seq<byte>, ends: bool)
      requires Valid()
      modifies this, bufToStore
      ensures Valid() && State() == DoWrite(old(State()), inputBuf, ends)
    {
      if aborted {
        return;
      }
      ghost var all := bufToStore[..pos] + inputBuf;
      length := length + |inputBuf|;
      if pos + |inputBuf| < chunkSizeBytes {
        Fill(inputBuf, 0, |inputBuf|);
        assert bufToStore[..pos] == all;
        if ends {
          WriteRemnantNow();
        }
        return;
      }
      Flush(inputBuf, ends);
    }

    // One copy of the loop below, into the space behind pos.
    method Fill(inputBuf: seq<byte>, from: nat, count: nat)
      requires Valid() && pos + count <= chunkSizeBytes && from + count <= |inputBuf|
      modifies `pos, bufToStore
      ensures pos == old(pos) + count
      ensures bufToStore[..pos] == old(bufToStore[..pos]) + inputBuf[from..from + count]
    {
      var copied := Copy(inputBuf, bufToStore, pos, from, from + count);
      assert bufToStore[..pos + count] == bufToStore[..pos] + bufToStore[pos..pos + copied];
      pos := pos + count;
    }

    // The full buffer goes out as chunk n.
    method InsertFull(group: Option<nat>)
      requires pos == chunkSizeBytes == bufToStore.Length
      modifies `pos, `n, `outstandingRequests, `inserts
      ensures pos == 0 && n == old(n) + 1 && outstandingRequests == old(outstandingRequests) + 1
      ensures inserts == old(inserts) + Issue([Chunk(old(n), bufToStore[..])], group)
    {
      inserts := inserts + Issue([Chunk(n, bufToStore[..])], group);
      outstandingRequests := outstandingRequests + 1;
      pos := 0;
      n := n + 1;
    }

    // The copy loop: fill the buffer, insert it when full, go on with what is left.
    method Flush(inputBuf: seq<byte>, ends: bool)
      requires Valid() && pos + |inputBuf| >= chunkSizeBytes
      modifies `pos, `n, `outstandingRequests, `groups, `inserts, bufToStore
      ensures Valid()
      ensures var all, cs := old(bufToStore[..pos]) + inputBuf, chunkSizeBytes;
        var chunks := FullChunks(all, cs, old(n));
        State() == old(State()).(
          carry := Remnant(all, cs), n := old(n) + |chunks|,
          outstanding := old(outstandingRequests) + |chunks|,
          groups := old(groups) + [Group(|chunks|, ends)],
          inserts := old(inserts) + Issue(chunks, Some(|old(groups)|)))
    {
      hide FullChunks, Remnant;
      ghost var cs, all := chunkSizeBytes, bufToStore[..pos] + inputBuf;
      ghost var issued: seq<Chunk>, left := [], all;
      var group := Some(|groups|);
      var inputBufRemaining := |inputBuf|;
      var spaceRemaining := chunkSizeBytes - pos;
      var numToCopy := Min(spaceRemaining, |inputBuf|);
      var outstanding := 0;
      while inputBufRemaining > 0
        invariant Valid() && 0 <= inputBufRemaining <= |inputBuf|
        invariant spaceRemaining == cs - pos && numToCopy == Min(spaceRemaining, inputBufRemaining)
        invariant left == bufToStore[..pos] + inputBuf[|inputBuf| - inputBufRemaining..]
        invariant FullChunks(all, cs, old(n)) == issued + FullChunks(left, cs, n)
        invariant Remnant(all, cs) == Remnant(left, cs)
        invariant n == old(n) + |issued| && outstanding == |issued|
        invariant outstandingRequests == old(outstandingRequests) + |issued|
        invariant inserts == old(inserts) + Issue(issued, group)
        invariant groups == old(groups)
        decreases inputBufRemaining
      {
        var inputBufPos := |inputBuf| - inputBufRemaining;
        ghost var after := inputBuf[inputBufPos + numToCopy..];
        assert inputBuf[inputBufPos..] == inputBuf[inputBufPos..inputBufPos + numToCopy] + after;
        Fill(inputBuf, inputBufPos, numToCopy);
        assert left == bufToStore[..pos] + after;
        spaceRemaining := spaceRemaining - numToCopy;
        if spaceRemaining == 0 {
          ghost var full := bufToStore[..];
          assert bufToStore[..pos] == full;
          FlushStep(all, old(n), issued, full, after, cs, n);
          IssueSnoc(issued, Chunk(n, full), group);
          issued := issued + [Chunk(n, full)];
          InsertFull(group);
          outstanding := outstanding + 1;
          spaceRemaining := chunkSizeBytes;
          left := after;
        }
        inputBufRemaining := inputBufRemaining - numToCopy;
        numToCopy := Min(spaceRemaining, inputBufRemaining);
      }
      assert left == bufToStore[..pos];
      NoFullChunk(left, cs, n);
      groups := groups + [Group(outstanding, ends)];
    }

    method EndStream(last: Option<seq<byte>>)
      requires Valid()
      modifies this, bufToStore
      ensures Valid() && State() == End(old(State()), last)
    {
      if streamEnd || aborted {
        return;
      }
      streamEnd := true;
      if last.None? {
        WriteRemnantNow();
      } else {
        DoWriteNow(last.value, true);
      }
    }

    method AbortStream()
      requires Valid()
      modifies this
      ensures Valid() && State() == Abort(old(State()))
    {
      if streamEnd || aborted {
        return;
      }
      aborted := true;
    }

    // The callback of one chunk insert.
    method OnInsert(i: nat, ok: bool)
      requires Valid() && CanAnswer(State(), i)
      modifies this
      ensures Valid() && State() == if ok then AckInsert(old(State()), i) else RejectInsert(old(State()), i)
    {
      var request := inserts[i];
      if !ok {
        inserts := inserts[i := request.(status := Rejected)];
        HandleError();
        return;
      }
      inserts := inserts[i := request.(status := Acked)];
      outstandingRequests := outstandingRequests - 1;
      if request.group.Some? {
        var g := request.group.value;
        groups := groups[g := groups[g].(outstanding := groups[g].outstanding - 1)];
        if groups[g].outstanding != 0 {
          return;
        }
        if groups[g].ends {
          WriteRemnantNow();
        }
      }
      CheckDoneNow();
    }

    method HandleError()
      requires Valid()
      modifies this`errored
      ensures errored
    {
      if errored {
        return;
      }
      errored := true;
    }
  }

}
