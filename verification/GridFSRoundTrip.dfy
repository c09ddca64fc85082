/**
 What a download delivers of a file in its chunk layout, and so of a finished upload: the
 requested range, chunk by chunk, without an error.
 */
module GridFSRoundTrip {
  import opened Wrappers
  import opened Sequences
  import opened Bytes
  import opened GridFSUploads
  import opened GridFSDownloads
  import GridFSUploadRuns

  // ----- The layout by index -----

  // Where chunk i starts, and which chunk holds byte a. Kept behind names so that the
  // proofs below are about sums, with these lemmas as the only facts on products.
  function At(i: int, chunkSize: int): int
  {
    i * chunkSize
  }

  function Floor(a: int, chunkSize: int): int
    requires chunkSize > 0
  {
    a / chunkSize
  }

  lemma AtNext(i: int, c: int)
    ensures At(0, c) == 0 && At(i + 1, c) == At(i, c) + c
  {
  }

  lemma AtLess(i: int, j: int, c: int)
    requires i < j && c > 0
    ensures At(i, c) + c <= At(j, c)
  {
    assert (j - i - 1) * c >= 0;
    assert j * c == i * c + c + (j - i - 1) * c;
  }

  lemma FloorAt(a: int, c: int)
    requires c > 0
    ensures At(Floor(a, c), c) <= a < At(Floor(a, c), c) + c
    ensures a >= 0 ==> Floor(a, c) >= 0
  {
    assert a == a / c * c + a % c;
  }

  lemma FloorUnique(a: int, q: int, c: int)
    requires c > 0 && At(q, c) <= a < At(q, c) + c
    ensures Floor(a, c) == q
  {
    FloorAt(a, c);
    if Floor(a, c) < q {
      AtLess(Floor(a, c), q, c);
    } else if q < Floor(a, c) {
      AtLess(q, Floor(a, c), c);
    }
  }

  lemma CeilAt(a: int, c: int)
    requires c > 0 && a >= 0
    ensures Ceil(0, c) == 0 <= Ceil(a, c)
    ensures a > 0 ==> At(Ceil(a, c), c) - c < a <= At(Ceil(a, c), c) && Ceil(a, c) > 0
  {
    FloorAt(a + c - 1, c);
    FloorUnique(c - 1, 0, c);
    assert Ceil(a, c) == Floor(a + c - 1, c);
    assert At(0, c) == 0;
  }

  lemma CeilUnique(a: int, q: int, c: int)
    requires c > 0 && a > 0 && At(q, c) - c < a <= At(q, c)
    ensures Ceil(a, c) == q
  {
    FloorUnique(a + c - 1, q, c);
    assert Ceil(a, c) == Floor(a + c - 1, c);
  }

  lemma {:induction false} FullChunkAt(data: seq<byte>, c: nat, n: nat, i: nat)
    requires c > 0
    ensures var q := Floor(|data|, c);
      && |FullChunks(data, c, n)| == q && 0 <= At(q, c) <= |data|
      && Remnant(data, c) == data[At(q, c)..]
      && (i < q ==> 0 <= At(i, c) && At(i, c) + c <= |data|
                    && FullChunks(data, c, n)[i] == Chunk(n + i, data[At(i, c)..At(i, c) + c]))
    decreases |data|
  {
    hide At, Floor;
    if |data| < c {
      AtNext(0, c);
      FloorUnique(|data|, 0, c);
    } else {
      var tail := data[c..];
      var q := Floor(|tail|, c);
      FloorAt(|tail|, c);
      AtNext(q, c);
      FloorUnique(|data|, q + 1, c);
      AtNext(i - 1, c);
      FullChunkAt(tail, c, n + 1, if i == 0 then 0 else i - 1);
    }
  }

  // Chunk i of a file covers the bytes from i * chunkSize on.
  lemma LayoutAt(data: seq<byte>, c: nat, i: nat)
    requires c > 0
    ensures |Layout(data, c)| == Ceil(|data|, c)
    ensures i < Ceil(|data|, c) ==>
      && 0 <= At(i, c) < |data|
      && Layout(data, c)[i] == Chunk(i, data[At(i, c)..Min(At(i, c) + c, |data|)])
  {
    hide At, Floor, Ceil, FullChunks, Remnant;
    var q := Floor(|data|, c);
    FullChunkAt(data, c, 0, i);
    FloorAt(|data|, c);
    CeilAt(|data|, c);
    AtNext(q, c);
    AtNext(0, c);
    if |data| == At(q, c) {
      if |data| > 0 {
        CeilUnique(|data|, q, c);
      } else if q > 0 {
        AtLess(0, q, c);
      }
    } else {
      CeilUnique(|data|, q + 1, c);
    }
  }

  // ----- The chunks collection -----

  type Store = map<int, seq<byte>>

  function Stored(chunks: seq<Chunk>): Store
  {
    map i | 0 <= i < |chunks| :: i := chunks[i].data
  }

  // A result of the query: ascending, from the file's chunks with n >= from, and nothing
  // left out but what the limit cuts off at the end.
  ghost predicate IsResult(store: Store, q: Query, docs: seq<Chunk>)
  {
    && (forall i :: 0 <= i < |docs| ==> docs[i].n in store && docs[i].data == store[docs[i].n] && docs[i].n >= q.from)
    && (forall i, j :: 0 <= i < j < |docs| ==> docs[i].n < docs[j].n)
    && (q.limit > 0 ==> |docs| <= q.limit)
    && (forall k :: k in store && k >= q.from ==> Found(q, docs, k))
  }

  ghost predicate Found(q: Query, docs: seq<Chunk>, k: int)
  {
    || (exists i :: 0 <= i < |docs| && docs[i].n == k)
    || (q.limit > 0 && |docs| == q.limit && forall i :: 0 <= i < |docs| ==> docs[i].n < k)
  }

  // The documents are chunk k of the file, chunk k + 1, and so on.
  predicate InOrder(docs: seq<Chunk>, k: nat)
  {
    forall i :: 0 <= i < |docs| ==> docs[i].n == k + i
  }

  // No chunk the query asks for is missing in front of one that is there.
  predicate NoGap(store: Store, q: Query)
  {
    forall j, k :: q.from <= j < k && j !in store && k in store ==> q.limit > 0 && j >= q.from + q.limit
  }

  lemma GapsInResult(store: Store, q: Query, docs: seq<Chunk>)
    requires IsResult(store, q, docs) && q.from >= 0
    ensures InOrder(docs, q.from) <==> NoGap(store, q)
  {
    if NoGap(store, q) {
      for i := 0 to |docs|
        invariant forall j :: 0 <= j < i ==> docs[j].n == q.from + j
      {
        assert docs[i].n >= q.from + i by {
          if i > 0 {
            assert docs[i - 1].n < docs[i].n;
          }
        }
        assert q.from + i in store;
        assert Found(q, docs, q.from + i);
      }
    }
    if InOrder(docs, q.from) {
      forall x | q.from <= x < q.from + |docs|
        ensures x in store
      {
        assert docs[x - q.from].n in store;
      }
      forall j, k | q.from <= j < k && j !in store && k in store
        ensures q.limit > 0 && j >= q.from + q.limit
      {
        assert Found(q, docs, k);
      }
    }
  }

  // A file without gaps answers with the chunks from `from` on, one after the other.
  lemma ResultOfLayout(chunks: seq<Chunk>, q: Query, docs: seq<Chunk>)
    requires 0 <= q.from <= |chunks| && q.limit >= 0 && IsResult(Stored(chunks), q, docs)
    ensures |docs| == if q.limit > 0 then Min(q.limit, |chunks| - q.from) else |chunks| - q.from
    ensures forall i :: 0 <= i < |docs| ==> docs[i].n == q.from + i && docs[i].data == chunks[q.from + i].data
  {
    GapsInResult(Stored(chunks), q, docs);
    assert |docs| <= |chunks| - q.from by {
      if |docs| > 0 {
        assert docs[|docs| - 1].n in Stored(chunks);
      }
    }
    if |docs| < |chunks| - q.from {
      assert q.from + |docs| in Stored(chunks) && Found(q, docs, q.from + |docs|);
    }
  }

  // ----- Reading chunk after chunk -----

  // The byte the stream stops before: the end option, unless it is 0 or the range is empty
  // at a chunk boundary. Then the cursor has no limit and the rest of the file comes.
  function Stop(length: nat, c: nat, start: nat, end: nat): nat
    requires c > 0
  {
    if Floor(start, c) < Ceil(end, c) then end else length
  }

  // The reader between two chunks: chunk k is next, and everything before it is pushed.
  ghost predicate Reading(r: Reader, data: seq<byte>, c: nat, start: nat, end: nat, k: nat)
    requires c > 0
  {
    var last, stop := Ceil(end, c), Stop(|data|, c, start, end);
    && r.file == Some(File(|data|, c)) && r.start == Some(start) && r.end == Some(end)
    && r.error == None && !r.ended
    && r.expectedEnd == last && r.bytesToTrim == At(last, c) - end
    && r.expected == k && r.bytesRead == Min(At(k, c), |data|)
    && Floor(start, c) <= k
    && r.bytesToSkip == (if k == Floor(start, c) then start - At(k, c) else 0)
    && start <= stop <= |data|
    && Flatten(r.pushed) == data[start..Reached(c, start, stop, k)]
  }

  function Reached(c: nat, start: nat, stop: nat, k: nat): (at: nat)
    requires c > 0 && start <= stop
    ensures start <= at <= stop
  {
    if k <= Floor(start, c) || At(k, c) <= start then start else Min(At(k, c), stop)
  }

  predicate Range(length: nat, start: nat, end: nat)
  {
    start <= length && end <= length && (start <= end)
  }

  lemma InitReads(data: seq<byte>, c: nat, start: nat, end: nat)
    requires c > 0 && data != [] && Range(|data|, start, end)
    ensures var r := Init(Open(Some(start), Some(end)), Some(File(|data|, c)));
      && Reading(r, data, c, start, end, Floor(start, c))
      && r.query == Some(Query(Floor(start, c), Ceil(end, c) - Floor(start, c)))
      && 0 <= Floor(start, c) <= Ceil(end, c)
  {
    FloorAt(start, c);
    CeilAt(end, c);
    AtNext(0, c);
    if start > 0 && Ceil(end, c) < Floor(start, c) {
      AtLess(Ceil(end, c), Floor(start, c), c);
    }
    if start == 0 {
      FloorUnique(0, 0, c);
    }
    assert Floor(start, c) == start / c && At(Floor(start, c), c) == start / c * c;
    assert At(Ceil(end, c), c) == Ceil(end, c) * c;
  }

  // How the slice of chunk k ends, in bytes of the file. Only the last chunk of the range is
  // cut at its end; the branch that compares with the end option itself never fires.
  lemma SliceEndAt(r: Reader, data: seq<byte>, c: nat, start: nat, end: nat, k: nat, length: nat)
    requires c > 0 && Reading(r, data, c, start, end, k) && Range(|data|, start, end)
    requires 0 < length == Min(c, |data| - At(k, c))
    requires k < Ceil(end, c) || Floor(start, c) >= Ceil(end, c)
    ensures var e := SliceEnd(r.(bytesToSkip := 0), k, length);
      var stop := Stop(|data|, c, start, end);
      (if e.None? then length else e.value) == Min(length, stop - At(k, c)) > 0
      && (e.Some? ==> e.value > 0)
      && (k != Ceil(end, c) - 1 ==> e == None)
  {
    hide At, Floor, Ceil, Flatten;
    var last := Ceil(end, c);
    CeilAt(end, c);
    AtNext(k, c);
    AtNext(0, c);
    FloorAt(start, c);
    if k < last {
      if k < last - 1 {
        AtLess(k, last - 1, c);
        AtNext(last - 1, c);
        if k > 0 {
          AtLess(0, k, c);
        }
      }
    } else if end > 0 {
      if last < Floor(start, c) {
        AtLess(last, Floor(start, c), c);
      }
      AtLess(0, last, c);
    }
  }

  // Chunk k of the file, as a predicate on one document.
  predicate IsChunk(data: seq<byte>, c: nat, k: int, doc: Chunk)
    requires c > 0
  {
    doc.n == k && 0 <= At(k, c) < |data| && doc.data == data[At(k, c)..Min(At(k, c) + c, |data|)]
  }

  lemma ReadNext(r: Reader, data: seq<byte>, c: nat, start: nat, end: nat, k: nat, doc: Chunk)
    requires c > 0 && Reading(r, data, c, start, end, k) && Range(|data|, start, end)
    requires IsChunk(data, c, k, doc) && (k < Ceil(end, c) || Floor(start, c) >= Ceil(end, c))
    ensures Reading(DoRead(r, Some(doc)), data, c, start, end, k + 1)
  {
    hide At, Floor, Ceil, Flatten;
    var stop := Stop(|data|, c, start, end);
    AtNext(k, c);
    FloorAt(start, c);
    if Floor(start, c) < k {
      AtLess(Floor(start, c), k, c);
    }
    SliceEndAt(r, data, c, start, end, k, |doc.data|);
    var to := Min(|doc.data|, stop - At(k, c));
    var piece := Slice(doc.data, r.bytesToSkip, to);
    assert DoRead(r, Some(doc)).pushed == r.pushed + [piece];
    FlattenSnoc(r.pushed, piece);
    PieceAt(data, c, start, stop, k, doc.data, r.bytesToSkip, to);
  }

  lemma SliceOfSlice(data: seq<byte>, a: nat, b: nat, i: nat, j: nat)
    requires a <= b <= |data| && i <= j <= b - a
    ensures data[a..b][i..j] == data[a + i..a + j]
  {
    var whole, piece := data[a..b][i..j], data[a + i..a + j];
    forall k | 0 <= k < j - i
      ensures whole[k] == piece[k]
    {
      assert whole[k] == data[a..b][i + k] && piece[k] == data[(a + i) + k];
    }
    assert whole == piece;
  }

  // The piece pushed for chunk k continues the bytes pushed before.
  lemma PieceAt(data: seq<byte>, c: nat, start: nat, stop: nat, k: nat, buf: seq<byte>, skip: int, to: int)
    requires c > 0 && start <= stop <= |data| && 0 <= At(k, c) < |data|
      && buf == data[At(k, c)..Min(At(k, c) + c, |data|)]
    requires Floor(start, c) <= k && skip == (if k == Floor(start, c) then start - At(k, c) else 0)
    requires to == Min(|buf|, stop - At(k, c)) > 0
    ensures data[start..Reached(c, start, stop, k)] + Slice(buf, skip, to)
      == data[start..Reached(c, start, stop, k + 1)]
  {
    hide At, Floor;
    AtNext(k, c);
    FloorAt(start, c);
    if Floor(start, c) < k {
      AtLess(Floor(start, c), k, c);
    }
    var from := Reached(c, start, stop, k);
    assert from == At(k, c) + skip;
    assert Reached(c, start, stop, k + 1) == At(k, c) + to || skip >= to;
    if skip < to {
      SliceOfSlice(data, At(k, c), At(k, c) + |buf|, skip, to);
    }
  }

  lemma {:induction false} ReadChunks(r: Reader, data: seq<byte>, c: nat, start: nat, end: nat, k: nat,
                                      docs: seq<Chunk>)
    requires c > 0 && Reading(r, data, c, start, end, k) && Range(|data|, start, end)
    requires forall i :: 0 <= i < |docs| ==> IsChunk(data, c, k + i, docs[i])
    requires k + |docs| <= Ceil(end, c) || Floor(start, c) >= Ceil(end, c)
    ensures var out := ReadAll(r, docs);
      && out.error == None && out.ended
      && Flatten(out.pushed) == data[start..Reached(c, start, Stop(|data|, c, start, end), k + |docs|)]
    decreases |docs|
  {
    hide At, Floor, Ceil, Flatten, Reached, Stop;
    if docs != [] {
      assert IsChunk(data, c, k + 0, docs[0]);
      ReadNext(r, data, c, start, end, k, docs[0]);
      forall i | 0 <= i < |docs[1..]|
        ensures IsChunk(data, c, k + 1 + i, docs[1..][i])
      {
        assert IsChunk(data, c, k + (i + 1), docs[i + 1]);
      }
      ReadChunks(DoRead(r, Some(docs[0])), data, c, start, end, k + 1, docs[1..]);
    }
  }

  // Chunks of the file from k on, in ascending order, any of which may be missing.
  predicate Ascending(data: seq<byte>, c: nat, k: nat, docs: seq<Chunk>)
    requires c > 0
  {
    && (forall i :: 0 <= i < |docs| ==> docs[i].n >= k && IsChunk(data, c, docs[i].n, docs[i]))
    && (forall i, j :: 0 <= i < j < |docs| ==> docs[i].n < docs[j].n)
  }

  lemma AscendingTail(data: seq<byte>, c: nat, k: nat, docs: seq<Chunk>)
    requires c > 0 && docs != [] && Ascending(data, c, k, docs)
    ensures docs[0].n == k ==> Ascending(data, c, k + 1, docs[1..]) && (InOrder(docs, k) <==> InOrder(docs[1..], k + 1))
    ensures docs[0].n >= k && IsChunk(data, c, docs[0].n, docs[0]) && (docs[0].n > k ==> !InOrder(docs, k))
  {
    hide IsChunk;
    var tail := docs[1..];
    if docs[0].n == k {
      forall i | 0 <= i < |tail|
        ensures tail[i].n >= k + 1 && IsChunk(data, c, tail[i].n, tail[i])
      {
        assert docs[0].n < docs[i + 1].n;
      }
      if InOrder(tail, k + 1) {
        forall i | 0 <= i < |docs|
          ensures docs[i].n == k + i
        {
          assert i > 0 ==> docs[i] == tail[i - 1];
        }
      }
    }
  }

  // The first document out of its place ends the stream with an error.
  lemma {:induction false} ReadFound(r: Reader, data: seq<byte>, c: nat, start: nat, end: nat, k: nat, docs: seq<Chunk>)
    requires c > 0 && Reading(r, data, c, start, end, k) && Range(|data|, start, end)
    requires Ascending(data, c, k, docs)
    requires k + |docs| <= Ceil(end, c) || Floor(start, c) >= Ceil(end, c)
    ensures start <= Stop(|data|, c, start, end) <= |data|
    ensures var out := ReadAll(r, docs);
      && (if InOrder(docs, k) then out.error == None && out.ended else out.error == Some(ChunkIsMissing) && !out.ended)
      && Flatten(out.pushed) <= data[start..Stop(|data|, c, start, end)]
    decreases |docs|
  {
    hide At, Floor, Ceil, Flatten, Reached, Stop, Ascending, InOrder;
    PushedPrefix(r, data, c, start, end, k);
    if docs == [] {
      NothingInOrder(k);
    } else {
      AscendingTail(data, c, k, docs);
      if docs[0].n == k {
        ReadNext(r, data, c, start, end, k, docs[0]);
        ReadFound(DoRead(r, Some(docs[0])), data, c, start, end, k + 1, docs[1..]);
      }
    }
  }

  lemma NothingInOrder(k: nat)
    ensures InOrder([], k)
  {
  }

  lemma PushedPrefix(r: Reader, data: seq<byte>, c: nat, start: nat, end: nat, k: nat)
    requires c > 0 && Reading(r, data, c, start, end, k)
    ensures r.file.Some? && start <= Stop(|data|, c, start, end) <= |data|
    ensures Flatten(r.pushed) <= data[start..Stop(|data|, c, start, end)]
  {
    hide At, Floor, Ceil, Flatten, Stop;
    var stop := Stop(|data|, c, start, end);
    var at := Reached(c, start, stop, k);
    assert data[start..stop] == data[start..at] + data[at..stop];
  }

  // ----- Main results -----

  function StoredFile(data: seq<byte>, c: nat): Store
    requires c > 0
  {
    Stored(Layout(data, c))
  }

  function Start(length: nat, c: nat, start: nat, end: nat): Reader
    requires c > 0
  {
    Init(Open(Some(start), Some(end)), Some(File(length, c)))
  }

  // A download of a file in its layout never reports a chunk error and delivers the bytes
  // from `start` to the stop, for every range that passes the option checks.
  lemma DownloadDelivers(data: seq<byte>, c: nat, start: nat, end: nat, q: Query, docs: seq<Chunk>)
    requires c > 0 && data != [] && Range(|data|, start, end)
    requires Start(|data|, c, start, end).query == Some(q) && IsResult(StoredFile(data, c), q, docs)
    ensures Start(|data|, c, start, end).file.Some? && start <= Stop(|data|, c, start, end) <= |data|
    ensures var out := ReadAll(Start(|data|, c, start, end), docs);
      && out.error == None && out.ended
      && Flatten(out.pushed) == data[start..Stop(|data|, c, start, end)]
  {
    hide At, Floor, Ceil, Flatten, Layout, Reached, Stop, Init, Reading, IsResult, IsChunk, ReadAll;
    DownloadDocs(data, c, start, end, q, docs);
    InitReads(data, c, start, end);
    PushedPrefix(Start(|data|, c, start, end), data, c, start, end, Floor(start, c));
    ReadChunks(Start(|data|, c, start, end), data, c, start, end, Floor(start, c), docs);
    ReachedStop(|data|, c, start, end, Floor(start, c) + |docs|);
  }

  // A file whose chunks are gone from some point on is not noticed: the stream ends without
  // an error, with the beginning of the range only.
  lemma TruncationUnnoticed(data: seq<byte>, c: nat, start: nat, end: nat, q: Query, docs: seq<Chunk>, got: nat)
    requires c > 0 && data != [] && Range(|data|, start, end)
    requires Start(|data|, c, start, end).query == Some(q) && IsResult(StoredFile(data, c), q, docs)
    requires got < |docs| && start < Stop(|data|, c, start, end)
    ensures Start(|data|, c, start, end).file.Some? && start <= Stop(|data|, c, start, end) <= |data|
    ensures var out := ReadAll(Start(|data|, c, start, end), docs[..got]);
      && out.error == None && out.ended
      && Flatten(out.pushed) < data[start..Stop(|data|, c, start, end)]
  {
    hide At, Floor, Ceil, Flatten, Layout, Stop, Init, Reading, IsResult, IsChunk, ReadAll;
    DownloadDocs(data, c, start, end, q, docs);
    InitReads(data, c, start, end);
    PushedPrefix(Start(|data|, c, start, end), data, c, start, end, Floor(start, c));
    var first, stop := Floor(start, c), Stop(|data|, c, start, end);
    forall i | 0 <= i < got
      ensures IsChunk(data, c, first + i, docs[..got][i])
    {
      assert IsChunk(data, c, first + i, docs[i]);
    }
    ReadChunks(Start(|data|, c, start, end), data, c, start, end, first, docs[..got]);
    ShortOfStop(|data|, c, start, end, first + got);
    var at := Reached(c, start, stop, first + got);
    assert data[start..stop] == data[start..at] + data[at..stop];
  }

  // Some chunks of the file are gone.
  predicate Damaged(store: Store, file: Store)
  {
    forall k :: k in store ==> k in file && store[k] == file[k]
  }

  // Whatever chunks are gone, the download ends without an error exactly when none is missing
  // in front of one that is left; otherwise it reports a missing chunk. What it has pushed is a
  // beginning of the range in any case.
  lemma MissingNoticedExactly(data: seq<byte>, c: nat, start: nat, end: nat, store: Store, q: Query, docs: seq<Chunk>)
    requires c > 0 && data != [] && Range(|data|, start, end) && Damaged(store, StoredFile(data, c))
    requires Start(|data|, c, start, end).query == Some(q) && IsResult(store, q, docs)
    ensures Start(|data|, c, start, end).file.Some? && start <= Stop(|data|, c, start, end) <= |data|
    ensures var out := ReadAll(Start(|data|, c, start, end), docs);
      && (NoGap(store, q) <==> out.error == None)
      && (NoGap(store, q) <==> out.ended)
      && (!NoGap(store, q) ==> out.error == Some(ChunkIsMissing))
      && Flatten(out.pushed) <= data[start..Stop(|data|, c, start, end)]
  {
    hide At, Floor, Ceil, Flatten, Layout, Stop, Init, NoGap, IsResult, Reading, ReadAll;
    InitReads(data, c, start, end);
    PushedPrefix(Start(|data|, c, start, end), data, c, start, end, Floor(start, c));
    FoundAscends(data, c, store, q, docs);
    GapsInResult(store, q, docs);
    ReadFound(Start(|data|, c, start, end), data, c, start, end, Floor(start, c), docs);
  }

  lemma FoundAscends(data: seq<byte>, c: nat, store: Store, q: Query, docs: seq<Chunk>)
    requires c > 0 && Damaged(store, StoredFile(data, c)) && IsResult(store, q, docs) && q.from >= 0
    ensures Ascending(data, c, q.from, docs)
    ensures q.limit > 0 ==> |docs| <= q.limit
  {
    hide At, Ceil, Layout;
    forall i | 0 <= i < |docs|
      ensures IsChunk(data, c, docs[i].n, docs[i])
    {
      LayoutAt(data, c, docs[i].n);
      assert docs[i].n in StoredFile(data, c);
    }
  }

  // The documents of the query, one by one.
  lemma DownloadDocs(data: seq<byte>, c: nat, start: nat, end: nat, q: Query, docs: seq<Chunk>)
    requires c > 0 && data != [] && Range(|data|, start, end)
    requires Start(|data|, c, start, end).query == Some(q) && IsResult(StoredFile(data, c), q, docs)
    ensures Floor(start, c) + |docs| == if Floor(start, c) < Ceil(end, c) then Ceil(end, c) else Ceil(|data|, c)
    ensures forall i :: 0 <= i < |docs| ==> IsChunk(data, c, Floor(start, c) + i, docs[i])
  {
    hide At, Floor, Ceil, Layout, Reading, Init;
    InitReads(data, c, start, end);
    LayoutAt(data, c, 0);
    RangeInLayout(|data|, c, start, end);
    ResultOfLayout(Layout(data, c), q, docs);
    forall i | 0 <= i < |docs|
      ensures IsChunk(data, c, Floor(start, c) + i, docs[i])
    {
      LayoutAt(data, c, Floor(start, c) + i);
    }
  }

  // Before the last chunk of the query, the stop is not reached.
  lemma ShortOfStop(length: nat, c: nat, start: nat, end: nat, k: nat)
    requires c > 0 && length > 0 && Range(length, start, end)
    requires Floor(start, c) <= k < if Floor(start, c) < Ceil(end, c) then Ceil(end, c) else Ceil(length, c)
    requires start < Stop(length, c, start, end)
    ensures Reached(c, start, Stop(length, c, start, end), k) < Stop(length, c, start, end)
  {
    hide At, Floor, Ceil;
    var last := if Floor(start, c) < Ceil(end, c) then Ceil(end, c) else Ceil(length, c);
    CeilAt(end, c);
    CeilAt(length, c);
    AtLess(k, last, c);
    AtNext(0, c);
  }

  lemma RangeInLayout(length: nat, c: nat, start: nat, end: nat)
    requires c > 0 && length > 0 && Range(length, start, end)
    ensures 0 <= Floor(start, c) <= Ceil(length, c) && Ceil(end, c) <= Ceil(length, c)
  {
    hide At, Floor, Ceil;
    FloorAt(start, c);
    CeilAt(end, c);
    CeilAt(length, c);
    AtNext(0, c);
    AtNext(Ceil(end, c) - 1, c);
    if Ceil(length, c) < Ceil(end, c) {
      AtLess(Ceil(length, c), Ceil(end, c), c);
    }
    if Ceil(length, c) < Floor(start, c) {
      AtLess(Ceil(length, c), Floor(start, c), c);
    }
  }

  // When the chunks of the query are through, the stop is reached.
  lemma ReachedStop(length: nat, c: nat, start: nat, end: nat, k: nat)
    requires c > 0 && length > 0 && Range(length, start, end)
    requires k == if Floor(start, c) < Ceil(end, c) then Ceil(end, c) else Ceil(length, c)
    ensures Reached(c, start, Stop(length, c, start, end), k) == Stop(length, c, start, end)
  {
    hide At, Floor, Ceil;
    FloorAt(start, c);
    CeilAt(end, c);
    CeilAt(length, c);
    RangeInLayout(length, c, start, end);
  }

  // The options that are refused, and that nothing is pushed then. The default end 0 refuses
  // every positive start, so a range always needs its end.
  lemma RefusedRanges(length: nat, c: nat, start: int, end: int)
    requires c > 0 && length > 0
    ensures var r := Init(Open(Some(start), Some(end)), Some(File(length, c)));
      && r.pushed == [] && !r.ended
      && (r.error == None <==> 0 <= start <= end <= length)
      && (0 < start <= length && end == 0 ==> r.error == Some(StartAfterEnd))
  {
    hide Ceil;
  }

  // The download is the requested slice of the file, for every range but one family: an empty
  // range at a chunk boundary inside the file gives the rest of the file instead. (End 0 asks
  // for the whole file.)
  lemma DownloadIsRange(data: seq<byte>, c: nat, start: nat, end: nat, q: Query, docs: seq<Chunk>)
    requires c > 0 && data != [] && Range(|data|, start, end)
    requires Start(|data|, c, start, end).query == Some(q) && IsResult(StoredFile(data, c), q, docs)
    ensures Start(|data|, c, start, end).file.Some?
    ensures var out := ReadAll(Start(|data|, c, start, end), docs);
      && out.error == None
      && (end == 0 ==> Flatten(out.pushed) == data)
      && (end > 0 ==>
            (Flatten(out.pushed) == data[start..end] <==> !(start == end < |data| && start % c == 0)))
  {
    hide At, Flatten, ReadAll, Reading, IsResult;
    DownloadDelivers(data, c, start, end, q, docs);
    BoundaryOf(start, end, c);
    if end == 0 {
      assert data[0..|data|] == data;
    }
  }

  // The query has no limit exactly for an empty range at a chunk boundary.
  lemma BoundaryOf(start: nat, end: nat, c: nat)
    requires c > 0 && start <= end
    ensures Floor(start, c) >= Ceil(end, c) <==> start == end && start % c == 0
  {
    FloorAt(start, c);
    CeilAt(end, c);
    AtNext(0, c);
    var f, e := Floor(start, c), Ceil(end, c);
    if start == end && start % c == 0 {
      assert start == At(f, c);
      if start > 0 {
        CeilUnique(end, f, c);
      }
    } else if f >= e {
      if e < f {
        AtLess(e, f, c);
      }
      assert start == end == At(f, c);
      MultipleHasNoRest(f, c);
    }
  }

  lemma MultipleHasNoRest(q: int, c: int)
    requires c > 0
    ensures At(q, c) % c == 0
  {
    FloorUnique(At(q, c), q, c);
    assert At(q, c) == At(q, c) / c * c + At(q, c) % c;
  }

  // ----- Upload, then download -----

  // Whatever the writes and the order of the answers: once the files document of an upload is
  // in, a download of any range start < end, or of everything by default, returns those bytes.
  lemma UploadDownload(c: nat, events: seq<GridFSUploadRuns.Event>, start: nat, end: nat, docs: seq<Chunk>)
    requires c > 0 && !GridFSUploadRuns.Run(c, events).spoiled
    requires GridFSUploadRuns.Run(c, events).u.files != []
    requires start < end <= GridFSUploadRuns.Run(c, events).u.files[0].length || (start == 0 && end == 0)
    requires var h := GridFSUploadRuns.Run(c, events);
      var r := Start(h.u.files[0].length, c, start, end);
      r.query.Some? ==> IsResult(Stored(GridFSUploadRuns.ChunksOf(h.u.inserts)), r.query.value, docs)
    ensures var h := GridFSUploadRuns.Run(c, events);
      && GridFSUploadRuns.Intact(h)
      && var r := Start(|h.written|, c, start, end);
      && (r.error == None && !r.ended ==> r.file.Some?)
      && ReadAll(r, docs).error == None && ReadAll(r, docs).ended
      && Flatten(ReadAll(r, docs).pushed) == if end == 0 then h.written else h.written[start..end]
  {
    hide GridFSUploadRuns.Run, Layout, IsResult, Ceil, Floor, Stop;
    var h := GridFSUploadRuns.Run(c, events);
    GridFSUploadRuns.FileIntactExactly(c, events);
    if h.written != [] {
      InitReads(h.written, c, start, end);
      var q := Start(|h.written|, c, start, end).query.value;
      DownloadDelivers(h.written, c, start, end, q, docs);
      DownloadIsRange(h.written, c, start, end, q, docs);
    }
  }
}
