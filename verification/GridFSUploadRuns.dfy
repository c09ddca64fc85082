/**
 Every run of an upload stream: calls of `write`, `end` and `abort` and answers to the chunk
 inserts in any order, writes after `end` included. The files document is inserted at most
 once, always when nothing failed, and describes the chunks in the database unless a late
 write spoils it.
 */
module GridFSUploadRuns {
  import opened Wrappers
  import opened Bytes
  import opened GridFSUploads

  datatype Event =
    | WriteCall(data: seq<byte>)
    | EndCall(last: Option<seq<byte>>)
    | AbortCall
    | Answer(i: nat, ok: bool)
    | FilesDocRejected

  // The stream, the bytes its calls accepted, whether a write came after `end`, and whether
  // one of them came at a bad moment.
  datatype History = History(u: Upload, written: seq<byte>, late: bool, spoiled: bool)

  // The bytes left over at the end have been sent.
  predicate RemnantSent(u: Upload)
  {
    u.inserts != [] && u.inserts[|u.inserts| - 1].group == None
  }

  // A write after `end` that comes when the remnant has been sent or the files document has
  // been issued.
  predicate ComesTooLate(u: Upload, data: seq<byte>)
  {
    data != [] && u.streamEnd && (RemnantSent(u) || u.done)
  }

  // The files document is issued now, while bytes that are no full chunk were never sent.
  predicate FiledShort(u: Upload, next: Upload, written: seq<byte>)
    requires next.chunkSize > 0
  {
    u.files == [] && next.files != [] && !RemnantSent(next) && |written| % next.chunkSize != 0
  }

  function Turn(h: History, e: Event): (next: History)
    requires h.u.chunkSize > 0
    ensures next.u.chunkSize == h.u.chunkSize
  {
    match e
    case WriteCall(data) =>
      h.(u := DoWrite(h.u, data, false),
         written := if h.u.aborted then h.written else h.written + data,
         late := h.late || (h.u.streamEnd && data != []),
         spoiled := h.spoiled || ComesTooLate(h.u, data))
    case EndCall(last) =>
      h.(u := End(h.u, last),
         written := if h.u.streamEnd || h.u.aborted || last.None? then h.written else h.written + last.value)
    case AbortCall => h.(u := Abort(h.u))
    case Answer(i, ok) =>
      if !CanAnswer(h.u, i) then h else h.(u := if ok then AckInsert(h.u, i) else RejectInsert(h.u, i))
    case FilesDocRejected => if h.u.files == [] then h else h.(u := h.u.(errored := true))
  }

  function Step(h: History, e: Event): (next: History)
    requires h.u.chunkSize > 0
    ensures next.u.chunkSize == h.u.chunkSize
  {
    var t := Turn(h, e);
    t.(spoiled := t.spoiled || FiledShort(h.u, t.u, t.written))
  }

  function Run(chunkSize: nat, events: seq<Event>): (h: History)
    requires chunkSize > 0
    ensures h.u.chunkSize == chunkSize
    decreases |events|
  {
    if events == [] then History(Fresh(chunkSize), [], false, false)
    else Step(Run(chunkSize, events[..|events| - 1]), events[|events| - 1])
  }

  // ----- Counting the inserts that are not acknowledged, all of them or those of one write -----

  function Weight(request: Insert, only: Option<nat>): nat
  {
    if request.status != Acked && (only.None? || request.group == only) then 1 else 0
  }

  function Open(inserts: seq<Insert>, only: Option<nat>): nat
  {
    if inserts == [] then 0 else Weight(inserts[0], only) + Open(inserts[1..], only)
  }

  lemma {:induction false} OpenAppend(a: seq<Insert>, b: seq<Insert>, only: Option<nat>)
    ensures Open(a + b, only) == Open(a, only) + Open(b, only)
  {
    if a == [] {
      assert a + b == b;
    } else {
      assert (a + b)[1..] == a[1..] + b;
      OpenAppend(a[1..], b, only);
    }
  }

  lemma {:induction false} OpenUpdate(inserts: seq<Insert>, i: nat, x: Insert, only: Option<nat>)
    requires i < |inserts|
    ensures Open(inserts[i := x], only) == Open(inserts, only) - Weight(inserts[i], only) + Weight(x, only)
  {
    if i == 0 {
      assert inserts[i := x][1..] == inserts[1..];
    } else {
      assert inserts[i := x][1..] == inserts[1..][i - 1 := x];
      OpenUpdate(inserts[1..], i - 1, x, only);
    }
  }

  lemma {:induction false} OpenIssued(chunks: seq<Chunk>, group: Option<nat>, only: Option<nat>)
    ensures Open(Issue(chunks, group), only) == if only.None? || group == only then |chunks| else 0
  {
    if chunks != [] {
      assert Issue(chunks, group)[1..] == Issue(chunks[1..], group);
      OpenIssued(chunks[1..], group, only);
    }
  }

  lemma {:induction false} OpenZero(inserts: seq<Insert>, only: Option<nat>)
    ensures Open(inserts, only) == 0 <==> forall i :: 0 <= i < |inserts| ==> Weight(inserts[i], only) == 0
  {
    if inserts != [] {
      OpenZero(inserts[1..], only);
      assert forall i :: 1 <= i < |inserts| ==> inserts[i] == inserts[1..][i - 1];
    }
  }

  lemma OpenOutside(inserts: seq<Insert>, g: nat)
    requires forall i :: 0 <= i < |inserts| ==> inserts[i].group != Some(g)
    ensures Open(inserts, Some(g)) == 0
  {
    OpenZero(inserts, Some(g));
  }

  // ----- What holds in every run: counters and the one files document -----

  // The two kinds of counters agree with the inserts.
  predicate Counted(u: Upload)
  {
    && u.outstanding == Open(u.inserts, None)
    && (forall g :: 0 <= g < |u.groups| ==> u.groups[g].outstanding == Open(u.inserts, Some(g)))
    && (forall i :: 0 <= i < |u.inserts| && u.inserts[i].status == Rejected ==> u.errored)
  }

  // At most one write is the one `end` made.
  predicate Grouped(u: Upload)
  {
    && (u.aborted ==> !u.streamEnd)
    && (forall i :: 0 <= i < |u.inserts| && u.inserts[i].group.Some? ==> u.inserts[i].group.value < |u.groups|)
    && (forall g :: 0 <= g < |u.groups| && u.groups[g].ends ==> u.streamEnd)
    && (forall g, k :: 0 <= g < k < |u.groups| ==> !(u.groups[g].ends && u.groups[k].ends))
  }

  // The write of `end` has inserts out; the remnant goes after them.
  predicate EndPending(u: Upload)
  {
    exists g :: 0 <= g < |u.groups| && u.groups[g].ends && u.groups[g].outstanding > 0
  }

  predicate Filed(u: Upload)
  {
    && (u.done ==> u.streamEnd && |u.files| == 1 && !EndPending(u))
    && (!u.done ==> u.files == [])
    && (u.streamEnd && u.outstanding == 0 && !u.errored ==> u.done)
  }

  // The same in the middle of a step, before anything is checked.
  predicate Unfiled(u: Upload)
  {
    u.chunkSize > 0 && |u.carry| < u.chunkSize && Counted(u) && Grouped(u) && !u.done && u.files == []
  }

  predicate Kept(u: Upload)
  {
    u.chunkSize > 0 && |u.carry| < u.chunkSize && Counted(u) && Grouped(u) && Filed(u)
  }

  lemma NothingPending(u: Upload)
    requires Counted(u) && u.outstanding == 0
    ensures !EndPending(u)
    ensures forall i :: 0 <= i < |u.inserts| ==> u.inserts[i].status == Acked
  {
    OpenZero(u.inserts, None);
    forall i | 0 <= i < |u.inserts|
      ensures u.inserts[i].status == Acked
    {
      assert Weight(u.inserts[i], None) == 0;
    }
    forall g | 0 <= g < |u.groups|
      ensures u.groups[g].outstanding == 0
    {
      OpenZero(u.inserts, Some(g));
      assert forall i :: 0 <= i < |u.inserts| ==> Weight(u.inserts[i], Some(g)) == 0;
    }
  }

  lemma CheckDoneKeeps(u: Upload)
    requires Unfiled(u)
    ensures Kept(CheckDone(u))
  {
    hide Open;
    if u.outstanding == 0 {
      NothingPending(u);
    }
  }

  lemma RemnantKeeps(u: Upload)
    requires Unfiled(u) && u.streamEnd
    ensures Kept(WriteRemnant(u))
    ensures u.carry != [] ==> Unfiled(WriteRemnant(u)) && WriteRemnant(u).outstanding > 0
  {
    if u.carry == [] {
      CheckDoneKeeps(u);
    } else {
      var chunks, v := [Chunk(u.n, u.carry)], WriteRemnant(u);
      OpenAppend(u.inserts, Issue(chunks, None), None);
      OpenIssued(chunks, None, None);
      forall g | 0 <= g < |u.groups|
        ensures Open(v.inserts, Some(g)) == Open(u.inserts, Some(g))
      {
        OpenAppend(u.inserts, Issue(chunks, None), Some(g));
        OpenIssued(chunks, None, Some(g));
      }
      hide Open;
      assert Counted(v) && Grouped(v);
    }
  }

  lemma FlushCounted(u: Upload, data: seq<byte>, ends: bool)
    requires u.chunkSize > 0 && !u.aborted && Counted(u) && |u.carry + data| >= u.chunkSize
    requires forall i :: 0 <= i < |u.inserts| && u.inserts[i].group.Some? ==> u.inserts[i].group.value < |u.groups|
    ensures Counted(DoWrite(u, data, ends)) && DoWrite(u, data, ends).outstanding > 0
  {
    var v, chunks, k := DoWrite(u, data, ends), FullChunks(u.carry + data, u.chunkSize, u.n), |u.groups|;
    assert |chunks| > 0;
    hide FullChunks, Remnant;
    OpenAppend(u.inserts, Issue(chunks, Some(k)), None);
    OpenIssued(chunks, Some(k), None);
    forall g | 0 <= g < |v.groups|
      ensures v.groups[g].outstanding == Open(v.inserts, Some(g))
    {
      OpenAppend(u.inserts, Issue(chunks, Some(k)), Some(g));
      OpenIssued(chunks, Some(k), Some(g));
      if g == k {
        OpenOutside(u.inserts, k);
      }
    }
  }

  lemma NoneEnds(u: Upload)
    requires Grouped(u) && !u.streamEnd
    ensures !EndPending(u) && forall g :: 0 <= g < |u.groups| ==> !u.groups[g].ends
  {
  }

  // A write of any size at any time, also after `end`.
  lemma WriteKeeps(u: Upload, data: seq<byte>)
    requires Kept(u)
    ensures Kept(DoWrite(u, data, false))
  {
    hide FullChunks, Open;
    if !u.aborted {
      var v := DoWrite(u, data, false);
      if |u.carry + data| < u.chunkSize {
        NoFullChunk(u.carry + data, u.chunkSize, u.n);
        assert Counted(v) && Grouped(v);
      } else {
        FlushCounted(u, data, false);
        assert EndPending(v) <==> EndPending(u) by {
          SamePending(u.groups, v.groups[|u.groups|]);
        }
        assert Grouped(v);
      }
    }
  }

  lemma SamePending(groups: seq<Group>, last: Group)
    ensures !last.ends ==>
      ((exists g :: 0 <= g < |groups + [last]| && (groups + [last])[g].ends && (groups + [last])[g].outstanding > 0)
       <==> exists g :: 0 <= g < |groups| && groups[g].ends && groups[g].outstanding > 0)
  {
    if g :| 0 <= g < |groups| && groups[g].ends && groups[g].outstanding > 0 {
      assert (groups + [last])[g] == groups[g];
    }
  }

  lemma EndKeeps(u: Upload, last: Option<seq<byte>>)
    requires Kept(u)
    ensures Kept(End(u, last))
  {
    hide FullChunks, Open;
    if !u.streamEnd && !u.aborted {
      var ended := u.(streamEnd := true);
      NoneEnds(u);
      assert Unfiled(ended);
      if last.None? {
        RemnantKeeps(ended);
      } else if |u.carry + last.value| < u.chunkSize {
        NoFullChunk(u.carry + last.value, u.chunkSize, u.n);
        RemnantKeeps(ended.(length := u.length + |last.value|, carry := u.carry + last.value));
      } else {
        FlushCounted(ended, last.value, true);
        var v := DoWrite(ended, last.value, true);
        assert Grouped(v);
      }
    }
  }

  // The state after an acknowledged insert, before anything is checked.
  function Acknowledged(u: Upload, i: nat): Upload
    requires CanAnswer(u, i)
  {
    var acked := u.(inserts := u.inserts[i := u.inserts[i].(status := Acked)], outstanding := u.outstanding - 1);
    if u.inserts[i].group.None? then acked
    else
      var g := u.inserts[i].group.value;
      acked.(groups := u.groups[g := u.groups[g].(outstanding := u.groups[g].outstanding - 1)])
  }

  lemma AcknowledgedKeeps(u: Upload, i: nat)
    requires Kept(u) && CanAnswer(u, i)
    ensures Counted(Acknowledged(u, i)) && Grouped(Acknowledged(u, i)) && u.outstanding > 0
    ensures u.inserts[i].group.Some? ==> u.groups[u.inserts[i].group.value].outstanding > 0
    ensures EndPending(Acknowledged(u, i)) ==> EndPending(u)
  {
    hide Open;
    AcknowledgedCounts(u, i);
    var v := Acknowledged(u, i);
    assert Grouped(v);
    if EndPending(v) {
      var g :| 0 <= g < |v.groups| && v.groups[g].ends && v.groups[g].outstanding > 0;
      assert u.groups[g].ends && u.groups[g].outstanding > 0;
    }
  }

  lemma AcknowledgedCounts(u: Upload, i: nat)
    requires Counted(u) && CanAnswer(u, i)
    ensures Counted(Acknowledged(u, i)) && u.outstanding > 0
    ensures u.inserts[i].group.Some? ==> u.groups[u.inserts[i].group.value].outstanding > 0
  {
    hide Open;
    var x := u.inserts[i].(status := Acked);
    OpenUpdate(u.inserts, i, x, None);
    OpenZero(u.inserts, None);
    assert Weight(u.inserts[i], None) == 1;
    forall g | 0 <= g < |u.groups|
      ensures Open(u.inserts[i := x], Some(g))
        == Open(u.inserts, Some(g)) - (if u.inserts[i].group == Some(g) then 1 else 0)
    {
      OpenUpdate(u.inserts, i, x, Some(g));
    }
    if u.inserts[i].group.Some? {
      OpenZero(u.inserts, u.inserts[i].group);
      assert Weight(u.inserts[i], u.inserts[i].group) == 1;
    }
  }

  lemma AckKeeps(u: Upload, i: nat)
    requires Kept(u) && CanAnswer(u, i)
    ensures Kept(AckInsert(u, i))
    ensures u.done ==> AckInsert(u, i) == Acknowledged(u, i)
  {
    hide Open, Counted;
    var v := Acknowledged(u, i);
    AcknowledgedKeeps(u, i);
    if u.done {
      DoneAcks(u, i);
    } else {
      assert Unfiled(v);
      CheckDoneKeeps(v);
      if u.inserts[i].group.Some? {
        var g := u.inserts[i].group.value;
        if v.groups[g].outstanding != 0 {
          StillOut(v, g);
        } else if v.groups[g].ends {
          RemnantKeeps(v);
          if v.carry == [] {
            CheckDoneTwice(v);
          }
        }
      }
    }
  }

  // After the files document only late writes are acknowledged.
  lemma DoneAcks(u: Upload, i: nat)
    requires Kept(u) && CanAnswer(u, i) && u.done
    ensures AckInsert(u, i) == Acknowledged(u, i) && Kept(AckInsert(u, i))
  {
    hide Open, Counted;
    AcknowledgedKeeps(u, i);
    if u.inserts[i].group.Some? {
      assert !u.groups[u.inserts[i].group.value].ends;
    }
  }

  lemma StillOut(v: Upload, g: nat)
    requires Counted(v) && g < |v.groups| && v.groups[g].outstanding != 0
    ensures v.outstanding > 0
  {
    OpenZero(v.inserts, Some(g));
    OpenZero(v.inserts, None);
  }

  lemma CheckDoneTwice(u: Upload)
    ensures CheckDone(CheckDone(u)) == CheckDone(u)
  {
  }

  lemma RejectKeeps(u: Upload, i: nat)
    requires Kept(u) && CanAnswer(u, i)
    ensures Kept(RejectInsert(u, i))
  {
    var x := u.inserts[i].(status := Rejected);
    OpenUpdate(u.inserts, i, x, None);
    forall g | 0 <= g < |u.groups|
      ensures Open(u.inserts[i := x], Some(g)) == Open(u.inserts, Some(g))
    {
      OpenUpdate(u.inserts, i, x, Some(g));
    }
    hide Open;
    assert Counted(RejectInsert(u, i)) && Grouped(RejectInsert(u, i));
  }

  lemma TurnKept(h: History, e: Event)
    requires Kept(h.u)
    ensures Kept(Turn(h, e).u)
  {
    hide Counted, DoWrite, End, AckInsert, RejectInsert;
    match e {
      case WriteCall(data) => WriteKeeps(h.u, data);
      case EndCall(last) => EndKeeps(h.u, last);
      case AbortCall => AbortKeeps(h.u);
      case Answer(i, ok) =>
        if CanAnswer(h.u, i) {
          if ok { AckKeeps(h.u, i); } else { RejectKeeps(h.u, i); }
        }
      case FilesDocRejected => SetErrored(h.u);
    }
  }

  lemma SetErrored(u: Upload)
    requires Kept(u)
    ensures Kept(u.(errored := true))
  {
    hide Open;
  }

  lemma AbortKeeps(u: Upload)
    requires Kept(u)
    ensures Kept(Abort(u))
  {
    hide Open;
  }

  // ----- What holds while nothing is spoiled: the chunks are the layout -----

  // Full chunk i is insert i, and the remnant, once sent, is the last one.
  predicate Issued(u: Upload, written: seq<byte>)
    requires u.chunkSize > 0
  {
    var full := FullChunks(written, u.chunkSize, 0);
    && u.carry == Remnant(written, u.chunkSize)
    && u.length == |written|
    && u.n == |full| <= |u.inserts|
    && (forall i :: 0 <= i < u.n ==> u.inserts[i].chunk == full[i] && u.inserts[i].group.Some?)
    && (|u.inserts| > u.n ==>
          && |u.inserts| == u.n + 1 && u.inserts[u.n].chunk == Chunk(u.n, u.carry) && u.inserts[u.n].group == None
          && u.carry != [] && u.streamEnd && !EndPending(u))
  }

  // All bytes are in inserts.
  predicate Complete(u: Upload)
  {
    u.carry == [] || RemnantSent(u)
  }

  predicate Sound(u: Upload, written: seq<byte>)
    requires u.chunkSize > 0
  {
    && Issued(u, written)
    && (u.done ==> Complete(u) && u.outstanding == 0 && u.files == [FilesDoc(|written|, u.chunkSize)])
  }

  // Without late writes, what is not sent when the stream has ended waits for the end's write.
  predicate Ending(u: Upload)
  {
    u.streamEnd ==> Complete(u) || EndPending(u)
  }

  lemma SentIs(u: Upload, written: seq<byte>)
    requires u.chunkSize > 0 && Issued(u, written)
    ensures RemnantSent(u) <==> |u.inserts| == u.n + 1
  {
    hide FullChunks, Remnant;
  }

  lemma Multiple(k: int, c: int)
    requires c > 0
    ensures k >= 1 ==> k * c >= c
    ensures k <= -1 ==> k * c <= -c
  {
  }

  lemma ModIs(x: int, q: int, r: int, c: nat)
    requires c > 0 && x == q * c + r && 0 <= r < c
    ensures x % c == r
  {
    var k := x / c - q;
    Multiple(k, c);
    assert x == x / c * c + x % c;
    assert k * c == x / c * c - q * c;
  }

  lemma ModStep(x: nat, c: nat)
    requires 0 < c <= x
    ensures x % c == (x - c) % c
  {
    var q, r := (x - c) / c, (x - c) % c;
    assert x - c == q * c + r;
    assert (q + 1) * c == q * c + c;
    ModIs(x, q + 1, r, c);
  }

  // The bytes left over are as many as the remainder by the chunk size.
  lemma {:induction false} RemnantLength(data: seq<byte>, c: nat)
    requires c > 0
    ensures |Remnant(data, c)| == |data| % c
    decreases |data|
  {
    if |data| >= c {
      RemnantLength(data[c..], c);
      ModStep(|data|, c);
    }
  }

  lemma GrowIssued(u: Upload, written: seq<byte>, data: seq<byte>)
    requires u.chunkSize > 0 && Issued(u, written)
    ensures var all, cs := u.carry + data, u.chunkSize;
      && FullChunks(written + data, cs, 0) == FullChunks(written, cs, 0) + FullChunks(all, cs, u.n)
      && Remnant(written + data, cs) == Remnant(all, cs)
  {
    ChunksAppend(written, data, u.chunkSize, 0);
  }

  // A write while the remnant is not sent, whether before `end` or after it.
  lemma WriteIssued(u: Upload, written: seq<byte>, data: seq<byte>, ends: bool)
    requires Unfiled(u) && !u.aborted && Issued(u, written) && |u.inserts| == u.n
    requires |u.carry + data| >= u.chunkSize || !ends
    ensures var v := DoWrite(u, data, ends);
      Issued(v, written + data) && |v.inserts| == v.n && !v.done && v.streamEnd == u.streamEnd
  {
    hide FullChunks, Remnant, Open;
    GrowIssued(u, written, data);
    if |u.carry + data| < u.chunkSize {
      NoFullChunk(u.carry + data, u.chunkSize, u.n);
    }
  }

  lemma RemnantIssued(u: Upload, written: seq<byte>)
    requires Unfiled(u) && u.streamEnd && Issued(u, written) && |u.inserts| == u.n && !EndPending(u)
    ensures Issued(WriteRemnant(u), written) && Complete(WriteRemnant(u))
    ensures WriteRemnant(u).done ==>
      WriteRemnant(u).outstanding == 0 && WriteRemnant(u).files == [FilesDoc(|written|, u.chunkSize)]
  {
    hide FullChunks, Remnant, Open;
  }

  // A check that files the document, or not.
  lemma CheckSound(u: Upload, written: seq<byte>)
    requires Unfiled(u) && Issued(u, written)
    ensures var v := CheckDone(u);
      && Issued(v, written)
      && (v.done ==> v.outstanding == 0 && v.files == [FilesDoc(|written|, u.chunkSize)])
      && (v.done && !FiledShort(u, v, written) ==> Complete(v))
      && (v.done && FiledShort(u, v, written) ==> !Complete(v))
  {
    hide FullChunks, Remnant, Open;
    RemnantLength(written, u.chunkSize);
  }

  lemma WriteSound(h: History, data: seq<byte>)
    requires Kept(h.u) && Sound(h.u, h.written) && !h.u.aborted && data != [] && !ComesTooLate(h.u, data)
    ensures Sound(DoWrite(h.u, data, false), h.written + data)
    ensures DoWrite(h.u, data, false).files == h.u.files
    ensures !h.u.streamEnd ==> !DoWrite(h.u, data, false).streamEnd
  {
    hide FullChunks, Remnant, Open, DoWrite, Counted, Grouped;
    SentIs(h.u, h.written);
    assert !h.u.done && |h.u.inserts| == h.u.n;
    WriteIssued(h.u, h.written, data, false);
    SameFiles(h.u, data);
  }

  lemma SameFiles(u: Upload, data: seq<byte>)
    requires u.chunkSize > 0
    ensures DoWrite(u, data, false).files == u.files && DoWrite(u, data, false).streamEnd == u.streamEnd
  {
    hide FullChunks, Remnant;
  }

  lemma EndSound(h: History, last: Option<seq<byte>>)
    requires Kept(h.u) && Sound(h.u, h.written) && !h.u.streamEnd && !h.u.aborted
    ensures var v, written := End(h.u, last), if last.None? then h.written else h.written + last.value;
      Sound(v, written) && Ending(v) && !FiledShort(h.u, v, written)
  {
    hide FullChunks, Remnant, Open;
    var ended := h.u.(streamEnd := true);
    NoneEnds(h.u);
    assert Unfiled(ended) && Issued(ended, h.written);
    RemnantLength(if last.None? then h.written else h.written + last.value, h.u.chunkSize);
    if last.None? {
      RemnantIssued(ended, h.written);
    } else if |h.u.carry + last.value| < h.u.chunkSize {
      GrowIssued(ended, h.written, last.value);
      NoFullChunk(h.u.carry + last.value, h.u.chunkSize, h.u.n);
      RemnantIssued(ended.(length := h.u.length + |last.value|, carry := h.u.carry + last.value),
                    h.written + last.value);
    } else {
      WriteIssued(ended, h.written, last.value, true);
      FlushPends(ended, last.value);
    }
  }

  lemma FlushPends(u: Upload, data: seq<byte>)
    requires Unfiled(u) && !u.aborted && |u.carry + data| >= u.chunkSize
    ensures EndPending(DoWrite(u, data, true)) && DoWrite(u, data, true).files == []
  {
    var v := DoWrite(u, data, true);
    assert |FullChunks(u.carry + data, u.chunkSize, u.n)| > 0;
    assert v.groups[|u.groups|].ends && v.groups[|u.groups|].outstanding > 0;
  }

  lemma AckSound(h: History, i: nat)
    requires Kept(h.u) && CanAnswer(h.u, i) && Sound(h.u, h.written)
    requires !FiledShort(h.u, AckInsert(h.u, i), h.written)
    ensures Sound(AckInsert(h.u, i), h.written)
  {
    hide FullChunks, Remnant, Open, Counted, CheckDone, WriteRemnant;
    var u, v := h.u, Acknowledged(h.u, i);
    AcknowledgedKeeps(u, i);
    AcknowledgedIssued(u, i, h.written);
    if u.done {
      DoneAcks(u, i);
    } else {
      CheckSound(v, h.written);
      if u.inserts[i].group.Some? && v.groups[u.inserts[i].group.value].outstanding == 0
         && v.groups[u.inserts[i].group.value].ends
      {
        EndAcked(u, i, h.written);
      }
    }
  }

  lemma AcknowledgedIssued(u: Upload, i: nat, written: seq<byte>)
    requires Kept(u) && CanAnswer(u, i) && Issued(u, written)
    ensures Issued(Acknowledged(u, i), written) && (RemnantSent(Acknowledged(u, i)) <==> RemnantSent(u))
    ensures Acknowledged(u, i).files == u.files && Acknowledged(u, i).done == u.done
  {
    hide FullChunks, Remnant, Open;
    AcknowledgedKeeps(u, i);
  }

  // The last insert of the write of `end` is acknowledged: the remnant is sent.
  lemma EndAcked(u: Upload, i: nat, written: seq<byte>)
    requires Kept(u) && CanAnswer(u, i) && Issued(u, written) && u.inserts[i].group.Some? && !u.done
    requires var g, v := u.inserts[i].group.value, Acknowledged(u, i); v.groups[g].ends && v.groups[g].outstanding == 0
    ensures Sound(AckInsert(u, i), written) && Complete(AckInsert(u, i))
  {
    hide FullChunks, Remnant, Open, Counted;
    var v, g := Acknowledged(u, i), u.inserts[i].group.value;
    AcknowledgedKeeps(u, i);
    AcknowledgedIssued(u, i, written);
    assert u.groups[g].ends && u.groups[g].outstanding > 0;
    assert forall k :: 0 <= k < |v.groups| && v.groups[k].ends ==> k == g;
    RemnantIssued(v, written);
    RemnantKeeps(v);
    if v.carry == [] {
      CheckDoneTwice(v);
    }
  }

  // ----- What holds once it is spoiled: the damage stays -----

  function ChunksOf(inserts: seq<Insert>): (chunks: seq<Chunk>)
    ensures |chunks| == |inserts|
    ensures forall i :: 0 <= i < |chunks| ==> chunks[i] == inserts[i].chunk
  {
    seq(|inserts|, i requires 0 <= i < |inserts| => inserts[i].chunk)
  }

  function ByteCount(chunks: seq<Chunk>): nat
  {
    if chunks == [] then 0 else |chunks[0].data| + ByteCount(chunks[1..])
  }

  lemma {:induction false} ByteCountSnoc(chunks: seq<Chunk>, chunk: Chunk)
    ensures ByteCount(chunks + [chunk]) == ByteCount(chunks) + |chunk.data|
  {
    if chunks == [] {
      assert [] + [chunk] == [chunk] && [chunk][1..] == [];
    } else {
      assert (chunks + [chunk])[1..] == chunks[1..] + [chunk];
      ByteCountSnoc(chunks[1..], chunk);
    }
  }

  lemma {:induction false} FullBytes(data: seq<byte>, c: nat, n: nat)
    requires c > 0
    ensures ByteCount(FullChunks(data, c, n)) + |Remnant(data, c)| == |data|
    ensures forall i :: 0 <= i < |FullChunks(data, c, n)| ==> |FullChunks(data, c, n)[i].data| == c
    decreases |data|
  {
    if |data| >= c {
      FullBytes(data[c..], c, n + 1);
      var rest := FullChunks(data[c..], c, n + 1);
      assert ([Chunk(n, data[..c])] + rest)[1..] == rest;
    }
  }

  // A layout has all the bytes, and only its last chunk may be shorter than the others.
  lemma LayoutBytes(data: seq<byte>, c: nat)
    requires c > 0
    ensures ByteCount(Layout(data, c)) == |data|
    ensures forall i :: 0 <= i < |Layout(data, c)| - 1 ==> |Layout(data, c)[i].data| == c
  {
    hide FullChunks, Remnant;
    FullBytes(data, c, 0);
    var full, rest := FullChunks(data, c, 0), Remnant(data, c);
    if rest != [] {
      ByteCountSnoc(full, Chunk(|full|, rest));
    }
  }

  lemma IssuedChunks(u: Upload, written: seq<byte>)
    requires u.chunkSize > 0 && Issued(u, written)
    ensures Complete(u) ==> ChunksOf(u.inserts) == Layout(written, u.chunkSize)
    ensures ByteCount(ChunksOf(u.inserts)) == |written| - if Complete(u) then 0 else |u.carry|
    ensures !Complete(u) ==> |u.carry| > 0
  {
    hide FullChunks, Remnant, ByteCount;
    SentIs(u, written);
    FullBytes(written, u.chunkSize, 0);
    LayoutBytes(written, u.chunkSize);
    if Complete(u) {
      assert ChunksOf(u.inserts) == Layout(written, u.chunkSize);
    } else {
      assert ChunksOf(u.inserts) == FullChunks(written, u.chunkSize, 0);
    }
  }

  // The files document is about fewer bytes than were written, or not all its bytes are there.
  predicate Short(u: Upload, written: seq<byte>)
  {
    && u.files != [] && u.files[0].length <= |written|
    && (u.files[0].length < |written| || ByteCount(ChunksOf(u.inserts)) < |written|)
  }

  // A short chunk that is not the last, or is the last with bytes missing.
  predicate Split(u: Upload, written: seq<byte>)
  {
    exists m :: 0 <= m < |u.inserts| && |u.inserts[m].chunk.data| < u.chunkSize
      && (m + 1 < |u.inserts| || ByteCount(ChunksOf(u.inserts)) < |written|)
  }

  predicate Damaged(u: Upload, written: seq<byte>)
  {
    Short(u, written) || Split(u, written)
  }

  // The file is what was written: one files document of its length, and acknowledged chunks
  // that are its layout.
  predicate Intact(h: History)
    requires h.u.chunkSize > 0
  {
    && h.u.files == [FilesDoc(|h.written|, h.u.chunkSize)]
    && (forall i :: 0 <= i < |h.u.inserts| ==> h.u.inserts[i].status == Acked)
    && ChunksOf(h.u.inserts) == Layout(h.written, h.u.chunkSize)
  }

  lemma DamagedNotIntact(h: History)
    requires h.u.chunkSize > 0 && Damaged(h.u, h.written)
    ensures !Intact(h)
  {
    hide FullChunks, Remnant, ByteCount, Layout;
    LayoutBytes(h.written, h.u.chunkSize);
  }

  // Inserts are only added, and their chunks stay.
  predicate Extends(u: Upload, v: Upload)
  {
    && |v.inserts| >= |u.inserts| && v.chunkSize == u.chunkSize
    && (forall i :: 0 <= i < |u.inserts| ==> v.inserts[i].chunk == u.inserts[i].chunk)
  }

  lemma TurnExtends(h: History, e: Event)
    requires Kept(h.u)
    ensures var t := Turn(h, e);
      && Extends(h.u, t.u) && |t.written| >= |h.written|
      && (h.u.done ==> t.u.files == h.u.files && (t.written == h.written ==> |t.u.inserts| == |h.u.inserts|))
  {
    hide FullChunks, Remnant, Open, Counted, DoWrite, End, AckInsert;
    match e {
      case Answer(i, ok) =>
        if CanAnswer(h.u, i) && ok {
          AckExtends(h.u, i);
        }
      case WriteCall(data) => WriteExtends(h.u, data);
      case EndCall(last) => EndExtends(h.u, last);
      case _ =>
    }
  }

  lemma AckExtends(u: Upload, i: nat)
    requires Kept(u) && CanAnswer(u, i)
    ensures var v := AckInsert(u, i);
      Extends(u, v) && (u.done ==> v.files == u.files && |v.inserts| == |u.inserts|)
  {
    hide Open, Counted;
    AckKeeps(u, i);
  }

  lemma EndExtends(u: Upload, last: Option<seq<byte>>)
    requires Kept(u)
    ensures var v := End(u, last);
      Extends(u, v) && (u.done ==> v == u)
  {
    hide FullChunks, Remnant, Open, Counted;
  }

  lemma WriteExtends(u: Upload, data: seq<byte>)
    requires u.chunkSize > 0
    ensures var v := DoWrite(u, data, false);
      Extends(u, v) && v.files == u.files && (data == [] && |u.carry| < u.chunkSize ==> |v.inserts| == |u.inserts|)
  {
    hide FullChunks, Remnant;
    assert u.carry + [] == u.carry;
  }

  lemma DamageStays(u: Upload, v: Upload, before: seq<byte>, after: seq<byte>)
    requires Damaged(u, before) && Extends(u, v) && |after| >= |before|
    requires u.files != [] ==> v.files == u.files && (|after| == |before| ==> |v.inserts| == |u.inserts|)
    ensures Damaged(v, after)
  {
    hide ByteCount;
    if |v.inserts| == |u.inserts| {
      assert ChunksOf(v.inserts) == ChunksOf(u.inserts);
    }
    if Split(u, before) {
      var m :| 0 <= m < |u.inserts| && |u.inserts[m].chunk.data| < u.chunkSize
        && (m + 1 < |u.inserts| || ByteCount(ChunksOf(u.inserts)) < |before|);
      assert |v.inserts[m].chunk.data| < v.chunkSize;
      assert Split(v, after);
    }
  }

  // A write that comes too late.
  lemma TooLateDamages(h: History, data: seq<byte>)
    requires Kept(h.u) && Sound(h.u, h.written) && !h.u.aborted && ComesTooLate(h.u, data)
    ensures Damaged(DoWrite(h.u, data, false), h.written + data)
  {
    hide FullChunks, Remnant, Open, Counted, ByteCount;
    var u, v := h.u, DoWrite(h.u, data, false);
    WriteExtends(u, data);
    SentIs(u, h.written);
    IssuedChunks(u, h.written);
    if u.done {
      assert Short(v, h.written + data);
    } else {
      assert |u.inserts[u.n].chunk.data| < u.chunkSize && v.inserts[u.n].chunk == u.inserts[u.n].chunk;
      if |v.inserts| == |u.inserts| {
        assert ChunksOf(v.inserts) == ChunksOf(u.inserts);
      }
      assert Split(v, h.written + data);
    }
  }

  lemma ShortFileDamages(u: Upload, v: Upload, written: seq<byte>)
    requires v.chunkSize > 0 && Issued(v, written) && v.files == [FilesDoc(|written|, v.chunkSize)] && !Complete(v)
    ensures Damaged(v, written)
  {
    hide FullChunks, Remnant, ByteCount;
    IssuedChunks(v, written);
  }

  // ----- Every turn -----

  predicate Inv(h: History)
  {
    && Kept(h.u)
    && (if h.spoiled then h.u.streamEnd && Damaged(h.u, h.written) else Sound(h.u, h.written))
    && (!h.late ==> !h.spoiled && Ending(h.u))
  }

  lemma SpoiledKeeps(h: History, e: Event)
    requires Inv(h) && h.spoiled
    ensures Inv(Step(h, e))
  {
    hide Kept, Damaged, Sound, Ending, Turn;
    TurnKept(h, e);
    TurnExtends(h, e);
    DoneIsFiled(h.u);
    SpoiledTurn(h, e);
    DamageStays(h.u, Turn(h, e).u, h.written, Turn(h, e).written);
  }

  lemma DoneIsFiled(u: Upload)
    requires Kept(u)
    ensures u.chunkSize > 0 && (u.done <==> u.files != [])
  {
    hide Counted, Grouped, EndPending;
  }

  lemma SpoiledTurn(h: History, e: Event)
    requires h.u.chunkSize > 0 && h.u.streamEnd
    ensures var t := Turn(h, e);
      && t.u.streamEnd && t.spoiled == (h.spoiled || (e.WriteCall? && ComesTooLate(h.u, e.data))) && (h.late ==> t.late)
      && (|t.written| == |h.written| ==> t.written == h.written)
  {
    hide DoWrite, End, AckInsert;
    match e {
      case WriteCall(data) => StillEnded(h.u, data);
      case Answer(i, ok) => if CanAnswer(h.u, i) { AckStaysEnded(h.u, i); }
      case EndCall(last) => EndAgain(h.u, last);
      case _ =>
    }
  }

  lemma StillEnded(u: Upload, data: seq<byte>)
    requires u.chunkSize > 0
    ensures DoWrite(u, data, false).streamEnd == u.streamEnd
  {
    hide FullChunks, Remnant;
  }

  lemma AckStaysEnded(u: Upload, i: nat)
    requires CanAnswer(u, i)
    ensures AckInsert(u, i).streamEnd == u.streamEnd
  {
  }

  lemma WriteInv(h: History, data: seq<byte>)
    requires Inv(h) && !h.spoiled
    ensures Inv(Step(h, WriteCall(data)))
  {
    hide FullChunks, Remnant, Open, Counted, Grouped, Damaged, DoWrite, Issued;
    TurnKept(h, WriteCall(data));
    SameFiles(h.u, data);
    if h.u.aborted {
      AbortedWrite(h.u, data);
    } else if data == [] {
      EmptyWrite(h);
    } else if ComesTooLate(h.u, data) {
      TooLateDamages(h, data);
    } else {
      WriteSound(h, data);
    }
  }

  lemma AbortedWrite(u: Upload, data: seq<byte>)
    requires Kept(u) && u.aborted
    ensures DoWrite(u, data, false) == u && !u.streamEnd
  {
    hide Open;
  }

  lemma EmptyWrite(h: History)
    requires Inv(h) && !h.spoiled
    ensures DoWrite(h.u, [], false) == h.u && h.written + [] == h.written
  {
    NoFullChunk(h.u.carry, h.u.chunkSize, 0);
    assert h.u.carry + [] == h.u.carry;
  }

  lemma EndInv(h: History, last: Option<seq<byte>>)
    requires Inv(h) && !h.spoiled
    ensures Inv(Step(h, EndCall(last)))
  {
    hide FullChunks, Remnant, Open, Counted, Grouped, Damaged, End, Issued;
    TurnKept(h, EndCall(last));
    if h.u.streamEnd || h.u.aborted {
      EndAgain(h.u, last);
    } else {
      EndSound(h, last);
    }
  }

  lemma EndAgain(u: Upload, last: Option<seq<byte>>)
    requires u.chunkSize > 0 && (u.streamEnd || u.aborted)
    ensures End(u, last) == u
  {
  }

  lemma AckInv(h: History, i: nat)
    requires Inv(h) && !h.spoiled && CanAnswer(h.u, i)
    ensures Inv(Step(h, Answer(i, true)))
  {
    hide FullChunks, Remnant, Open, Counted, Grouped, Damaged, AckInsert, Issued;
    TurnKept(h, Answer(i, true));
    var v := AckInsert(h.u, i);
    AckEnds(h, i);
    if FiledShort(h.u, v, h.written) {
      AckDamages(h, i);
    } else {
      AckSound(h, i);
    }
  }

  lemma AckDamages(h: History, i: nat)
    requires Kept(h.u) && CanAnswer(h.u, i) && Sound(h.u, h.written) && FiledShort(h.u, AckInsert(h.u, i), h.written)
    ensures Damaged(AckInsert(h.u, i), h.written) && AckInsert(h.u, i).streamEnd
  {
    hide FullChunks, Remnant, Open, Counted, CheckDone, WriteRemnant, Damaged, ByteCount;
    var u, v := h.u, Acknowledged(h.u, i);
    AcknowledgedKeeps(u, i);
    AcknowledgedIssued(u, i, h.written);
    CheckSound(v, h.written);
    CheckedFiles(v);
    RemnantLength(h.written, u.chunkSize);
    if u.inserts[i].group.Some? && v.groups[u.inserts[i].group.value].outstanding == 0
       && v.groups[u.inserts[i].group.value].ends
    {
      EndAcked(u, i, h.written);
    } else {
      ShortFileDamages(CheckDone(v), CheckDone(v), h.written);
    }
  }

  lemma CheckedFiles(u: Upload)
    requires !u.done && u.files == []
    ensures CheckDone(u).files != [] ==> CheckDone(u).done && u.streamEnd && CheckDone(u).streamEnd
  {
  }

  // Before any late write, an acknowledgement files the document only when all is sent.
  lemma AckEnds(h: History, i: nat)
    requires Inv(h) && !h.spoiled && CanAnswer(h.u, i)
    ensures AckInsert(h.u, i).streamEnd == h.u.streamEnd
    ensures !h.late ==> Ending(AckInsert(h.u, i)) && !FiledShort(h.u, AckInsert(h.u, i), h.written)
  {
    hide FullChunks, Remnant, Open, Counted;
    var u, v := h.u, Acknowledged(h.u, i);
    AcknowledgedKeeps(u, i);
    AcknowledgedIssued(u, i, h.written);
    RemnantLength(h.written, u.chunkSize);
    if !h.late && u.streamEnd {
      if u.inserts[i].group.Some? && v.groups[u.inserts[i].group.value].outstanding == 0
         && v.groups[u.inserts[i].group.value].ends && !u.done
      {
        EndAcked(u, i, h.written);
      } else {
        StillEnding(u, i, h.written);
      }
    }
  }

  lemma StillEnding(u: Upload, i: nat, written: seq<byte>)
    requires Kept(u) && CanAnswer(u, i) && Sound(u, written) && Ending(u) && u.streamEnd
    requires u.inserts[i].group.Some? && !u.done ==>
      var g, v := u.inserts[i].group.value, Acknowledged(u, i); !v.groups[g].ends || v.groups[g].outstanding != 0
    ensures Ending(AckInsert(u, i)) && !FiledShort(u, AckInsert(u, i), written)
  {
    hide FullChunks, Remnant, Open;
    var v := Acknowledged(u, i);
    AcknowledgedKeeps(u, i);
    AcknowledgedIssued(u, i, written);
    RemnantLength(written, u.chunkSize);
    if u.done {
      DoneAcks(u, i);
    } else if !Complete(u) {
      var g :| 0 <= g < |u.groups| && u.groups[g].ends && u.groups[g].outstanding > 0;
      PendingStays(u, i, g);
    } else {
      CheckedSame(v);
    }
  }

  lemma CheckedSame(v: Upload)
    ensures CheckDone(v).inserts == v.inserts && CheckDone(v).carry == v.carry
  {
  }

  lemma PendingStays(u: Upload, i: nat, g: nat)
    requires Kept(u) && CanAnswer(u, i) && g < |u.groups| && u.groups[g].ends && u.groups[g].outstanding > 0
    requires u.inserts[i].group.Some? && !u.done ==>
      var k, v := u.inserts[i].group.value, Acknowledged(u, i); !v.groups[k].ends || v.groups[k].outstanding != 0
    ensures EndPending(AckInsert(u, i)) && AckInsert(u, i).files == u.files
  {
    hide FullChunks, Remnant, Open;
    var v := Acknowledged(u, i);
    AcknowledgedKeeps(u, i);
    assert v.groups[g].ends && v.groups[g].outstanding > 0 by {
      if u.inserts[i].group == Some(g) {
        assert v.groups[g].outstanding >= 0;
      }
    }
    StillOut(v, g);
    assert CheckDone(v) == v;
  }

  lemma RejectInv(h: History, i: nat)
    requires Inv(h) && !h.spoiled && CanAnswer(h.u, i)
    ensures Inv(Step(h, Answer(i, false)))
  {
    hide FullChunks, Remnant, Open, Counted, Grouped, Damaged;
    TurnKept(h, Answer(i, false));
  }

  lemma StepKeeps(h: History, e: Event)
    requires Inv(h)
    ensures Inv(Step(h, e))
  {
    hide Kept, Sound, Ending, Damaged, Turn, FiledShort;
    if h.spoiled {
      SpoiledKeeps(h, e);
    } else {
      match e {
        case WriteCall(data) => WriteInv(h, data);
        case EndCall(last) => EndInv(h, last);
        case AbortCall => AbortInv(h);
        case Answer(i, ok) =>
          if !CanAnswer(h.u, i) {
            NothingHappens(h, e);
          } else if ok {
            AckInv(h, i);
          } else {
            RejectInv(h, i);
          }
        case FilesDocRejected => ErroredInv(h);
      }
    }
  }

  lemma NothingHappens(h: History, e: Event)
    requires Inv(h) && e.Answer? && !CanAnswer(h.u, e.i)
    ensures Step(h, e) == h
  {
    hide FullChunks, Remnant, Open;
  }

  lemma AbortInv(h: History)
    requires Inv(h) && !h.spoiled
    ensures Inv(Step(h, AbortCall))
  {
    hide FullChunks, Remnant, Open, Damaged;
  }

  lemma ErroredInv(h: History)
    requires Inv(h) && !h.spoiled
    ensures Inv(Step(h, FilesDocRejected))
  {
    hide FullChunks, Remnant, Open, Damaged;
  }

  lemma {:induction false} RunKeeps(chunkSize: nat, events: seq<Event>)
    requires chunkSize > 0
    ensures Inv(Run(chunkSize, events))
    decreases |events|
  {
    hide Step, Inv;
    if events == [] {
      FreshInv(chunkSize);
    } else {
      RunKeeps(chunkSize, events[..|events| - 1]);
      StepKeeps(Run(chunkSize, events[..|events| - 1]), events[|events| - 1]);
    }
  }

  lemma FreshInv(chunkSize: nat)
    requires chunkSize > 0
    ensures Inv(History(Fresh(chunkSize), [], false, false))
  {
  }

  // ----- Main results -----

  // Once the files document is there, the file is exactly what was written, or it was spoiled:
  // by a late write after the remnant was sent or the document issued, or by the document
  // being issued while late bytes that fill no chunk were still in the buffer.
  lemma FileIntactExactly(chunkSize: nat, events: seq<Event>)
    requires chunkSize > 0
    ensures var h := Run(chunkSize, events);
      h.u.files != [] ==> (Intact(h) <==> !h.spoiled)
  {
    hide Run, FullChunks, Remnant, Open, Damaged, Layout, ByteCount;
    var h := Run(chunkSize, events);
    RunKeeps(chunkSize, events);
    if h.u.files != [] {
      if h.spoiled {
        DamagedNotIntact(h);
      } else {
        IssuedChunks(h.u, h.written);
        DoneAllAcked(h.u, h.written);
      }
    }
  }

  // The document is issued when nothing is outstanding, and an unspoiled file gets no inserts
  // afterwards.
  lemma DoneAllAcked(u: Upload, written: seq<byte>)
    requires Kept(u) && Sound(u, written) && u.done
    ensures forall i :: 0 <= i < |u.inserts| ==> u.inserts[i].status == Acked
  {
    hide Open;
    NothingPending(u);
  }

  // Without a write after `end` nothing is spoiled: the files document is never there before
  // the file is.
  lemma FilesDocSafe(chunkSize: nat, events: seq<Event>)
    requires chunkSize > 0 && !Run(chunkSize, events).late
    ensures var h := Run(chunkSize, events);
      !h.spoiled && (h.u.files != [] ==> Intact(h) && !h.u.aborted)
  {
    hide Run, Sound, Ending, Damaged, Open, Counted, Intact;
    RunKeeps(chunkSize, events);
    FileIntactExactly(chunkSize, events);
  }

  // In every run there is at most one files document, and it is there as soon as the stream
  // is ended and every insert issued is acknowledged.
  lemma FilesDocInserted(chunkSize: nat, events: seq<Event>)
    requires chunkSize > 0
    ensures var u := Run(chunkSize, events).u;
      && |u.files| <= 1
      && (u.streamEnd && !u.errored && (forall i :: 0 <= i < |u.inserts| ==> u.inserts[i].status == Acked) ==>
         |u.files| == 1)
  {
    hide Run, Sound, Ending, Damaged, Open;
    var u := Run(chunkSize, events).u;
    RunKeeps(chunkSize, events);
    OpenZero(u.inserts, None);
  }

  // A rejected chunk keeps the file out for good, whatever happens afterwards.
  lemma {:induction false} RejectedStaysOut(chunkSize: nat, events: seq<Event>, more: seq<Event>)
    requires chunkSize > 0
    requires Run(chunkSize, events).u.errored && Run(chunkSize, events).u.files == []
    ensures Run(chunkSize, events + more).u.errored && Run(chunkSize, events + more).u.files == []
    decreases |more|
  {
    hide Step;
    if more == [] {
      assert events + more == events;
    } else {
      var before := events + more[..|more| - 1];
      assert (events + more)[..|events + more| - 1] == before;
      RejectedStaysOut(chunkSize, events, more[..|more| - 1]);
      ErroredFilesNothing(Run(chunkSize, before), more[|more| - 1]);
    }
  }

  lemma ErroredFilesNothing(h: History, e: Event)
    requires h.u.chunkSize > 0 && h.u.errored && h.u.files == []
    ensures Step(h, e).u.errored && Step(h, e).u.files == []
  {
    hide DoWrite, End, AckInsert, FiledShort, ComesTooLate;
    match e {
      case WriteCall(data) => ErroredWrite(h.u, data, false);
      case EndCall(last) => ErroredEnd(h.u, last);
      case Answer(i, ok) => if CanAnswer(h.u, i) { ErroredAck(h.u, i); }
      case _ =>
    }
  }

  lemma ErroredWrite(u: Upload, data: seq<byte>, ends: bool)
    requires u.chunkSize > 0 && u.errored && u.files == []
    ensures DoWrite(u, data, ends).errored && DoWrite(u, data, ends).files == []
  {
    hide FullChunks, Remnant;
  }

  lemma ErroredEnd(u: Upload, last: Option<seq<byte>>)
    requires u.chunkSize > 0 && u.errored && u.files == []
    ensures End(u, last).errored && End(u, last).files == []
  {
    hide DoWrite;
    if last.Some? {
      ErroredWrite(u.(streamEnd := true), last.value, true);
    }
  }

  lemma ErroredAck(u: Upload, i: nat)
    requires CanAnswer(u, i) && u.errored && u.files == []
    ensures AckInsert(u, i).errored && AckInsert(u, i).files == []
  {
  }

  // A write after `end` while the remnant is on its way: the byte is counted in the length and
  // is in no chunk.
  lemma LateWriteCorrupts(c: nat, a: byte, b: byte)
    requires c > 2
    ensures var h := Run(c, [WriteCall([a]), EndCall(None), WriteCall([b]), Answer(0, true)]);
      h.spoiled && h.u.files == [FilesDoc(2, c)] && ChunksOf(h.u.inserts) == [Chunk(0, [a])]
  {
    var h0 := History(Fresh(c), [], false, false);
    var h1, h2 := Step(h0, WriteCall([a])), Step(Step(h0, WriteCall([a])), EndCall(None));
    assert [] + [a] == [a];
    assert h1.u == Fresh(c).(carry := [a], length := 1);
    assert h2.u == h1.u.(streamEnd := true, outstanding := 1, inserts := [Insert(Chunk(0, [a]), None, Pending)]);
    var h3 := Step(h2, WriteCall([b]));
    assert h3.spoiled && h3.u == h2.u.(carry := [a] + [b], length := 2);
    var h4 := Step(h3, Answer(0, true));
    assert h4.u.inserts == [Insert(Chunk(0, [a]), None, Acked)] && h4.u.files == [FilesDoc(2, c)];
    RunFour(c, WriteCall([a]), EndCall(None), WriteCall([b]), Answer(0, true));
  }

  // A write after the files document: its byte is in neither.
  lemma LateWriteIsLost(c: nat, b: byte)
    requires c > 1
    ensures var h := Run(c, [EndCall(None), WriteCall([b])]);
      h.spoiled && h.u.files == [FilesDoc(0, c)] && h.u.inserts == [] && h.written == [b]
  {
    RunTwo(c, EndCall(None), WriteCall([b]));
    assert [] + [b] == [b];
  }

  lemma RunTwo(c: nat, a: Event, b: Event)
    requires c > 0
    ensures Run(c, [a, b]) == Step(Step(History(Fresh(c), [], false, false), a), b)
  {
    hide Step;
    assert [a, b][..1] == [a] && [a][..0] == [];
    assert Run(c, [a]) == Step(Run(c, []), a);
  }

  lemma RunFour(c: nat, a: Event, b: Event, d: Event, e: Event)
    requires c > 0
    ensures Run(c, [a, b, d, e]) == Step(Step(Step(Step(History(Fresh(c), [], false, false), a), b), d), e)
  {
    hide Step;
    RunTwo(c, a, b);
    assert [a, b, d, e][..3] == [a, b, d] && [a, b, d][..2] == [a, b];
    assert Run(c, [a, b, d]) == Step(Run(c, [a, b]), d);
  }
}
