/**
 What iterating a cursor delivers, and what the client-side limit guarantees.
 */
module CursorResults {
  import opened Wrappers
  import opened Cursors

  // ----- Collecting a whole result -----

  // A finite result in any batches, empty ones included: the server closes with the last.
  predicate Complete(replies: seq<Reply>)
  {
    && replies != []
    && (forall i :: 0 <= i < |replies| ==> replies[i].Batch? && (replies[i].dead <==> i == |replies| - 1))
  }

  function AllDocuments(replies: seq<Reply>): seq<Document>
    requires forall i :: 0 <= i < |replies| ==> replies[i].Batch?
  {
    if replies == [] then [] else replies[0].documents + AllDocuments(replies[1..])
  }

  predicate NoNullHead(t: Transform, documents: seq<Document>)
  {
    documents != [] ==> !t(documents[0]).Null?
  }

  predicate NoNullHeads(t: Transform, replies: seq<Reply>)
    requires forall i :: 0 <= i < |replies| ==> replies[i].Batch?
  {
    forall i :: 0 <= i < |replies| ==> NoNullHead(t, replies[i].documents)
  }

  // What toArray needs of the transform: it looks at the first document of each batch for a
  // null, and for anything falsy when the first batch is also the last.
  predicate Presented(t: Transform, replies: seq<Reply>)
    requires Complete(replies)
  {
    && NoNullHeads(t, replies)
    && (|replies| == 1 && replies[0].documents != [] ==> t(replies[0].documents[0]).Truthy?)
  }

  lemma TransformedConcat(t: Transform, a: seq<Document>, b: seq<Document>)
    ensures Transformed(t, a + b) == Transformed(t, a) + Transformed(t, b)
  {
  }

  lemma TransformedHead(t: Transform, documents: seq<Document>)
    requires documents != []
    ensures Transformed(t, documents) == [t(documents[0])] + Transformed(t, documents[1..])
  {
  }

  // The documents of a finished cursor are collected without asking the server.
  lemma FinishedToArray(t: Transform, c: Cursor, values: seq<Value>)
    requires IsDead(c.id) && !c.closed
    ensures var r := ToArray(t, c, values).1;
      if NoNullHead(t, c.documents) then r == Done(values + Transformed(t, c.documents))
      else r == Done(values)
  {
    if c.documents != [] {
      TransformedHead(t, c.documents);
      var d := c.(documents := c.documents[1..]);
      assert Next(t, c) == (d, Got(t(c.documents[0])));
      if !t(c.documents[0]).Null? {
        assert values + [t(c.documents[0])] + Transformed(t, d.documents) == values + Transformed(t, c.documents);
        assert Next(t, d.(documents := [])).1 == End;
      }
    } else {
      assert values + Transformed(t, c.documents) == values;
    }
  }

  // From a live cursor on: everything buffered and still to come, or less when a batch
  // starts with a null.
  lemma {:induction false} LiveToArray(t: Transform, c: Cursor, values: seq<Value>)
    requires c.id.Live? && !c.closed && c.limit <= 0 && Complete(c.replies)
    ensures var r := ToArray(t, c, values).1;
      var all := c.documents + AllDocuments(c.replies);
      if NoNullHead(t, c.documents) && NoNullHeads(t, c.replies) then r == Done(values + Transformed(t, all))
      else r.Done? && |r.values| < |values| + |all|
    decreases |c.replies|, 1, |c.documents|
  {
    hide Transformed;
    var rest := AllDocuments(c.replies);
    if c.documents != [] {
      var head, d := t(c.documents[0]), c.(documents := c.documents[1..]);
      assert Next(t, c) == (d, Got(head));
      if !head.Null? {
        LiveToArray(t, d.(documents := []), values + [head] + Transformed(t, d.documents));
        assert [] + rest == rest;
        Gathered(t, values, c.documents, rest);
        assert |values + [head] + Transformed(t, d.documents)| == |values| + |c.documents|;
      }
    } else {
      LiveAsks(t, c, values);
    }
  }

  lemma Gathered(t: Transform, values: seq<Value>, documents: seq<Document>, rest: seq<Document>)
    requires documents != []
    ensures values + [t(documents[0])] + Transformed(t, documents[1..]) + Transformed(t, rest)
         == values + Transformed(t, documents + rest)
    ensures |Transformed(t, documents[1..])| == |documents| - 1
  {
    TransformedHead(t, documents);
    TransformedConcat(t, documents, rest);
  }

  lemma {:induction false} LiveAsks(t: Transform, c: Cursor, values: seq<Value>)
    requires c.id.Live? && !c.closed && c.limit <= 0 && Complete(c.replies) && c.documents == []
    ensures var r := ToArray(t, c, values).1;
      var all := AllDocuments(c.replies);
      if NoNullHeads(t, c.replies) then r == Done(values + Transformed(t, all))
      else r.Done? && |r.values| < |values| + |all|
    decreases |c.replies|, 0
  {
    hide Transformed;
    var reply, later := c.replies[0], c.replies[1..];
    var more := Answered(c.(replies := later), reply);
    assert Next(t, c) == GetMore(t, c);
    HeadsSplit(t, c.replies);
    if reply.dead {
      assert later == [] && AllDocuments(c.replies) == reply.documents + [];
      if reply.documents == [] {
        Sizes(t, []);
        assert values + Transformed(t, []) == values;
      } else {
        assert ToArray(t, c, values) == ToArray(t, more, values);
        FinishedToArray(t, more, values);
      }
    } else {
      assert Complete(later);
      assert ToArray(t, c, values) == ToArray(t, more, values);
      LiveToArray(t, more, values);
    }
  }

  lemma HeadsSplit(t: Transform, replies: seq<Reply>)
    requires Complete(replies)
    ensures NoNullHeads(t, replies) <==> NoNullHead(t, replies[0].documents) && NoNullHeads(t, replies[1..])
  {
    if NoNullHead(t, replies[0].documents) && NoNullHeads(t, replies[1..]) {
      forall i | 0 <= i < |replies|
        ensures NoNullHead(t, replies[i].documents)
      {
        assert i > 0 ==> replies[i] == replies[1..][i - 1];
      }
    }
  }

  // On a fresh cursor without a limit, toArray returns all documents of the result in order,
  // each transformed once, exactly when the transform presents the heads of the batches.
  lemma ToArrayDelivers(t: Transform, batchSize: nat, replies: seq<Reply>)
    requires Complete(replies)
    ensures var r := ToArray(t, NewCursor(0, batchSize, replies), []).1;
      r == Done(Transformed(t, AllDocuments(replies))) <==> Presented(t, replies)
  {
    hide Transformed;
    var c, reply := NewCursor(0, batchSize, replies), replies[0];
    assert Next(t, c) == Initialize(t, c);
    HeadsSplit(t, replies);
    var first := Answered(c.(replies := replies[1..], initialized := true), reply).(numReturned := |reply.documents|);
    Sizes(t, AllDocuments(replies));
    assert [] + Transformed(t, AllDocuments(replies)) == Transformed(t, AllDocuments(replies));
    if !reply.dead {
      assert ToArray(t, c, []) == ToArray(t, first, []);
      LiveToArray(t, first, []);
    } else {
      assert replies[1..] == [] && AllDocuments(replies) == reply.documents + [];
      DeadAtOnce(t, first);
    }
  }

  lemma Sizes(t: Transform, documents: seq<Document>)
    ensures |Transformed(t, documents)| == |documents|
  {
  }

  // The first batch is the last.
  lemma DeadAtOnce(t: Transform, c: Cursor)
    requires c.id.Zero? && !c.closed
    ensures var (d, step) := InitializedDead(t, c);
      if c.documents == [] then step == End
      else if t(c.documents[0]).Truthy? then d == c.(documents := c.documents[1..]) && step == Got(t(c.documents[0]))
      else Next(t, c.(documents := c.documents[1..])) == (d, step)
  {
  }

  // In particular a transform without falsy results delivers everything.
  lemma TruthyTransformDelivers(t: Transform, batchSize: nat, replies: seq<Reply>)
    requires Complete(replies) && forall d :: t(d).Truthy?
    ensures ToArray(t, NewCursor(0, batchSize, replies), []).1 == Done(Transformed(t, AllDocuments(replies)))
  {
    hide ToArray, Transformed;
    ToArrayDelivers(t, batchSize, replies);
  }

  // ----- The limit -----

  // A server that sends no more than it was asked for, whatever errors come between. A cursor
  // that asks for nothing is closed and gets no more.
  predicate Honest(limit: int, batchSize: nat, numReturned: nat, replies: seq<Reply>)
    decreases |replies|
  {
    replies == [] || Asks(limit, batchSize, numReturned).None?
    || (if replies[0].Batch? then
          && |replies[0].documents| <= Asks(limit, batchSize, numReturned).value
          && Honest(limit, batchSize, numReturned + |replies[0].documents|, replies[1..])
        else Honest(limit, batchSize, numReturned, replies[1..]))
  }

  predicate WithinLimit(c: Cursor)
  {
    && !c.id.Unset? && 0 < c.limit && |c.documents| <= c.numReturned <= c.limit
    && (c.numReturned > 0 || FullBatch(c.batchSize) <= c.limit)
    && (c.id.Live? ==> Honest(c.limit, c.batchSize, c.numReturned, c.replies))
  }

  // Whatever a call of next does, a document handed out was counted, and the count stays
  // within the limit.
  lemma {:induction false} NextWithinLimit(t: Transform, c: Cursor)
    requires WithinLimit(c)
    ensures var (d, step) := Next(t, c);
      && WithinLimit(d) && d.limit == c.limit
      && d.numReturned - |d.documents| >= c.numReturned - |c.documents| + (if step.Got? then 1 else 0)
    decreases |c.replies|
  {
    hide WithinLimit, Honest;
    QuietWithinLimit(c);
    if !c.closed && c.documents == [] && c.id.Live? && c.replies != []
       && Asks(c.limit, c.batchSize, c.numReturned).Some?
    {
      assert Next(t, c) == GetMore(t, c);
      if c.replies[0].Batch? {
        var more := Answered(c.(replies := c.replies[1..]), c.replies[0]);
        MoreWithinLimit(c);
        if c.replies[0].dead {
          QuietWithinLimit(more);
          QuietWithinLimit(Cleanup(more));
        } else {
          NextWithinLimit(t, more);
        }
      } else {
        FailedWithinLimit(c);
      }
    }
  }

  // The steps without a reply.
  lemma QuietWithinLimit(c: Cursor)
    requires WithinLimit(c)
    ensures !c.id.Unset? && WithinLimit(Cleanup(c)) && WithinLimit(c.(closed := true, killed := true))
    ensures c.documents != [] ==> WithinLimit(c.(documents := c.documents[1..]))
  {
  }

  lemma FailedWithinLimit(c: Cursor)
    requires WithinLimit(c) && c.id.Live? && c.replies != [] && !c.replies[0].Batch?
    requires Asks(c.limit, c.batchSize, c.numReturned).Some?
    ensures WithinLimit(Cleanup(c.(replies := c.replies[1..])))
  {
  }

  lemma MoreWithinLimit(c: Cursor)
    requires WithinLimit(c) && c.documents == [] && c.id.Live? && c.replies != [] && c.replies[0].Batch?
    requires Asks(c.limit, c.batchSize, c.numReturned).Some?
    ensures WithinLimit(Answered(c.(replies := c.replies[1..]), c.replies[0]))
  {
  }

  // How many documents k calls of next hand out.
  function Handed(t: Transform, c: Cursor, k: nat): nat
    decreases k
  {
    if k == 0 then 0
    else
      var (d, step) := Next(t, c);
      (if step.Got? then 1 else 0) + Handed(t, d, k - 1)
  }

  lemma {:induction false} HandsOutWithinLimit(t: Transform, c: Cursor, k: nat)
    requires WithinLimit(c)
    ensures Handed(t, c, k) <= c.limit - (c.numReturned - |c.documents|)
    decreases k
  {
    hide Next, WithinLimit;
    Bounded(c);
    if k > 0 {
      NextWithinLimit(t, c);
      HandsOutWithinLimit(t, Next(t, c).0, k - 1);
    }
  }

  // Buffered documents are handed out one by one.
  lemma {:induction false} HandsOutBuffered(t: Transform, c: Cursor, k: nat)
    requires !c.closed && k <= |c.documents|
    ensures Handed(t, c, k) == k
    decreases k
  {
    if k > 0 {
      var d := c.(documents := c.documents[1..]);
      assert Next(t, c) == (d, Got(t(c.documents[0])));
      HandsOutBuffered(t, d, k - 1);
    }
  }

  // The cursor after a first batch that is not the last.
  function Opened(limit: int, batchSize: nat, first: seq<Document>, replies: seq<Reply>): Cursor
  {
    NewCursor(limit, batchSize, replies).(documents := first, id := Live, initialized := true, numReturned := |first|)
  }

  lemma FirstBatch(t: Transform, limit: int, batchSize: nat, first: seq<Document>, replies: seq<Reply>, k: nat)
    ensures var c := NewCursor(limit, batchSize, [Batch(first, false)] + replies);
      Handed(t, c, k) == Handed(t, Opened(limit, batchSize, first, replies), k)
  {
    var c := NewCursor(limit, batchSize, [Batch(first, false)] + replies);
    assert c.replies[0] == Batch(first, false) && c.replies[1..] == replies;
    assert Next(t, c) == Initialize(t, c) == Next(t, Opened(limit, batchSize, first, replies));
  }

  // A cursor opened with this first batch never hands out more than the limit, whatever an
  // honest server goes on to send and however often next is called.
  ghost predicate LimitKept(t: Transform, limit: int, batchSize: nat, first: seq<Document>)
  {
    forall replies, k :: Honest(limit, batchSize, |first|, replies) ==>
      Handed(t, NewCursor(limit, batchSize, [Batch(first, false)] + replies), k) <= limit
  }

  // The client keeps a positive limit exactly when the first batch does and either is not
  // empty or a whole batch fits the limit: an empty first batch leaves the count at 0, which
  // the client takes for no count.
  lemma LimitKeptExactly(t: Transform, limit: int, batchSize: nat, first: seq<Document>)
    requires limit > 0
    ensures LimitKept(t, limit, batchSize, first) <==>
      |first| <= limit && (first != [] || FullBatch(batchSize) <= limit)
  {
    hide Honest, Handed, Next;
    if |first| <= limit && (first != [] || FullBatch(batchSize) <= limit) {
      forall replies, k: nat | Honest(limit, batchSize, |first|, replies)
        ensures Handed(t, NewCursor(limit, batchSize, [Batch(first, false)] + replies), k) <= limit
      {
        FirstBatch(t, limit, batchSize, first, replies, k);
        HandsOutWithinLimit(t, Opened(limit, batchSize, first, replies), k);
      }
    } else if |first| > limit {
      AnyFits(limit, batchSize, |first|);
      FirstBatch(t, limit, batchSize, first, [], |first|);
      HandsOutBuffered(t, Opened(limit, batchSize, first, []), |first|);
      assert Handed(t, NewCursor(limit, batchSize, [Batch(first, false)] + []), |first|) > limit;
    } else {
      FullBatchExceeds(t, limit, batchSize);
    }
  }

  lemma AnyFits(limit: int, batchSize: nat, numReturned: nat)
    ensures Honest(limit, batchSize, numReturned, [])
  {
  }

  // An empty first batch, then a full one.
  lemma FullBatchExceeds(t: Transform, limit: int, batchSize: nat)
    requires 0 < limit < FullBatch(batchSize)
    ensures !LimitKept(t, limit, batchSize, [])
  {
    var size := FullBatch(batchSize);
    var full := Batch(seq(size, _ => 0), false);
    assert [full][1..] == [] && Honest(limit, batchSize, 0, [full]);
    var c := Opened(limit, batchSize, [], [full]);
    var more := Answered(c.(replies := []), full);
    FirstBatch(t, limit, batchSize, [], [full], size);
    assert Next(t, c) == GetMore(t, c) == Next(t, more);
    HandsOutBuffered(t, more, size);
    assert Handed(t, c, size) == size;
  }

  // A full batch is asked for, or, once documents are counted, only what the limit leaves.
  lemma AsksForWhatIsLeft(limit: int, batchSize: nat, numReturned: nat)
    ensures var asked, full := Asks(limit, batchSize, numReturned), if batchSize == 0 then 1000 else batchSize;
      && (numReturned == 0 || limit <= 0 ==> asked == Some(full))
      && (numReturned > 0 && numReturned < limit ==>
            asked.Some? && 0 < asked.value <= full && numReturned + asked.value <= limit
            && (asked.value == full || numReturned + asked.value == limit))
  {
  }

  lemma LimitReachedCloses(limit: int, batchSize: nat, numReturned: nat)
    requires limit > 0
    ensures Asks(limit, batchSize, numReturned).None? <==> numReturned > 0 && numReturned >= limit
  {
  }

  // ----- toArray under a limit -----

  lemma {:induction false} CollectsWithinLimit(t: Transform, c: Cursor, values: seq<Value>)
    requires WithinLimit(c) && |values| <= c.numReturned - |c.documents|
    ensures var r := ToArray(t, c, values).1; r.Done? ==> |r.values| <= c.limit
    decreases |c.replies|, |c.documents|
  {
    hide Next, WithinLimit;
    NextWithinLimit(t, c);
    Bounded(c);
    var (d, step) := Next(t, c);
    if step.Got? && !step.value.Null? {
      var e := d.(documents := []);
      EmptiedWithinLimit(d);
      CollectsWithinLimit(t, e, values + [step.value] + Transformed(t, d.documents));
    }
  }

  lemma EmptiedWithinLimit(c: Cursor)
    requires WithinLimit(c)
    ensures WithinLimit(c.(documents := []))
  {
  }

  lemma Bounded(c: Cursor)
    requires WithinLimit(c)
    ensures c.numReturned <= c.limit
  {
  }

  // So toArray never returns more than a positive limit, whatever the transform, once the
  // first batch is within it (and not empty, or a batch fits the limit anyway).
  lemma ToArrayWithinLimit(t: Transform, limit: int, batchSize: nat, replies: seq<Reply>)
    requires limit > 0 && replies != [] && replies[0].Batch?
    requires var first := |replies[0].documents|;
      && first <= limit && (first > 0 || FullBatch(batchSize) <= limit)
      && Honest(limit, batchSize, first, replies[1..])
    ensures var r := ToArray(t, NewCursor(limit, batchSize, replies), []).1; r.Done? ==> |r.values| <= limit
  {
    hide Honest;
    var c, reply := NewCursor(limit, batchSize, replies), replies[0];
    assert Next(t, c) == Initialize(t, c);
    var first := Answered(c.(replies := replies[1..], initialized := true), reply).(numReturned := |reply.documents|);
    if !reply.dead {
      assert ToArray(t, c, []) == ToArray(t, first, []);
      CollectsWithinLimit(t, first, []);
    } else {
      DeadAtOnce(t, first);
      if reply.documents != [] {
        var d := first.(documents := reply.documents[1..]);
        if t(reply.documents[0]).Truthy? {
          CollectsWithinLimit(t, d.(documents := []), [t(reply.documents[0])] + Transformed(t, d.documents));
          assert [] + [t(reply.documents[0])] == [t(reply.documents[0])];
        } else {
          assert ToArray(t, c, []) == ToArray(t, d, []);
          CollectsWithinLimit(t, d, []);
        }
      }
    }
  }
}
