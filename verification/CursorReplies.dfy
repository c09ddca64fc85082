/**
 Collecting a cursor over any replies, errors and odd responses included: which reply ends it,
 and with what.
 */
module CursorReplies {
  import opened Wrappers
  import opened Cursors
  import opened CursorResults

  // What one batch adds when the cursor is not at its first batch: nothing when it starts with
  // a null, else all its documents.
  function Contribution(t: Transform, documents: seq<Document>): seq<Value>
  {
    if NoNullHead(t, documents) then Transformed(t, documents) else []
  }

  // What the first batch adds when it is also the last: a head that is falsy is dropped first.
  function OnlyContribution(t: Transform, documents: seq<Document>): seq<Value>
  {
    if documents == [] || t(documents[0]).Truthy? then Transformed(t, documents)
    else Contribution(t, documents[1..])
  }

  // Collecting goes on after a reply when it is a batch that leaves the cursor alive, does not
  // start with a null and does not use up the limit.
  predicate Collects(t: Transform, limit: int, batchSize: nat, counted: nat, reply: Reply)
  {
    && reply.Batch? && !reply.dead && NoNullHead(t, reply.documents)
    && Asks(limit, batchSize, counted + |reply.documents|).Some?
  }

  // Reply n, with `counted` documents counted before the first of them, ends it.
  predicate EndsAt(t: Transform, limit: int, batchSize: nat, counted: nat, replies: seq<Reply>, n: nat)
    decreases n
  {
    && replies != []
    && if n == 0 then !Collects(t, limit, batchSize, counted, replies[0])
       else Collects(t, limit, batchSize, counted, replies[0])
            && EndsAt(t, limit, batchSize, counted + |replies[0].documents|, replies[1..], n - 1)
  }

  lemma {:induction false} EndsWithin(t: Transform, limit: int, batchSize: nat, counted: nat, replies: seq<Reply>,
                                      n: nat)
    requires EndsAt(t, limit, batchSize, counted, replies, n)
    ensures n < |replies| && forall i :: 0 <= i < n ==> replies[i].Batch? && !replies[i].dead
    ensures forall i :: 0 <= i < n ==> NoNullHead(t, replies[i].documents)
    decreases n
  {
    if n > 0 {
      EndsWithin(t, limit, batchSize, counted + |replies[0].documents|, replies[1..], n - 1);
      assert forall i :: 1 <= i < n ==> replies[i] == replies[1..][i - 1];
    }
  }

  // The values of some batches, one after the other.
  function Values(t: Transform, replies: seq<Reply>): seq<Value>
    requires forall i :: 0 <= i < |replies| ==> replies[i].Batch?
  {
    if replies == [] then [] else Transformed(t, replies[0].documents) + Values(t, replies[1..])
  }

  // A live cursor that may ask.
  predicate Asking(c: Cursor)
  {
    c.id.Live? && !c.closed && c.documents == [] && Asks(c.limit, c.batchSize, c.numReturned).Some?
  }

  // One batch of a live cursor: the cursor after it, or the end.
  lemma TakesBatch(t: Transform, c: Cursor, values: seq<Value>)
    requires Asking(c) && c.replies != [] && c.replies[0].Batch?
    ensures var reply := c.replies[0];
      var more := Answered(c.(replies := c.replies[1..]), reply);
      if !NoNullHead(t, reply.documents) then ToArray(t, c, values).1 == Done(values)
      else if reply.dead then ToArray(t, c, values).1 == Done(values + Transformed(t, reply.documents))
      else ToArray(t, c, values) == ToArray(t, more.(documents := []), values + Transformed(t, reply.documents))
  {
    var reply := c.replies[0];
    var more := Answered(c.(replies := c.replies[1..]), reply);
    assert Next(t, c) == GetMore(t, c);
    if reply.documents == [] {
      assert values + Transformed(t, reply.documents) == values;
      assert more.(documents := []) == more;
      if !reply.dead {
        assert Next(t, c) == Next(t, more);
      }
    } else {
      var head, rest := t(reply.documents[0]), reply.documents[1..];
      TransformedHead(t, reply.documents);
      assert values + [head] + Transformed(t, rest) == values + Transformed(t, reply.documents);
      if reply.dead {
        DeadEnds(t, more.(documents := []), values + Transformed(t, reply.documents));
      } else {
        assert Next(t, more) == (more.(documents := rest), Got(head));
      }
    }
  }

  lemma DeadEnds(t: Transform, c: Cursor, values: seq<Value>)
    requires IsDead(c.id) && c.documents == []
    ensures ToArray(t, c, values).1 == Done(values)
  {
  }

  // A reply that is no batch ends a live cursor with an error, and the cursor is killed.
  lemma BrokenReply(t: Transform, c: Cursor, values: seq<Value>)
    requires Asking(c) && c.replies != [] && !c.replies[0].Batch?
    ensures ToArray(t, c, values).1 == Failed && ToArray(t, c, values).0.killed
  {
    assert Next(t, c) == GetMore(t, c);
  }

  lemma LimitUsedUp(t: Transform, c: Cursor, values: seq<Value>)
    requires c.id.Live? && !c.closed && c.documents == [] && Asks(c.limit, c.batchSize, c.numReturned).None?
    ensures ToArray(t, c, values) == (c.(closed := true, killed := true), Done(values))
  {
  }

  lemma {:induction false} LiveEnds(t: Transform, c: Cursor, values: seq<Value>, n: nat)
    requires Asking(c) && EndsAt(t, c.limit, c.batchSize, c.numReturned, c.replies, n)
    ensures n < |c.replies| && forall i :: 0 <= i < n ==> c.replies[i].Batch?
    ensures ToArray(t, c, values).1
         == if c.replies[n].Batch?
           then Done(values + Values(t, c.replies[..n]) + Contribution(t, c.replies[n].documents))
            else Failed
    decreases n
  {
    hide ToArray, Transformed, Next, Asks, Values;
    EndsWithin(t, c.limit, c.batchSize, c.numReturned, c.replies, n);
    var reply, rest := c.replies[0], c.replies[1..];
    NoValues(t, values);
    assert c.replies[..0] == [];
    if !reply.Batch? {
      BrokenReply(t, c, values);
    } else {
      TakesBatch(t, c, values);
      var more := Answered(c.(replies := rest), reply).(documents := []);
      var taken := values + Transformed(t, reply.documents);
      if n > 0 {
        LiveEnds(t, more, taken, n - 1);
        ValuesFirst(t, c.replies, n, values);
      } else if NoNullHead(t, reply.documents) && !reply.dead {
        LimitUsedUp(t, more, taken);
      }
    }
  }

  lemma NoValues(t: Transform, values: seq<Value>)
    ensures Values(t, []) == [] && values + [] == values
  {
  }

  lemma ValuesFirst(t: Transform, replies: seq<Reply>, n: nat, values: seq<Value>)
    requires 0 < n <= |replies| && forall i :: 0 <= i < n ==> replies[i].Batch?
    ensures forall i :: 0 <= i < n - 1 ==> replies[1..][i].Batch?
    ensures values + Transformed(t, replies[0].documents) + Values(t, replies[1..][..n - 1])
         == values + Values(t, replies[..n])
  {
    hide Transformed;
    assert replies[..n][1..] == replies[1..][..n - 1] && replies[..n][0] == replies[0];
    assert Values(t, replies[..n]) == Transformed(t, replies[0].documents) + Values(t, replies[1..][..n - 1]);
  }

  lemma {:induction false} LiveWaits(t: Transform, c: Cursor, values: seq<Value>)
    requires Asking(c) && forall n: nat :: !EndsAt(t, c.limit, c.batchSize, c.numReturned, c.replies, n)
    ensures ToArray(t, c, values).1 == Unfinished
    decreases |c.replies|
  {
    if c.replies != [] {
      hide ToArray, Transformed, Next;
      var reply := c.replies[0];
      assert !EndsAt(t, c.limit, c.batchSize, c.numReturned, c.replies, 0);
      TakesBatch(t, c, values);
      var more := Answered(c.(replies := c.replies[1..]), reply).(documents := []);
      forall n: nat
        ensures !EndsAt(t, more.limit, more.batchSize, more.numReturned, more.replies, n)
      {
        assert !EndsAt(t, c.limit, c.batchSize, c.numReturned, c.replies, n + 1);
      }
      LiveWaits(t, more, values + Transformed(t, reply.documents));
    }
  }

  // ----- Main results -----

  // A fresh cursor whose first reply is a batch that is not the last.
  lemma FirstOpens(t: Transform, limit: int, batchSize: nat, replies: seq<Reply>)
    requires replies != [] && replies[0].Batch? && !replies[0].dead
    ensures var documents := replies[0].documents;
      var c := NewCursor(limit, batchSize, replies);
      var live := Opened(limit, batchSize, [], replies[1..]).(numReturned := |documents|);
      if NoNullHead(t, documents) then ToArray(t, c, []) == ToArray(t, live, Transformed(t, documents))
      else ToArray(t, c, []).1 == Done([])
  {
    hide Next, ToArray, Transformed;
    var c, documents := NewCursor(limit, batchSize, replies), replies[0].documents;
    var first := Opened(limit, batchSize, documents, replies[1..]);
    FirstRound(t, c);
    SameNext(t, c, first);
    if documents == [] {
      Sizes(t, []);
    } else {
      TakesBuffered(t, first, []);
      assert [] + Transformed(t, documents) == Transformed(t, documents);
    }
  }

  lemma FirstRound(t: Transform, c: Cursor)
    requires c == NewCursor(c.limit, c.batchSize, c.replies)
    requires c.replies != [] && c.replies[0].Batch? && !c.replies[0].dead
    ensures Next(t, c) == Next(t, Opened(c.limit, c.batchSize, c.replies[0].documents, c.replies[1..]))
  {
    assert Next(t, c) == Initialize(t, c);
  }

  lemma SameNext(t: Transform, c: Cursor, d: Cursor)
    requires Next(t, c) == Next(t, d)
    ensures ToArray(t, c, []) == ToArray(t, d, [])
  {
    hide Next;
  }

  // What is buffered is collected without a request.
  lemma TakesBuffered(t: Transform, c: Cursor, values: seq<Value>)
    requires !c.closed && c.documents != []
    ensures if NoNullHead(t, c.documents) then
              ToArray(t, c, values) == ToArray(t, c.(documents := []), values + Transformed(t, c.documents))
            else ToArray(t, c, values).1 == Done(values)
  {
    hide Transformed;
    var head, d := t(c.documents[0]), c.(documents := c.documents[1..]);
    assert Next(t, c) == (d, Got(head));
    TransformedHead(t, c.documents);
    assert values + [head] + Transformed(t, d.documents) == values + Transformed(t, c.documents);
  }

  // A fresh cursor that is dead at once: no cursor in the response, or the only batch.
  lemma OnlyReply(t: Transform, limit: int, batchSize: nat, replies: seq<Reply>)
    requires replies != [] && (replies[0].NoCursor? || (replies[0].Batch? && replies[0].dead))
    ensures var documents := if replies[0].Batch? then replies[0].documents else [replies[0].response];
      ToArray(t, NewCursor(limit, batchSize, replies), []).1 == Done(OnlyContribution(t, documents))
  {
    var c := NewCursor(limit, batchSize, replies);
    var documents := if replies[0].Batch? then replies[0].documents else [replies[0].response];
    var rest := c.(replies := replies[1..], initialized := true, documents := documents);
    var first := if replies[0].Batch? then rest.(id := Zero, numReturned := |documents|) else rest.(id := Exhausted);
    assert Next(t, c) == Initialize(t, c) == InitializedDead(t, first);
    if documents == [] {
      assert InitializedDead(t, first) == Next(t, Cleanup(first)) == (Cleanup(first), End);
      assert Transformed(t, documents) == [];
    } else {
      var d := first.(documents := documents[1..]);
      TransformedHead(t, documents);
      assert [] + [t(documents[0])] + Transformed(t, documents[1..]) == Transformed(t, documents);
      if t(documents[0]).Truthy? {
        DeadEnds(t, d.(documents := []), Transformed(t, documents));
      } else {
        assert Next(t, c) == Next(t, d);
        assert ToArray(t, c, []) == ToArray(t, d, []);
        FinishedToArray(t, d, []);
        assert [] + Transformed(t, documents[1..]) == Transformed(t, documents[1..]);
      }
    }
  }

  lemma FirstFails(t: Transform, limit: int, batchSize: nat, replies: seq<Reply>)
    requires replies != [] && replies[0].Error?
    ensures var r := ToArray(t, NewCursor(limit, batchSize, replies), []);
      r.1 == Failed && r.0.closed
  {
    var c := NewCursor(limit, batchSize, replies);
    assert Next(t, c) == Initialize(t, c);
  }

  // What ends a fresh cursor at reply n, and what has been collected then.
  function Ended(t: Transform, replies: seq<Reply>, n: nat): Collected
    requires n < |replies| && forall i :: 0 <= i < n ==> replies[i].Batch?
  {
    match replies[n]
    case Error => Failed
    case NoCursor(response) => if n > 0 then Failed else Done(OnlyContribution(t, [response]))
    case Batch(documents, dead) =>
      Done(Values(t, replies[..n])
           + (if n == 0 && dead then OnlyContribution(t, documents) else Contribution(t, documents)))
  }

  lemma EndedAt(t: Transform, limit: int, batchSize: nat, replies: seq<Reply>, n: nat)
    requires EndsAt(t, limit, batchSize, 0, replies, n)
    ensures n < |replies| && forall i :: 0 <= i < n ==> replies[i].Batch?
    ensures ToArray(t, NewCursor(limit, batchSize, replies), []).1 == Ended(t, replies, n)
  {
    hide ToArray, Transformed, Next, Asks;
    EndsWithin(t, limit, batchSize, 0, replies, n);
    var reply, rest := replies[0], replies[1..];
    assert replies[..0] == [];
    if reply.Error? {
      FirstFails(t, limit, batchSize, replies);
    } else if reply.NoCursor? || reply.dead {
      OnlyReply(t, limit, batchSize, replies);
      assert reply.Batch? ==> [] + OnlyContribution(t, reply.documents) == OnlyContribution(t, reply.documents);
    } else {
      FirstOpens(t, limit, batchSize, replies);
      var c := Opened(limit, batchSize, [], rest).(numReturned := |reply.documents|);
      var taken := Transformed(t, reply.documents);
      if n > 0 {
        LiveEnds(t, c, taken, n - 1);
        assert replies[..n][1..] == rest[..n - 1] && replies[..n][0] == reply;
        assert Values(t, replies[..n]) == taken + Values(t, rest[..n - 1]);
      } else {
        assert [] + Contribution(t, reply.documents) == Contribution(t, reply.documents);
        if NoNullHead(t, reply.documents) {
          LimitUsedUp(t, c, taken);
        }
      }
    }
  }

  lemma NotEnded(t: Transform, limit: int, batchSize: nat, replies: seq<Reply>)
    requires forall n: nat :: !EndsAt(t, limit, batchSize, 0, replies, n)
    ensures ToArray(t, NewCursor(limit, batchSize, replies), []).1 == Unfinished
  {
    if replies != [] {
      hide ToArray, Transformed, Next;
      assert !EndsAt(t, limit, batchSize, 0, replies, 0);
      FirstOpens(t, limit, batchSize, replies);
      var c := Opened(limit, batchSize, [], replies[1..]).(numReturned := |replies[0].documents|);
      forall n: nat
        ensures !EndsAt(t, c.limit, c.batchSize, c.numReturned, c.replies, n)
      {
        assert !EndsAt(t, limit, batchSize, 0, replies, n + 1);
      }
      LiveWaits(t, c, Transformed(t, replies[0].documents));
    }
  }

  lemma {:induction false} OneEnd(
    t: Transform, limit: int, batchSize: nat, counted: nat, replies: seq<Reply>, n: nat, k: nat)
    requires EndsAt(t, limit, batchSize, counted, replies, n) && EndsAt(t, limit, batchSize, counted, replies, k)
    ensures n == k
    decreases n
  {
    if n > 0 && k > 0 {
      OneEnd(t, limit, batchSize, counted + |replies[0].documents|, replies[1..], n - 1, k - 1);
    }
  }

  // Whatever is replied: toArray fails exactly when the reply that ends it is an error, or no
  // cursor in answer to a getMore; it is done, with exactly these documents, exactly when that
  // reply is a batch (the last one, one that starts with a null, or one that uses up the
  // limit) or the very first is no cursor; and it waits exactly while no reply has ended it.
  lemma ToArrayExactly(t: Transform, limit: int, batchSize: nat, replies: seq<Reply>)
    ensures var r := ToArray(t, NewCursor(limit, batchSize, replies), []).1;
      && (r == Failed <==> exists n: nat :: EndsAt(t, limit, batchSize, 0, replies, n) && Breaks(replies, n))
      && (r == Unfinished <==> forall n: nat :: !EndsAt(t, limit, batchSize, 0, replies, n))
      && (forall n: nat :: EndsAt(t, limit, batchSize, 0, replies, n) && !Breaks(replies, n) ==> r.Done?)
      && (forall n: nat :: EndsAt(t, limit, batchSize, 0, replies, n) ==>
            n < |replies| && (forall i :: 0 <= i < n ==> replies[i].Batch?) && r == Ended(t, replies, n))
  {
    hide ToArray, EndsAt, Transformed, Asks;
    if n: nat :| EndsAt(t, limit, batchSize, 0, replies, n) {
      EndedAt(t, limit, batchSize, replies, n);
      forall k: nat | EndsAt(t, limit, batchSize, 0, replies, k)
        ensures k == n
      {
        OneEnd(t, limit, batchSize, 0, replies, n, k);
      }
    } else {
      NotEnded(t, limit, batchSize, replies);
    }
  }

  predicate Breaks(replies: seq<Reply>, n: nat)
  {
    n < |replies| && (replies[n].Error? || (replies[n].NoCursor? && n > 0))
  }
}
