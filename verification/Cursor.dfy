/**
 Iterating a cursor (src/cursor/abstract_cursor.ts) and the limit a find cursor keeps by itself
 (src/cursor/find_cursor.ts). What the server will answer is part of the state: each request
 takes the next reply.
 */
module Cursors {
  import opened Wrappers

  type Document = nat

  // What a transform makes of a document, as far as iteration looks at it.
  datatype Value = Null | Falsy | Truthy(id: nat)

  type Transform = Document -> Value

  // The cursor id: not known yet, live, zero, or the shared zero of an exhausted cursor.
  datatype CursorId = Unset | Live | Zero | Exhausted

  // A batch, a response without a cursor, or an error.
  datatype Reply = Batch(documents: seq<Document>, dead: bool) | NoCursor(response: Document) | Error

  const DEFAULT_BATCH_SIZE: nat := 1000

  // limit and batchSize are 0 where they are not set.
  datatype Cursor = Cursor(
    documents: seq<Document>, id: CursorId, closed: bool, killed: bool, initialized: bool,
    limit: int, batchSize: nat, numReturned: nat, replies: seq<Reply>)

  function NewCursor(limit: int, batchSize: nat, replies: seq<Reply>): Cursor
  {
    Cursor([], Unset, false, false, false, limit, batchSize, 0, replies)
  }

  datatype Step = Got(value: Value) | End | Threw | Waiting

  predicate IsDead(id: CursorId)
  {
    id.Zero? || id.Exhausted?
  }

  function FullBatch(batchSize: nat): nat
  {
    if batchSize == 0 then DEFAULT_BATCH_SIZE else batchSize
  }

  // The batch size asked for, or nothing when the limit is used up. A count of 0 is no count.
  function Asks(limit: int, batchSize: nat, numReturned: nat): Option<int>
  {
    var size := FullBatch(batchSize);
    var capped := if numReturned > 0 && limit > 0 && numReturned + size > limit then limit - numReturned else size;
    if capped <= 0 then None else Some(capped)
  }

  // A cursor without a live id closes when nothing is buffered; one with a live id is killed
  // on the server.
  function Cleanup(c: Cursor): Cursor
  {
    if c.id.Live? then c.(killed := true)
    else if c.documents == [] then c.(closed := true, id := Exhausted)
    else c
  }

  function Answered(c: Cursor, reply: Reply): Cursor
    requires reply.Batch?
  {
    c.(documents := reply.documents, id := if reply.dead then Zero else Live,
       numReturned := c.numReturned + |reply.documents|)
  }

  // The first buffered document, transformed.
  function NextDocument(t: Transform, c: Cursor): (Cursor, Value)
  {
    if c.documents == [] then (c, Null) else (c.(documents := c.documents[1..]), t(c.documents[0]))
  }

  function Next(t: Transform, c: Cursor): (r: (Cursor, Step))
    ensures |r.0.replies| <= |c.replies|
    ensures |r.0.replies| == |c.replies| && r.1.Got? ==> |r.0.documents| < |c.documents|
    decreases |c.replies|, 1
  {
    if c.closed then (c, End)
    else if c.documents != [] then
      var (d, value) := NextDocument(t, c);
      (d, Got(value))
    else if IsDead(c.id) then (Cleanup(c), End)
    else if c.id.Unset? then
      if c.replies == [] then (c, Waiting) else Initialize(t, c)
    else
      var size := Asks(c.limit, c.batchSize, c.numReturned);
      if size.None? then (c.(closed := true, killed := true), End)
      else if c.replies == [] then (c, Waiting)
      else GetMore(t, c)
  }

  function Initialize(t: Transform, c: Cursor): (r: (Cursor, Step))
    requires c.replies != [] && c.id.Unset? && c.documents == [] && !c.closed
    ensures |r.0.replies| < |c.replies|
    decreases |c.replies|, 0
  {
    var rest := c.(replies := c.replies[1..], initialized := true);
    match c.replies[0]
    case Error => (Cleanup(rest), Threw)
    case NoCursor(response) => InitializedDead(t, rest.(id := Exhausted, documents := [response]))
    case Batch(documents, dead) =>
      var first := Answered(rest, c.replies[0]).(numReturned := |documents|);
      if dead then InitializedDead(t, first) else Next(t, first)
  }

  // A cursor that is dead at once hands out its first document, unless that is falsy.
  function InitializedDead(t: Transform, c: Cursor): (r: (Cursor, Step))
    ensures |r.0.replies| <= |c.replies|
    decreases |c.replies|, 2
  {
    var (d, value) := NextDocument(t, Cleanup(c));
    if value.Truthy? then (d, Got(value)) else Next(t, d)
  }

  function GetMore(t: Transform, c: Cursor): (r: (Cursor, Step))
    requires c.replies != [] && c.id.Live? && c.documents == [] && !c.closed
    ensures |r.0.replies| < |c.replies|
    decreases |c.replies|, 0
  {
    var rest := c.(replies := c.replies[1..]);
    if !c.replies[0].Batch? then (Cleanup(rest), Threw)
    else
      var more := Answered(rest, c.replies[0]);
      if c.replies[0].dead then
        var (d, value) := NextDocument(t, Cleanup(more));
        (d, if more.documents == [] then End else Got(value))
      else Next(t, more)
  }

  function Transformed(t: Transform, documents: seq<Document>): (values: seq<Value>)
    ensures |values| == |documents| && forall i :: 0 <= i < |documents| ==> values[i] == t(documents[i])
  {
    seq(|documents|, i requires 0 <= i < |documents| => t(documents[i]))
  }

  datatype Collected = Done(values: seq<Value>) | Failed | Unfinished

  // The next document, the rest of its batch, and so on; a null in place of a document ends it.
  function ToArray(t: Transform, c: Cursor, values: seq<Value>): (r: (Cursor, Collected))
    decreases |c.replies|, |c.documents|
  {
    var (d, step) := Next(t, c);
    match step
    case Threw => (d, Failed)
    case Waiting => (d, Unfinished)
    case End => (d, Done(values))
    case Got(value) =>
      if value.Null? then (d, Done(values))
      else ToArray(t, d.(documents := []), values + [value] + Transformed(t, d.documents))
  }

  class FindCursor {
    const transform: Transform
    const limit: int
    const batchSize: nat
    var documents: seq<Document>
    var id: CursorId
    var closed: bool
    var killed: bool
    var initialized: bool
    var numReturned: nat
    var replies: seq<Reply>

    ghost function State(): Cursor
      reads this
    {
      Cursor(documents, id, closed, killed, initialized, limit, batchSize, numReturned, replies)
    }

    constructor (transform: Transform, limit: int, batchSize: nat, replies: seq<Reply>)
      ensures this.transform == transform && State() == NewCursor(limit, batchSize, replies)
    {
      this.transform, this.limit, this.batchSize, this.replies := transform, limit, batchSize, replies;
      documents, id, closed, killed, initialized, numReturned := [], Unset, false, false, false, 0;
    }

    method CleanupCursor()
      modifies `closed, `killed, `id
      ensures State() == Cleanup(old(State()))
    {
      if id.Live? {
        killed := true;
      } else if |documents| == 0 {
        closed := true;
        id := Exhausted;
      }
    }

    method NextDocumentNow() returns (value: Value)
      modifies `documents
      ensures (State(), value) == NextDocument(transform, old(State()))
    {
      if |documents| == 0 {
        return Null;
      }
      value := transform(documents[0]);
      documents := documents[1..];
    }

    method Advance() returns (step: Step)
      modifies `documents, `id, `closed, `killed, `initialized, `numReturned, `replies
      ensures (State(), step) == Next(transform, old(State()))
      decreases |replies|, 1
    {
      if closed {
        return End;
      }
      if |documents| > 0 {
        var value := NextDocumentNow();
        return Got(value);
      }
      if id.Unset? {
        if |replies| == 0 {
          return Waiting;
        }
        step := Init();
        return;
      }
      if IsDead(id) {
        CleanupCursor();
        return End;
      }
      var size := Asks(limit, batchSize, numReturned);
      if size.None? {
        closed, killed := true, true;
        return End;
      }
      if |replies| == 0 {
        return Waiting;
      }
      step := GetMoreNow();
    }

    method Init() returns (step: Step)
      requires |replies| > 0 && id.Unset? && documents == [] && !closed
      modifies `documents, `id, `closed, `killed, `initialized, `numReturned, `replies
      ensures (State(), step) == Initialize(transform, old(State()))
      decreases |replies|, 0
    {
      var reply := replies[0];
      replies := replies[1..];
      initialized := true;
      match reply {
        case Error =>
          CleanupCursor();
          return Threw;
        case NoCursor(response) =>
          id, documents := Exhausted, [response];
        case Batch(batch, dead) =>
          numReturned := |batch|;
          id, documents := if dead then Zero else Live, batch;
          if !dead {
            step := Advance();
            return;
          }
      }
      CleanupCursor();
      var value := NextDocumentNow();
      if value.Truthy? {
        return Got(value);
      }
      step := Advance();
    }

    method GetMoreNow() returns (step: Step)
      requires |replies| > 0 && id.Live? && documents == [] && !closed
      modifies `documents, `id, `closed, `killed, `initialized, `numReturned, `replies
      ensures (State(), step) == GetMore(transform, old(State()))
      decreases |replies|, 0
    {
      var reply := replies[0];
      replies := replies[1..];
      if !reply.Batch? {
        CleanupCursor();
        return Threw;
      }
      numReturned := numReturned + |reply.documents|;
      documents := reply.documents;
      id := if reply.dead then Zero else Live;
      if IsDead(id) {
        var empty := |documents| == 0;
        CleanupCursor();
        var value := NextDocumentNow();
        return if empty then End else Got(value);
      }
      step := Advance();
    }

    method ToArrayNow() returns (r: Collected)
      modifies `documents, `id, `closed, `killed, `initialized, `numReturned, `replies
      ensures (State(), r) == ToArray(transform, old(State()), [])
    {
      hide Next;
      var values: seq<Value> := [];
      while true
        invariant ToArray(transform, State(), values) == ToArray(transform, old(State()), [])
        decreases |replies|, |documents|
      {
        var step := Advance();
        match step {
          case Threw => return Failed;
          case Waiting => return Unfinished;
          case End => return Done(values);
          case Got(value) =>
            if value.Null? {
              return Done(values);
            }
            values := values + [value] + Transformed(transform, documents);
            documents := [];
        }
      }
    }
  }
}
