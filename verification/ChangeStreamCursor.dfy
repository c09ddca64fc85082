/**
 The cursor under a change stream (src/change_stream.ts, src/cursor/abstract_cursor.ts): its
 buffered changes and the resume token it caches.

 The server's log is a row of entries; a token is a position in it and stands for "after the
 first p entries". The change at entry i has the token i + 1 as its _id.
 */
module ChangeStreamCursors {
  import opened Wrappers

  type Token = nat

  const RESUME_WIRE_VERSION := 7

  // Where a change stream may be asked to start.
  datatype Options = Options(startAfter: Option<Token>, resumeAfter: Option<Token>, startAtOperationTime: Option<Token>)

  const NO_OPTIONS := Options(None, None, None)

  // The server starts after the token, at the operation time, or where it is now.
  function StartPosition(o: Options): Option<Token>
  {
    if o.startAfter.Some? then o.startAfter
    else if o.resumeAfter.Some? then o.resumeAfter
    else o.startAtOperationTime
  }

  // A change as delivered: a pipeline may have projected its _id away.
  datatype Change = Change(entry: nat, hasId: bool)

  // A cursor id: not known yet, live, zero, or the shared zero that marks an exhausted cursor.
  datatype CursorId = Unset | Live | Dead | Exhausted

  datatype Cursor = Cursor(
    options: Options, documents: seq<Change>, id: CursorId, closed: bool, server: Option<nat>,
    resumeToken: Option<Token>, startAtOperationTime: Option<Token>, hasReceived: bool,
    postBatchResumeToken: Option<Token>)

  // One response: the changes, the token after the batch if the server sends one, whether the
  // server closed its cursor, its wire version, and the operation time.
  datatype Response = Response(
    batch: seq<Change>, postBatchResumeToken: Option<Token>, dead: bool, wireVersion: nat, operationTime: Token)

  function NewCursor(o: Options): Cursor
  {
    Cursor(o, [], Unset, false, None, if o.startAfter.Some? then o.startAfter else o.resumeAfter,
           o.startAtOperationTime, false, None)
  }

  function WireVersion(c: Cursor): nat
  {
    if c.server.Some? then c.server.value else 0
  }

  function ResumeOptions(c: Cursor): Options
  {
    if c.resumeToken.Some? then
      if c.options.startAfter.Some? && !c.hasReceived then NO_OPTIONS.(startAfter := c.resumeToken)
      else NO_OPTIONS.(resumeAfter := c.resumeToken)
    else if c.startAtOperationTime.Some? then
      if WireVersion(c) >= RESUME_WIRE_VERSION then NO_OPTIONS.(startAtOperationTime := c.startAtOperationTime)
      else NO_OPTIONS
    else c.options
  }

  function CacheResumeToken(c: Cursor, token: Token): Cursor
  {
    c.(resumeToken := if c.documents == [] && c.postBatchResumeToken.Some? then c.postBatchResumeToken else Some(token),
       hasReceived := true)
  }

  function ProcessBatch(c: Cursor, response: Response): Cursor
  {
    if response.postBatchResumeToken.None? then c
    else c.(postBatchResumeToken := response.postBatchResumeToken,
            resumeToken := if response.batch == [] then response.postBatchResumeToken else c.resumeToken)
  }

  // The reply to the aggregate that opens the cursor, or to a getMore.
  function Receive(c: Cursor, response: Response): Cursor
  {
    var timed := if c.id.Unset? && c.startAtOperationTime.None? && response.wireVersion >= RESUME_WIRE_VERSION
                 then c.(startAtOperationTime := Some(response.operationTime)) else c;
    var batched := ProcessBatch(timed, response)
      .(documents := response.batch, id := if response.dead then Dead else Live,
        server := if c.id.Unset? then Some(response.wireVersion) else c.server);
    if response.dead then Cleanup(batched) else batched
  }

  // A dead cursor with nothing buffered is closed and marked exhausted.
  function Cleanup(c: Cursor): Cursor
  {
    if c.documents == [] then c.(closed := true, id := Exhausted) else c
  }

  datatype Got = Document(change: Change) | Nothing | NeedServer

  // One round of `next`: a buffered document, the end, or a request to the server.
  function Take(c: Cursor): (Cursor, Got)
  {
    if c.closed then (c, Nothing)
    else if c.documents != [] then (c.(documents := c.documents[1..]), Document(c.documents[0]))
    else if c.id.Unset? || c.id.Live? then (c, NeedServer)
    else (Cleanup(c), Nothing)
  }

  class ChangeStreamCursor {
    const options: Options
    var documents: seq<Change>
    var id: CursorId
    var closed: bool
    var server: Option<nat>
    var resumeToken: Option<Token>
    var startAtOperationTime: Option<Token>
    var hasReceived: bool
    var postBatchResumeToken: Option<Token>

    ghost function State(): Cursor
      reads this
    {
      Cursor(options, documents, id, closed, server, resumeToken, startAtOperationTime, hasReceived,
             postBatchResumeToken)
    }

    constructor (options: Options)
      ensures State() == NewCursor(options)
    {
      this.options := options;
      documents, id, closed, server := [], Unset, false, None;
      resumeToken := None;
      startAtOperationTime := options.startAtOperationTime;
      hasReceived, postBatchResumeToken := false, None;
      if options.startAfter.Some? {
        resumeToken := options.startAfter;
      } else if options.resumeAfter.Some? {
        resumeToken := options.resumeAfter;
      }
    }

    method ResumeOptionsNow() returns (result: Options)
      ensures result == ResumeOptions(State())
    {
      result := options;
      if resumeToken.Some? || startAtOperationTime.Some? {
        result := NO_OPTIONS;
        if resumeToken.Some? {
          if options.startAfter.Some? && !hasReceived {
            result := result.(startAfter := resumeToken);
          } else {
            result := result.(resumeAfter := resumeToken);
          }
        } else if server.Some? && server.value >= RESUME_WIRE_VERSION {
          result := result.(startAtOperationTime := startAtOperationTime);
        }
      }
    }

    method CacheResumeTokenNow(token: Token)
      modifies this
      ensures State() == CacheResumeToken(old(State()), token)
    {
      if |documents| == 0 && postBatchResumeToken.Some? {
        resumeToken := postBatchResumeToken;
      } else {
        resumeToken := Some(token);
      }
      hasReceived := true;
    }

    method ProcessBatchNow(response: Response)
      modifies this
      ensures State() == ProcessBatch(old(State()), response)
    {
      if response.postBatchResumeToken.Some? {
        postBatchResumeToken := response.postBatchResumeToken;
        if |response.batch| == 0 {
          resumeToken := response.postBatchResumeToken;
        }
      }
    }

    // The callbacks of `_initialize` and `_getMore` with what `kInit` and `next` do to the cursor.
    method OnResponse(response: Response)
      modifies this
      ensures State() == Receive(old(State()), response)
    {
      if id == Unset {
        if startAtOperationTime.None? && response.wireVersion >= RESUME_WIRE_VERSION {
          startAtOperationTime := Some(response.operationTime);
        }
        server := Some(response.wireVersion);
      }
      ProcessBatchNow(response);
      documents := response.batch;
      id := if response.dead then Dead else Live;
      if response.dead {
        CleanupNow();
      }
    }

    method CleanupNow()
      modifies this
      ensures State() == Cleanup(old(State()))
    {
      if |documents| == 0 {
        closed := true;
        id := Exhausted;
      }
    }

    method Next() returns (got: Got)
      modifies this
      ensures (State(), got) == Take(old(State()))
    {
      if closed {
        return Nothing;
      }
      if |documents| > 0 {
        got := Document(documents[0]);
        documents := documents[1..];
      } else if id == Unset || id == Live {
        got := NeedServer;
      } else {
        CleanupNow();
        got := Nothing;
      }
    }

    // `hasNext` puts the document it fetched back in front.
    method Unshift(change: Change)
      modifies this
      ensures State() == old(State()).(documents := [change] + old(documents))
    {
      documents := [change] + documents;
    }
  }

  // ----- When a resume keeps the place -----

  // The guard of the two branches that carry a position over.
  predicate KnowsPlace(c: Cursor)
  {
    c.resumeToken.Some? || (c.startAtOperationTime.Some? && WireVersion(c) >= RESUME_WIRE_VERSION)
  }

  // For a cursor that was asked to start somewhere or has started: the options of its
  // successor name a position exactly when the guard holds, and then it is the cached one.
  lemma ResumeKeepsPlace(c: Cursor)
    requires c.resumeToken.Some? || c.startAtOperationTime.Some?
    ensures StartPosition(ResumeOptions(c)).Some? <==> KnowsPlace(c)
    ensures KnowsPlace(c) ==>
      StartPosition(ResumeOptions(c)) == if c.resumeToken.Some? then c.resumeToken else c.startAtOperationTime
    ensures KnowsPlace(c) && c.resumeToken.Some? ==> NewCursor(ResumeOptions(c)).resumeToken == c.resumeToken
  {
  }

  // A start time is forgotten when the first aggregate fails: no server is known then, so
  // its wire version counts as 0.
  lemma StartTimeForgotten(start: Token)
    ensures var c := NewCursor(NO_OPTIONS.(startAtOperationTime := Some(start)));
      StartPosition(c.options) == Some(start) && StartPosition(ResumeOptions(c)) == None
  {
  }
}
