/**
 Every run of a change stream against a server log: the changes that `next` delivers are the
 matching entries from where the stream started, in order, none lost and none repeated,
 through any batches and any number of resumes.
 */
module ChangeStreamRuns {
  import opened Wrappers
  import opened ChangeStreamCursors
  import opened ChangeStreams

  // The server's log: for each entry, whether the stream's pipeline matches it.
  type Log = seq<bool>

  // The matching entries from position a up to position b.
  function Matching(log: Log, a: nat, b: nat): seq<nat>
    requires a <= b <= |log|
    decreases b - a
  {
    if a == b then [] else Matching(log, a, b - 1) + (if log[b - 1] then [b - 1] else [])
  }

  lemma {:induction false} MatchingSplit(log: Log, a: nat, b: nat, c: nat)
    requires a <= b <= c <= |log|
    ensures Matching(log, a, c) == Matching(log, a, b) + Matching(log, b, c)
    decreases c - b
  {
    if b < c {
      MatchingSplit(log, a, b, c - 1);
    }
  }

  // The first matching entry of a range, and what is before and after it.
  lemma {:induction false} MatchingHead(log: Log, a: nat, b: nat)
    requires a <= b <= |log| && Matching(log, a, b) != []
    ensures var e := Matching(log, a, b)[0];
      a <= e < b && Matching(log, a, e + 1) == [e] && Matching(log, e + 1, b) == Matching(log, a, b)[1..]
    decreases b - a
  {
    if Matching(log, a, b - 1) != [] {
      MatchingHead(log, a, b - 1);
      var e := Matching(log, a, b - 1)[0];
      MatchingSplit(log, e + 1, b - 1, b);
    } else {
      assert Matching(log, b, b) == [];
    }
  }

  function Entries(changes: seq<Change>): (entries: seq<nat>)
    ensures |entries| == |changes|
    ensures forall i :: 0 <= i < |changes| ==> entries[i] == changes[i].entry
  {
    seq(|changes|, i requires 0 <= i < |changes| => changes[i].entry)
  }

  function DeliveredBy(answers: seq<CallBack>): seq<nat>
  {
    if answers == [] then []
    else
      var last := answers[|answers| - 1].answer;
      DeliveredBy(answers[..|answers| - 1]) + (if last.Delivered? then [last.entry] else [])
  }

  lemma DeliveredSnoc(answers: seq<CallBack>, a: CallBack)
    ensures DeliveredBy(answers + [a]) == DeliveredBy(answers) + (if a.answer.Delivered? then [a.answer.entry] else [])
  {
    assert (answers + [a])[..|answers|] == answers;
  }

  // ----- The environment -----

  // The stream, the position its changes count from (known once given or once the server has
  // opened the stream), and the position of the server's cursor.
  datatype History = History(s: Stream, base: Option<Token>, at: Token)

  function Active(s: Stream): Option<Cursor>
  {
    if s.phase == Probing || s.phase == Reconnecting then s.resuming else s.cursor
  }

  // Where the server's cursor stands before it answers: where the options say, if it is new.
  function ServerPosition(h: History, c: Cursor, response: Response): Token
  {
    if !c.id.Unset? then h.at
    else if StartPosition(c.options).Some? then StartPosition(c.options).value
    else response.operationTime
  }

  // An honest response scans the log from the server's position up to `upTo`. Its token, if it
  // has one, is `upTo`; and a server that has sent one token with this cursor goes on sending
  // them.
  predicate Honest(log: Log, h: History, c: Cursor, response: Response, upTo: Token)
  {
    var from := ServerPosition(h, c, response);
    && from <= upTo <= |log|
    && Entries(response.batch) == Matching(log, from, upTo)
    && (response.postBatchResumeToken.Some? ==> response.postBatchResumeToken == Some(upTo))
    && (response.postBatchResumeToken.None? ==> c.postBatchResumeToken.None?)
  }

  datatype Event = Event(turn: Turn, upTo: Token)

  predicate Legal(log: Log, h: History, e: Event)
  {
    match e.turn
    case Reply(response) =>
      (h.s.phase == Waiting || h.s.phase == Probing) && Active(h.s).Some? ==>
        Honest(log, h, Active(h.s).value, response, e.upTo)
    case Topology(connected) =>
      h.s.phase == Reconnecting && h.s.resuming.Some? && connected && h.base.Some? ==> KnowsPlace(h.s.resuming.value)
    case _ => true
  }

  function Advance(h: History, e: Event): History
  {
    var next := h.(s := Step(h.s, e.turn));
    match e.turn
    case Reply(response) =>
      if (h.s.phase == Waiting || h.s.phase == Probing) && Active(h.s).Some? then
        next.(at := e.upTo,
              base := if h.base.Some? then h.base else Some(ServerPosition(h, Active(h.s).value, response)))
      else next
    case _ => next
  }

  function Start(o: Options): History
  {
    History(Open(o), StartPosition(o), 0)
  }

  function Run(o: Options, events: seq<Event>): History
    decreases |events|
  {
    if events == [] then Start(o) else Advance(Run(o, events[..|events| - 1]), events[|events| - 1])
  }

  predicate LegalRun(log: Log, o: Options, events: seq<Event>)
    decreases |events|
  {
    && (StartPosition(o).Some? ==> StartPosition(o).value <= |log|)
    && (events != [] ==>
          LegalRun(log, o, events[..|events| - 1]) && Legal(log, Run(o, events[..|events| - 1]), events[|events| - 1]))
  }

  // ----- The invariant -----

  // Everything delivered is before position p, and everything else that matches is after it.
  predicate Divides(log: Log, base: Token, p: Token, delivered: seq<nat>)
  {
    base <= p <= |log| && Matching(log, base, p) == delivered
  }

  // The cached token divides; without one, nothing is delivered and a cached time divides.
  predicate TokenDivides(log: Log, base: Token, c: Cursor, delivered: seq<nat>)
  {
    if c.resumeToken.Some? then Divides(log, base, c.resumeToken.value, delivered)
    else delivered == [] && (c.startAtOperationTime.Some? ==> Divides(log, base, c.startAtOperationTime.value, []))
  }

  predicate CursorInv(log: Log, h: History, c: Cursor, delivered: seq<nat>)
  {
    if c.id.Unset? then
      && c == NewCursor(c.options).(closed := c.closed)
      && (c.resumeToken.None? ==> delivered == [])
      && (if h.base.Some? then
            StartPosition(c.options).Some? && Divides(log, h.base.value, StartPosition(c.options).value, delivered)
          else StartPosition(c.options).None? && delivered == [])
    else
      && h.base.Some? && h.base.value <= h.at <= |log|
      && delivered + Entries(c.documents) == Matching(log, h.base.value, h.at)
      && TokenDivides(log, h.base.value, c, delivered)
      && (c.postBatchResumeToken.Some? ==> c.postBatchResumeToken == Some(h.at))
  }

  ghost predicate Inv(log: Log, h: History)
  {
    var s, delivered := h.s, DeliveredBy(h.s.answers);
    && (s.closed ==> s.phase == Idle)
    && (!s.closed ==> Active(s).Some? && CursorInv(log, h, Active(s).value, delivered))
    && (!s.closed && Active(s).value.documents != [] ==> s.phase == Idle && !Active(s).value.closed)
    && (!s.closed && (s.phase == Waiting || s.phase == Probing) ==>
          !Active(s).value.closed && (Active(s).value.id.Unset? || Active(s).value.id.Live?))
    && Queued(s)
    && Exact(log, h.base, delivered)
  }

  // The one call that is to be made again, while a new cursor is on its way.
  predicate Queued(s: Stream)
  {
    !s.closed ==> |s.queue| == if s.phase == Reconnecting || s.phase == Probing then 1 else 0
  }

  // What the caller has seen: the matching entries up to some position.
  ghost predicate Exact(log: Log, base: Option<Token>, delivered: seq<nat>)
  {
    if base.Some? then exists p: nat :: Divides(log, base.value, p, delivered) else delivered == []
  }

  // ----- The cursor -----

  lemma Cancel<T>(a: seq<T>, b: seq<T>, c: seq<T>)
    requires a + b == a + c
    ensures b == c
  {
    assert (a + b)[|a|..] == b && (a + c)[|a|..] == c;
  }

  // Handing out the first of the entries buffered after `delivered` moves the divide behind it.
  lemma DivideMoves(log: Log, base: Token, p: Token, at: Token, delivered: seq<nat>, buffered: seq<nat>)
    requires Divides(log, base, p, delivered) && base <= at <= |log| && buffered != []
    requires delivered + buffered == Matching(log, base, at)
    ensures Divides(log, base, buffered[0] + 1, delivered + [buffered[0]])
    ensures delivered + [buffered[0]] + buffered[1..] == Matching(log, base, at)
  {
    hide Matching;
    if at < p {
      MatchingSplit(log, base, at, p);
    }
    MatchingSplit(log, base, p, at);
    Cancel(delivered, Matching(log, p, at), buffered);
    MatchingHead(log, p, at);
    MatchingSplit(log, base, p, buffered[0] + 1);
    assert [buffered[0]] + buffered[1..] == buffered;
    assert delivered + [buffered[0]] + buffered[1..] == delivered + ([buffered[0]] + buffered[1..]);
  }

  // A cursor that holds documents: handing out the first and caching its token.
  lemma TakeDocument(log: Log, h: History, c: Cursor, delivered: seq<nat>)
    requires CursorInv(log, h, c, delivered) && c.documents != [] && h.base.Some?
    ensures var e := c.documents[0].entry;
      var rest := CacheResumeToken(c.(documents := c.documents[1..]), e + 1);
      && CursorInv(log, h, rest, delivered + [e])
      && Divides(log, h.base.value, e + 1, delivered + [e])
  {
    assert Matching(log, h.base.value, h.base.value) == [];
    hide Matching;
    var base, e := h.base.value, c.documents[0].entry;
    var p := if c.resumeToken.Some? then c.resumeToken.value else base;
    assert Entries(c.documents)[1..] == Entries(c.documents[1..]);
    DivideMoves(log, base, p, h.at, delivered, Entries(c.documents));
    if c.documents[1..] == [] {
      assert delivered + [e] == delivered + [e] + Entries([]);
    }
  }

  // A batch arrives at a cursor with nothing buffered.
  lemma ReceiveKeeps(log: Log, h: History, c: Cursor, delivered: seq<nat>, response: Response, upTo: Token)
    requires CursorInv(log, h, c, delivered) && c.documents == [] && Honest(log, h, c, response, upTo)
    ensures var from := ServerPosition(h, c, response);
      var h' := h.(at := upTo, base := if h.base.Some? then h.base else Some(from));
      CursorInv(log, h', Receive(c, response), delivered)
  {
    var from := ServerPosition(h, c, response);
    var base := if h.base.Some? then h.base.value else from;
    assert Divides(log, base, from, delivered) by {
      assert Matching(log, from, from) == [];
    }
    MatchingSplit(log, base, from, upTo);
    ReceivedInv(log, h, c, delivered, response, upTo, base);
  }

  lemma ReceivedInv(log: Log, h: History, c: Cursor, delivered: seq<nat>, response: Response, upTo: Token, base: Token)
    requires CursorInv(log, h, c, delivered) && c.documents == [] && Honest(log, h, c, response, upTo)
    requires var from := ServerPosition(h, c, response);
      && base == (if h.base.Some? then h.base.value else from) && Divides(log, base, from, delivered)
      && Matching(log, base, upTo) == delivered + Matching(log, from, upTo)
    ensures CursorInv(log, h.(at := upTo, base := Some(base)), Receive(c, response), delivered)
  {
    hide Matching;
    if response.batch == [] {
      assert Matching(log, base, upTo) == delivered;
    }
  }

  // ----- The turns -----

  // Closing, and answering on a closed stream.
  lemma CloseKeeps(log: Log, h: History, call: nat, answer: Answer)
    requires Exact(log, h.base, DeliveredBy(h.s.answers)) && !answer.Delivered?
    ensures Inv(log, h.(s := CloseWith(h.s, call, answer)))
    ensures Inv(log, h.(s := FailCall(h.s, call, answer)))
    ensures h.s.closed ==> Inv(log, h.(s := Respond(h.s, call, answer)))
  {
    DeliveredSnoc(h.s.answers, CallBack(call, answer));
    assert DeliveredBy(h.s.answers + [CallBack(call, answer)]) == DeliveredBy(h.s.answers);
  }

  // One round of the active cursor, at the end of a turn that awaits an answer.
  lemma ProceedKeeps(log: Log, h: History, call: nat, c: Cursor)
    requires CursorInv(log, h, c, DeliveredBy(h.s.answers)) && Exact(log, h.base, DeliveredBy(h.s.answers))
      && !h.s.closed
    requires c.documents != [] ==> !c.closed && h.base.Some?
    requires h.s.queue == []
    ensures Inv(log, h.(s := Proceed(h.s, call, Take(c))))
  {
    hide Matching, CursorInv, Divides, TokenDivides, Exact, Inv;
    if c.closed || (c.documents == [] && !c.id.Unset? && !c.id.Live?) {
      CloseKeeps(log, h, call, StreamClosed);
    } else if c.documents == [] {
      Asks(log, h, call, c);
    } else if !c.documents[0].hasId {
      CloseKeeps(log, h, call, NoResumeToken);
    } else {
      Delivers(log, h, call, c);
    }
  }

  // The buffer is empty: the server is asked.
  lemma Asks(log: Log, h: History, call: nat, c: Cursor)
    requires CursorInv(log, h, c, DeliveredBy(h.s.answers)) && Exact(log, h.base, DeliveredBy(h.s.answers))
    requires !h.s.closed && h.s.queue == [] && c.documents == [] && !c.closed && (c.id.Unset? || c.id.Live?)
    ensures Inv(log, h.(s := Proceed(h.s, call, Take(c))))
  {
    hide Matching, CursorInv, Divides, TokenDivides, Exact;
    SameEnvironment(log, h, h.(s := Proceed(h.s, call, Take(c))), c, DeliveredBy(h.s.answers));
  }

  // The first buffered change is cached and delivered.
  lemma Delivers(log: Log, h: History, call: nat, c: Cursor)
    requires CursorInv(log, h, c, DeliveredBy(h.s.answers)) && !h.s.closed && h.s.queue == [] && h.base.Some?
    requires c.documents != [] && !c.closed && c.documents[0].hasId
    ensures Inv(log, h.(s := Proceed(h.s, call, Take(c))))
  {
    hide Matching, CursorInv, Divides, TokenDivides, Exact;
    var s, delivered, e := h.s, DeliveredBy(h.s.answers), c.documents[0].entry;
    DeliveredSnoc(s.answers, CallBack(call, Delivered(e)));
    TakeDocument(log, h, c, delivered);
    var next := h.(s := Proceed(s, call, Take(c)));
    assert next.base == Some(h.base.value) && DeliveredBy(next.s.answers) == delivered + [e];
    ExactAt(log, h.base.value, e + 1, delivered + [e]);
    SameEnvironment(log, h, next, next.s.cursor.value, delivered + [e]);
  }

  lemma ExactAt(log: Log, base: Token, p: Token, delivered: seq<nat>)
    requires Divides(log, base, p, delivered)
    ensures Exact(log, Some(base), delivered)
  {
  }

  lemma SameEnvironment(log: Log, h: History, h': History, c: Cursor, delivered: seq<nat>)
    requires CursorInv(log, h, c, delivered) && h'.base == h.base && h'.at == h.at
    ensures CursorInv(log, h', c, delivered)
  {
    hide Matching;
  }

  lemma ReplyKeeps(log: Log, h: History, e: Event)
    requires Inv(log, h) && Legal(log, h, e) && e.turn.Reply?
    ensures Inv(log, Advance(h, e))
  {
    hide Matching, CursorInv, Receive, Take, Exact;
    var s, response := h.s, e.turn.response;
    if (s.phase == Waiting || s.phase == Probing) && Active(s).Some? {
      var c := Active(s).value;
      var delivered := DeliveredBy(s.answers);
      ReceiveKeeps(log, h, c, delivered, response, e.upTo);
      var from := ServerPosition(h, c, response);
      var h' := h.(at := e.upTo, base := if h.base.Some? then h.base else Some(from));
      ExactFrom(log, h, c, from);
      ReceivedShape(c, response);
      if s.phase == Waiting {
        ProceedKeeps(log, h', s.asking, Receive(c, response));
      } else {
        ProbeKeeps(log, h', Receive(c, response));
      }
    }
  }

  lemma ReceivedShape(c: Cursor, response: Response)
    requires !c.closed
    ensures var r := Receive(c, response);
      (r.documents != [] ==> !r.closed) && (!r.closed ==> r.id.Live? || (r.id.Dead? && r.documents != []))
  {
  }

  // Opening the stream fixes the base at the position nothing has been delivered from.
  lemma ExactFrom(log: Log, h: History, c: Cursor, from: Token)
    requires Exact(log, h.base, DeliveredBy(h.s.answers)) && from <= |log|
    ensures Exact(log, if h.base.Some? then h.base else Some(from), DeliveredBy(h.s.answers))
  {
    if h.base.None? {
      assert Divides(log, from, from, []);
    }
  }

  // With one call queued, the new cursor serves it; when it is exhausted already, the call is
  // answered with the error, queued by it, and answered again by the drain.
  lemma Installed(s: Stream, c: Cursor)
    requires !s.closed && |s.queue| == 1
    ensures var call, ready := s.queue[0], s.(cursor := Some(c), resuming := None, phase := Idle, queue := []);
      Install(s, c) ==
        if c.id == Exhausted then Respond(CloseWith(ready, call, CursorExhausted), call, StreamClosed)
        else Proceed(ready, call, Take(c))
  {
    hide Take;
    var call, ready := s.queue[0], s.(cursor := Some(c), resuming := None, phase := Idle, queue := []);
    assert s.queue[..0] == [] && [] + [call] == [call] && [call][..0] == [];
    var next := Next(ready, call);
    assert Install(s, c) == Drain(next, false);
    if c.id == Exhausted {
      assert next.queue == [call] && Drain(next, false) == Next(next.(queue := []), call);
    }
  }

  lemma GivenUp(s: Stream)
    requires |s.queue| == 1
    ensures GiveUp(s) ==
      Respond(s.(cursor := None, resuming := None, phase := Idle, closed := true, queue := []), s.queue[0],
              StreamClosed)
  {
    assert s.queue[..0] == [];
    var shut := s.(cursor := None, resuming := None, phase := Idle, closed := true);
    var next := Next(shut.(queue := []), s.queue[0]);
    assert next.queue == [] && Drain(shut, true) == Drain(next, true);
  }

  lemma InstallKeeps(log: Log, h: History, c: Cursor)
    requires CursorInv(log, h, c, DeliveredBy(h.s.answers)) && Exact(log, h.base, DeliveredBy(h.s.answers))
    requires !h.s.closed && |h.s.queue| == 1 && (c.documents != [] ==> !c.closed && h.base.Some?)
    ensures Inv(log, h.(s := Install(h.s, c)))
  {
    hide Matching, CursorInv, Take, Install, Exact;
    Installed(h.s, c);
    var call := h.s.queue[0];
    var ready := h.(s := h.s.(cursor := Some(c), resuming := None, phase := Idle, queue := []));
    SameEnvironment(log, h, ready, c, DeliveredBy(h.s.answers));
    if c.id == Exhausted {
      CloseKeeps(log, ready, call, CursorExhausted);
      CloseKeeps(log, ready.(s := CloseWith(ready.s, call, CursorExhausted)), call, StreamClosed);
    } else {
      ProceedKeeps(log, ready, call, c);
    }
  }

  // A probe that got its first result: the document goes back, and the queued call takes it.
  lemma ProbeKeeps(log: Log, h: History, c: Cursor)
    requires CursorInv(log, h, c, DeliveredBy(h.s.answers)) && Exact(log, h.base, DeliveredBy(h.s.answers))
    requires h.s.phase == Probing && h.s.resuming.Some? && !h.s.closed && h.base.Some? && |h.s.queue| == 1
    requires (c.documents != [] ==> !c.closed) && (!c.closed ==> c.id.Live? || (c.id.Dead? && c.documents != []))
    ensures var (c', got) := Take(c);
      Inv(log, h.(s := match got
                       case NeedServer => h.s.(resuming := Some(c'))
                       case Document(change) => Install(h.s, c'.(documents := [change] + c'.documents))
                       case Nothing => Install(h.s, c')))
  {
    hide Matching, CursorInv, Install;
    var (c', got) := Take(c);
    if got.NeedServer? {
      SameEnvironment(log, h, h.(s := h.s.(resuming := Some(c))), c, DeliveredBy(h.s.answers));
    } else {
      assert got.Document? ==> c'.(documents := [got.change] + c'.documents) == c;
      InstallKeeps(log, h, c);
    }
  }

  lemma CallKeeps(log: Log, h: History)
    requires Inv(log, h) && h.s.phase == Idle
    ensures Inv(log, h.(s := Next(h.s.(calls := h.s.calls + 1), h.s.calls)))
  {
    hide Matching, CursorInv, Exact, Take;
    var call, asked := h.s.calls, h.(s := h.s.(calls := h.s.calls + 1));
    if h.s.closed {
      CloseKeeps(log, asked, call, StreamClosed);
    } else {
      var c := h.s.cursor.value;
      SameEnvironment(log, h, asked, c, DeliveredBy(h.s.answers));
      if c.id == Exhausted {
        CloseKeeps(log, asked, call, CursorExhausted);
      } else {
        BufferedMeansOpen(log, h, c);
        ProceedKeeps(log, asked, call, c);
      }
    }
  }

  lemma GiveUpKeeps(log: Log, h: History)
    requires Inv(log, h) && |h.s.queue| == 1
    ensures Inv(log, h.(s := GiveUp(h.s)))
  {
    hide Matching, CursorInv, Exact, GiveUp;
    GivenUp(h.s);
    CloseKeeps(log, h.(s := h.s.(cursor := None, resuming := None, phase := Idle, closed := true, queue := [])),
               h.s.queue[0], StreamClosed);
  }

  lemma BufferedMeansOpen(log: Log, h: History, c: Cursor)
    requires CursorInv(log, h, c, DeliveredBy(h.s.answers))
    ensures c.documents != [] ==> h.base.Some?
  {
    hide Matching;
  }

  lemma FailKeeps(log: Log, h: History, resumable: bool)
    requires Inv(log, h)
    ensures Inv(log, h.(s := OnFail(h.s, resumable)))
  {
    hide Matching, Exact, GiveUp;
    var s := h.s;
    if s.phase == Waiting && s.cursor.Some? {
      if !resumable {
        CloseKeeps(log, h, s.asking, Unresumable);
      }
    } else if s.phase == Probing {
      GiveUpKeeps(log, h);
    }
  }

  // The successor of a cursor that knows its place starts where nothing is lost or repeated.
  lemma SuccessorKeeps(log: Log, h: History, c: Cursor, delivered: seq<nat>)
    requires CursorInv(log, h, c, delivered) && c.documents == []
    requires h.base.Some? ==> KnowsPlace(c)
    ensures CursorInv(log, h, NewCursor(ResumeOptions(c)), delivered)
  {
    hide Matching;
  }

  lemma TopologyKeeps(log: Log, h: History, connected: bool)
    requires Inv(log, h)
    requires h.s.phase == Reconnecting && h.s.resuming.Some? && connected && h.base.Some? ==>
      KnowsPlace(h.s.resuming.value)
    ensures Inv(log, h.(s := OnTopology(h.s, connected)))
  {
    hide Matching, Exact, CursorInv, GiveUp;
    var s := h.s;
    if s.phase == Reconnecting && s.resuming.Some? {
      if connected {
        SuccessorKeeps(log, h, s.resuming.value, DeliveredBy(s.answers));
        var next := h.(s := OnTopology(s, true));
        SameEnvironment(log, h, next, next.s.resuming.value, DeliveredBy(s.answers));
      } else {
        GiveUpKeeps(log, h);
      }
    }
  }

  lemma {:induction false} RunKeeps(log: Log, o: Options, events: seq<Event>)
    requires LegalRun(log, o, events)
    ensures Inv(log, Run(o, events))
    decreases |events|
  {
    hide Matching;
    if events == [] {
      StartKeeps(log, o);
    } else {
      var h, e := Run(o, events[..|events| - 1]), events[|events| - 1];
      RunKeeps(log, o, events[..|events| - 1]);
      AdvanceKeeps(log, h, e);
    }
  }

  lemma StartKeeps(log: Log, o: Options)
    requires StartPosition(o).Some? ==> StartPosition(o).value <= |log|
    ensures Inv(log, Start(o))
  {
    if StartPosition(o).Some? {
      var p := StartPosition(o).value;
      assert Divides(log, p, p, []);
    }
  }

  lemma AdvanceKeeps(log: Log, h: History, e: Event)
    requires Inv(log, h) && Legal(log, h, e)
    ensures Inv(log, Advance(h, e))
  {
    hide Inv, Next, OnReply, OnFail, OnTopology;
    match e.turn {
      case CallNext =>
        if h.s.phase == Idle {
          CallKeeps(log, h);
        }
      case Reply(response) => ReplyKeeps(log, h, e);
      case Fail(resumable) => FailKeeps(log, h, resumable);
      case Topology(connected) => TopologyKeeps(log, h, connected);
    }
  }

  // ----- Main results -----

  // Over any log, any cutting into batches and any failures and resumes, the delivered changes
  // are a prefix of the matching entries from the stream's starting position.
  lemma ExactlyOnce(log: Log, o: Options, events: seq<Event>)
    requires LegalRun(log, o, events)
    ensures var h := Run(o, events);
      var delivered := DeliveredBy(h.s.answers);
      && (h.base.None? ==> delivered == [])
      && (h.base.Some? ==> h.base.value <= |log| && delivered <= Matching(log, h.base.value, |log|))
  {
    hide Run, CursorInv;
    var h := Run(o, events);
    RunKeeps(log, o, events);
    if h.base.Some? {
      var p: nat :| Divides(log, h.base.value, p, DeliveredBy(h.s.answers));
      MatchingSplit(log, h.base.value, p, |log|);
    }
  }

  // The token the stream reports lies after every delivered change and before every other.
  lemma TokenInPlace(log: Log, o: Options, events: seq<Event>)
    requires LegalRun(log, o, events)
    ensures var h := Run(o, events);
      !h.s.closed ==>
        && Active(h.s).Some?
        && (Active(h.s).value.resumeToken.Some? ==>
              h.base.Some? && Divides(log, h.base.value, Active(h.s).value.resumeToken.value, DeliveredBy(h.s.answers)))
  {
    hide Run, Matching;
    RunKeeps(log, o, events);
  }

  // ----- Why the environment has to keep sending tokens -----

  lemma {:induction false} MatchingMembers(log: Log, a: nat, b: nat, e: nat)
    requires a <= b <= |log|
    ensures e in Matching(log, a, b) <==> a <= e < b && log[e]
    decreases b - a
  {
    if a < b {
      MatchingMembers(log, a, b - 1, e);
    }
  }

  // A cursor after `next` has delivered the first k changes it holds.
  function HandOut(c: Cursor, k: nat): (d: Cursor)
    requires k <= |c.documents|
    ensures d.documents == c.documents[k..] && d.postBatchResumeToken == c.postBatchResumeToken
  {
    if k == 0 then c
    else
      var d := HandOut(c, k - 1);
      CacheResumeToken(d.(documents := d.documents[1..]), d.documents[0].entry + 1)
  }

  // A server that sent the token p with this cursor and later sends changes without one: in
  // the middle of the batch the last delivered change is cached, but after the last of them
  // it is p again.
  lemma StaleTokenCached(c: Cursor, p: Token, k: nat)
    requires c.postBatchResumeToken == Some(p) && 0 < k <= |c.documents|
    ensures HandOut(c, k).resumeToken == Some(if k < |c.documents| then c.documents[k - 1].entry + 1 else p)
  {
    assert HandOut(c, k - 1).documents == c.documents[k - 1..];
  }

  // So a resume gets a delivered change again exactly when the whole batch was delivered.
  lemma StaleTokenRepeats(log: Log, c: Cursor, p: Token, from: Token, upTo: Token, k: nat)
    requires c.postBatchResumeToken == Some(p) && p <= from <= upTo <= |log|
    requires Entries(c.documents) == Matching(log, from, upTo) && 0 < k <= |c.documents|
    ensures var q := HandOut(c, k).resumeToken;
      && q.Some? && q.value <= |log|
      && ((exists j :: 0 <= j < k && Entries(c.documents)[j] in Matching(log, q.value, |log|)) <==> k == |c.documents|)
  {
    hide Matching, HandOut;
    StaleTokenCached(c, p, k);
    var entries := Entries(c.documents);
    forall j | 0 <= j < |entries|
      ensures from <= entries[j] < upTo && log[entries[j]]
    {
      assert entries[j] in entries;
      MatchingMembers(log, from, upTo, entries[j]);
    }
    if k < |c.documents| {
      forall j | 0 <= j < k
        ensures entries[j] !in Matching(log, entries[k - 1] + 1, |log|)
      {
        MatchingAscends(log, from, upTo, j, k - 1);
        MatchingMembers(log, entries[k - 1] + 1, |log|, entries[j]);
      }
    } else {
      MatchingMembers(log, p, |log|, entries[0]);
    }
  }

  lemma {:induction false} MatchingAscends(log: Log, a: nat, b: nat, i: nat, j: nat)
    requires a <= b <= |log| && i <= j < |Matching(log, a, b)|
    ensures Matching(log, a, b)[i] <= Matching(log, a, b)[j]
    decreases b - a
  {
    if j < |Matching(log, a, b - 1)| {
      MatchingAscends(log, a, b - 1, i, j);
    } else if i < j {
      assert Matching(log, a, b - 1)[i] in Matching(log, a, b - 1);
      MatchingMembers(log, a, b - 1, Matching(log, a, b - 1)[i]);
    }
  }

  function Answered(batch: seq<nat>, token: Option<Token>, at: Token): Turn
  {
    Reply(Response(seq(|batch|, i requires 0 <= i < |batch| => Change(batch[i], true)), token, false, 9, at))
  }

  // The run: the change at entry i comes without a token, is delivered, and after a resumable
  // failure comes again as the server's honest answer to the token p.
  lemma DeliveredTwice(s: Stream, p: Token, i: nat)
    requires s.phase == Waiting && s.cursor.Some? && !s.cursor.value.closed && s.cursor.value.id.Live?
    requires s.cursor.value.postBatchResumeToken == Some(p) && p <= i && !s.closed && s.queue == []
    ensures var s1 := Step(s, Answered([i], None, 0));
      var s2 := Step(Step(Step(s1, CallNext), Fail(true)), Topology(true));
      var s3 := Step(s2, Answered([i], Some(i + 1), 0));
      && s2.resuming.Some? && StartPosition(s2.resuming.value.options) == Some(p)
      && DeliveredBy(s3.answers) == DeliveredBy(s.answers) + [i] + [i]
  {
    hide Step;
    var s1 := Step(s, Answered([i], None, 0));
    TokenComesBack(s, p, i);
    ResumesAt(s1, p);
    FirstAnswer(Step(Step(Step(s1, CallNext), Fail(true)), Topology(true)), i, 0);
  }

  // Delivered, and the old token is cached again.
  lemma TokenComesBack(s: Stream, p: Token, i: nat)
    requires s.phase == Waiting && s.cursor.Some? && !s.cursor.value.closed && s.cursor.value.id.Live?
    requires s.cursor.value.postBatchResumeToken == Some(p) && !s.closed && s.queue == []
    ensures var next := Step(s, Answered([i], None, 0));
      && next.phase == Idle && !next.closed && next.queue == []
      && DeliveredBy(next.answers) == DeliveredBy(s.answers) + [i]
      && next.cursor.Some? && var c := next.cursor.value;
      !c.closed && c.id.Live? && c.documents == [] && c.resumeToken == Some(p)
  {
    assert Receive(s.cursor.value, Answered([i], None, 0).response).documents == [Change(i, true)];
    DeliveredSnoc(s.answers, CallBack(s.asking, Delivered(i)));
  }

  lemma ResumesAt(s: Stream, p: Token)
    requires s.phase == Idle && s.cursor.Some? && !s.closed && s.queue == []
    requires var c := s.cursor.value; !c.closed && c.id.Live? && c.documents == [] && c.resumeToken == Some(p)
    ensures var next := Step(Step(Step(s, CallNext), Fail(true)), Topology(true));
      && next.phase == Probing && next.resuming.Some? && StartPosition(next.resuming.value.options) == Some(p)
      && next.resuming.value == NewCursor(next.resuming.value.options)
      && |next.queue| == 1 && !next.closed && next.answers == s.answers
  {
  }

  // The first change a new cursor brings is delivered.
  lemma FirstAnswer(s: Stream, i: nat, at: Token)
    requires s.phase == Probing && s.resuming.Some? && s.resuming.value == NewCursor(s.resuming.value.options)
    requires |s.queue| == 1 && !s.closed
    ensures DeliveredBy(Step(s, Answered([i], Some(i + 1), at)).answers) == DeliveredBy(s.answers) + [i]
  {
    hide Receive;
    var c := Receive(s.resuming.value, Answered([i], Some(i + 1), at).response);
    FirstReceived(s.resuming.value.options, i, at);
    Installed(s, c);
    DeliveredSnoc(s.answers, CallBack(s.queue[0], Delivered(i)));
  }

  lemma FirstReceived(o: Options, i: nat, at: Token)
    ensures var c := Receive(NewCursor(o), Answered([i], Some(i + 1), at).response);
      c.documents == [Change(i, true)] && !c.closed && c.id.Live?
  {
  }

  // A start time and a first aggregate that fails: the stream that was to start at entry 0
  // starts wherever the server is when it resumes, and the entries before are lost.
  lemma StartTimeLost(now: Token)
    requires now > 0
    ensures var start := NO_OPTIONS.(startAtOperationTime := Some(0));
      var s1 := Step(Step(Step(Open(start), CallNext), Fail(true)), Topology(true));
      var s2 := Step(s1, Answered([now], Some(now + 1), now));
      && s1.resuming.Some? && StartPosition(s1.resuming.value.options) == None
      && DeliveredBy(s2.answers) == [now]
  {
    hide Step;
    var start := NO_OPTIONS.(startAtOperationTime := Some(0));
    StartTimeDropped();
    assert NewCursor(NO_OPTIONS).options == NO_OPTIONS && StartPosition(NO_OPTIONS) == None;
    FirstAnswer(Step(Step(Step(Open(start), CallNext), Fail(true)), Topology(true)), now, now);
    assert DeliveredBy([]) == [] && [] + [now] == [now];
  }

  lemma StartTimeDropped()
    ensures var start := NO_OPTIONS.(startAtOperationTime := Some(0));
      var s := Step(Step(Step(Open(start), CallNext), Fail(true)), Topology(true));
      && s.phase == Probing && s.resuming == Some(NewCursor(NO_OPTIONS)) && s.queue == [0]
      && s.answers == [] && !s.closed && s.cursor == None
  {
  }
}
