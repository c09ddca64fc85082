/**
 What a change stream answers in every turn, and where its cursor starts again: the callbacks
 of each turn read off the turn and the state it comes in.
 */
module ChangeStreamAnswers {
  import opened Wrappers
  import opened ChangeStreamCursors
  import opened ChangeStreams
  import opened ChangeStreamCalls
  import ChangeStreamRuns

  // ----- The callbacks that are due -----

  // A change is delivered if it has an id to resume after; otherwise the stream ends.
  function Handed(change: Change): Answer
  {
    if change.hasId then Delivered(change.entry) else NoResumeToken
  }

  // The first result of a call on this cursor, if the server need not be asked.
  function AtOnce(c: Cursor): Option<Answer>
  {
    if c.id.Exhausted? then Some(CursorExhausted)
    else if c.closed then Some(StreamClosed)
    else if c.documents != [] then Some(Handed(c.documents[0]))
    else if c.id.Dead? then Some(StreamClosed)
    else None
  }

  function Due(s: Stream, t: Turn): seq<CallBack>
  {
    match t
    case CallNext =>
      if s.phase != Idle then []
      else if s.closed then [CallBack(s.calls, StreamClosed)]
      else if s.cursor.Some? && AtOnce(s.cursor.value).Some? then [CallBack(s.calls, AtOnce(s.cursor.value).value)]
      else []
    case Reply(response) =>
      var call := s.calls - 1;
      if call < 0 || (s.phase != Waiting && s.phase != Probing) then []
      else if response.batch != [] then [CallBack(call, Handed(response.batch[0]))]
      else if !response.dead then []
      else if s.phase == Waiting then [CallBack(call, StreamClosed)]
      else [CallBack(call, CursorExhausted), CallBack(call, StreamClosed)]
    case Fail(resumable) =>
      if s.calls == 0 then []
      else if s.phase == Waiting && !resumable then [CallBack(s.calls - 1, Unresumable)]
      else if s.phase == Probing then [CallBack(s.calls - 1, StreamClosed)]
      else []
    case Topology(connected) =>
      if s.calls > 0 && s.phase == Reconnecting && !connected then [CallBack(s.calls - 1, StreamClosed)] else []
  }

  // Any callback but a delivery closes the stream.
  predicate Closes(due: seq<CallBack>)
  {
    exists i :: 0 <= i < |due| && !due[i].answer.Delivered?
  }

  lemma ClosesWhen(a: CallBack, b: CallBack)
    ensures !Closes([]) && (Closes([a]) <==> !a.answer.Delivered?)
    ensures Closes([a, b]) <==> !a.answer.Delivered? || !b.answer.Delivered?
  {
    assert [a, b][0] == a && [a, b][1] == b && [a][0] == a;
  }

  // One round of a cursor: what the call is answered, and the phase it leaves the stream in.
  lemma ProceedDue(s: Stream, call: nat, c: Cursor)
    requires !s.closed && !c.id.Exhausted?
    ensures var q, due := Proceed(s, call, Take(c)), AtOnce(c);
      if due.None? then
        q.answers == s.answers && !q.closed && q.phase == Waiting && q.asking == call && q.cursor == Some(c)
      else
        q.answers == s.answers + [CallBack(call, due.value)] && (q.closed <==> !due.value.Delivered?) && q.phase == Idle
  {
  }

  // What a reply does to a cursor that waits for it.
  lemma Received(c: Cursor, response: Response)
    requires !c.closed
    ensures var r := Receive(c, response);
      && r.documents == response.batch
      && AtOnce(r) == (if response.batch != [] then Some(Handed(response.batch[0]))
                       else if response.dead then Some(CursorExhausted) else None)
      && (r.closed <==> response.dead && response.batch == [])
      && (r.id == Exhausted <==> response.dead && response.batch == [])
  {
  }

  // The reply to the call under way: its first change, the end, or nothing yet.
  lemma WaitingReply(s: Stream, response: Response)
    requires Inv(s) && s.phase == Waiting
    ensures var q, due := Step(s, Reply(response)), Due(s, Reply(response));
      && q.answers == s.answers + due && (q.closed <==> Closes(due))
      && q.phase == (if due == [] then Waiting else Idle)
  {
    hide Answering, Receive, Proceed, Handed;
    var r := Receive(s.cursor.value, response);
    Received(s.cursor.value, response);
    EndsOrProceeds(s, r);
    assert s.answers + [] == s.answers;
    ClosesWhen(CallBack(s.calls - 1, StreamClosed), CallBack(s.calls - 1, StreamClosed));
    if response.batch != [] {
      ClosesWhen(CallBack(s.calls - 1, Handed(response.batch[0])), CallBack(s.calls - 1, StreamClosed));
    }
  }

  lemma CallUnderWay(s: Stream)
    requires Inv(s) && s.phase != Idle
    ensures s.calls > 0
  {
  }

  lemma EndsOrProceeds(s: Stream, c: Cursor)
    requires !s.closed
    ensures var q := Proceed(s, s.asking, Take(c));
      if c.id.Exhausted? && c.closed then
        q.answers == s.answers + [CallBack(s.asking, StreamClosed)] && q.closed && q.phase == Idle
      else if c.id.Exhausted? then true
      else if AtOnce(c).None? then q.answers == s.answers && !q.closed && q.phase == Waiting
      else
        && q.answers == s.answers + [CallBack(s.asking, AtOnce(c).value)] && q.phase == Idle
        && (q.closed <==> !AtOnce(c).value.Delivered?)
  {
    if !c.id.Exhausted? {
      ProceedDue(s, s.asking, c);
    }
  }

  // The reply to the successor of a failed cursor: the call that is queued gets its first
  // change, or, when it is dead and empty, both an error and the end.
  lemma ProbingReply(s: Stream, response: Response)
    requires Inv(s) && !s.closed && s.phase == Probing
    ensures var q, due := Step(s, Reply(response)), Due(s, Reply(response));
      && q.answers == s.answers + due && (q.closed <==> Closes(due))
      && q.phase == (if due == [] then Probing else Idle)
  {
    hide Answering, Receive, Proceed, Handed, Install, Take;
    CallUnderWay(s);
    var call := s.calls - 1;
    var r := Receive(s.resuming.value, response);
    Received(s.resuming.value, response);
    FirstResult(s.resuming.value, response);
    assert s.answers + [] == s.answers;
    ClosesWhen(CallBack(call, CursorExhausted), CallBack(call, StreamClosed));
    ChangeStreamRuns.Installed(s, r);
    ChangeStreamRuns.Installed(s, Take(r).0);
    if response.batch != [] {
      ProceedDue(s.(cursor := Some(r), resuming := None, phase := Idle, queue := []), call, r);
      ClosesWhen(CallBack(call, Handed(response.batch[0])), CallBack(call, StreamClosed));
    } else if response.dead {
      assert s.answers + [CallBack(call, CursorExhausted)] + [CallBack(call, StreamClosed)]
          == s.answers + [CallBack(call, CursorExhausted), CallBack(call, StreamClosed)];
    }
  }

  lemma CallDue(s: Stream)
    requires Inv(s) && s.phase == Idle
    ensures var q, due := Step(s, CallNext), Due(s, CallNext);
      && q.answers == s.answers + due && (q.closed <==> s.closed || Closes(due))
      && q.phase == (if due == [] then Waiting else Idle) && (due == [] ==> q.asking == s.calls)
  {
    hide Answering, Proceed, Handed, Take;
    var asked := s.(calls := s.calls + 1);
    ClosesWhen(CallBack(s.calls, StreamClosed), CallBack(s.calls, StreamClosed));
    assert s.answers + [] == s.answers;
    if !s.closed {
      var c := s.cursor.value;
      if AtOnce(c).Some? {
        ClosesWhen(CallBack(s.calls, AtOnce(c).value), CallBack(s.calls, StreamClosed));
      }
      if !c.id.Exhausted? {
        ProceedDue(asked, s.calls, c);
      }
    }
  }

  lemma GivesUpDue(s: Stream)
    requires Inv(s) && !s.closed && (s.phase == Reconnecting || s.phase == Probing)
    ensures s.calls > 0 && GiveUp(s).answers == s.answers + [CallBack(s.calls - 1, StreamClosed)]
    ensures GiveUp(s).closed && GiveUp(s).phase == Idle
  {
    hide Answering, GiveUp;
    CallUnderWay(s);
    ChangeStreamRuns.GivenUp(s);
  }

  // ----- Every turn -----

  // Every turn calls back exactly what is due, and closes the stream exactly when that is
  // anything but a delivery.
  lemma AnswersDue(s: Stream, t: Turn)
    requires Inv(s)
    ensures var q, due := Step(s, t), Due(s, t);
      q.answers == s.answers + due && (q.closed <==> s.closed || Closes(due))
  {
    hide Answering, Proceed, Handed, Take, Receive, Install, GiveUp, AtOnce;
    assert s.answers + [] == s.answers;
    ClosesWhen(CallBack(0, StreamClosed), CallBack(0, StreamClosed));
    if s.phase != Idle {
      CallUnderWay(s);
      ClosesWhen(CallBack(s.calls - 1, Unresumable), CallBack(0, StreamClosed));
      ClosesWhen(CallBack(s.calls - 1, StreamClosed), CallBack(0, StreamClosed));
    }
    match t {
      case CallNext => if s.phase == Idle { CallDue(s); }
      case Reply(response) =>
        if s.phase == Waiting {
          WaitingReply(s, response);
        } else if s.phase == Probing {
          ProbingReply(s, response);
        }
      case Fail(resumable) => if s.phase == Probing { GivesUpDue(s); }
      case Topology(connected) => if s.phase == Reconnecting { GivesUpDue(s); }
    }
  }

  // An error while a reply is awaited: one that cannot be resumed after closes the stream and
  // is reported to the call under way, once; one that can is not reported, the stream stays
  // open, and that call is the one to be made again when there is a new cursor.
  lemma FailureReported(s: Stream, resumable: bool)
    requires Inv(s) && s.phase == Waiting
    ensures s.calls > 0
    ensures var q := Step(s, Fail(resumable));
      if resumable then
        && q.answers == s.answers && !q.closed && q.phase == Reconnecting && q.queue == [s.calls - 1]
        && q.resuming == Some(s.cursor.value.(closed := true)) && q.cursor == None
      else
        && q.answers == s.answers + [CallBack(s.calls - 1, Unresumable)] && q.closed && q.phase == Idle
        && q.cursor == None && q.resuming == None
  {
    hide Answering, Called;
    CallUnderWay(s);
  }

  // The topology that comes back brings a new cursor, for the same call; if it does not, the
  // call hears that the stream is closed. So does it when the new cursor fails.
  lemma TopologyDecides(s: Stream, connected: bool)
    requires Inv(s) && s.phase == Reconnecting
    ensures s.calls > 0
    ensures var q := Step(s, Topology(connected));
      if connected then
        && q.answers == s.answers && !q.closed && q.phase == Probing && q.queue == s.queue == [s.calls - 1]
        && q.resuming == Some(NewCursor(ResumeOptions(s.resuming.value)))
      else q.answers == s.answers + [CallBack(s.calls - 1, StreamClosed)] && q.closed && q.phase == Idle
  {
    hide Answering, Called, GiveUp;
    CallUnderWay(s);
    GivesUpDue(s);
  }

  lemma NewCursorFails(s: Stream, resumable: bool)
    requires Inv(s) && s.phase == Probing
    ensures s.calls > 0
    ensures var q := Step(s, Fail(resumable));
      q.answers == s.answers + [CallBack(s.calls - 1, StreamClosed)] && q.closed && q.phase == Idle
  {
    hide Answering, Called, GiveUp;
    GivesUpDue(s);
  }

  // ----- Every run -----

  // Why a callback was called.
  predicate Caused(s: Stream, t: Turn, a: CallBack)
  {
    match a.answer
    case Unresumable => t == Fail(false) && s.phase == Waiting && a.call == s.calls - 1
    case CursorExhausted =>
      || (t.CallNext? && a.call == s.calls && s.cursor.Some? && s.cursor.value.id.Exhausted?)
      || (DeadSuccessor(s, t) && a.call == s.calls - 1)
    case Delivered(entry) =>
      || (t.CallNext? && s.cursor.Some? && s.cursor.value.documents != []
          && s.cursor.value.documents[0] == Change(entry, true))
      || (t.Reply? && t.response.batch != [] && t.response.batch[0] == Change(entry, true))
    case NoResumeToken =>
      || (t.CallNext? && s.cursor.Some? && s.cursor.value.documents != [] && !s.cursor.value.documents[0].hasId)
      || (t.Reply? && t.response.batch != [] && !t.response.batch[0].hasId)
    case StreamClosed =>
      || (t.CallNext? && (s.closed || (s.cursor.Some? && (s.cursor.value.closed || s.cursor.value.documents == []))))
      || (t.Reply? && t.response.dead && t.response.batch == [])
      || (t.Fail? && s.phase == Probing) || (t == Topology(false) && s.phase == Reconnecting)
  }

  lemma DueIsCaused(s: Stream, t: Turn, a: CallBack)
    requires Inv(s) && a in Due(s, t)
    ensures Caused(s, t, a)
  {
    hide Answering, Called;
  }

  lemma {:induction false} RunInv(o: Options, turns: seq<Turn>)
    ensures Inv(Run(o, turns))
    decreases |turns|
  {
    hide Inv, Step;
    if turns == [] {
      OpenInv(o);
    } else {
      RunInv(o, turns[..|turns| - 1]);
      StepAnswers(Run(o, turns[..|turns| - 1]), turns[|turns| - 1]);
    }
  }

  lemma OpenInv(o: Options)
    ensures Inv(Open(o))
  {
  }

  // In every run each callback has its cause in one of the turns: an unresumable error is
  // reported only for such a failure while a reply was awaited, only changes with an id are
  // delivered, and a change without one ends the stream.
  lemma {:induction false} AnswersHaveCause(o: Options, turns: seq<Turn>, a: CallBack)
    requires a in Run(o, turns).answers
    ensures exists k :: 0 <= k < |turns| && Caused(Run(o, turns[..k]), turns[k], a)
    decreases |turns|
  {
    hide Step, Due, Caused, Inv;
    if turns != [] {
      var last := |turns| - 1;
      var s := Run(o, turns[..last]);
      RunInv(o, turns[..last]);
      AnswersDue(s, turns[last]);
      if a in s.answers {
        AnswersHaveCause(o, turns[..last], a);
        var k :| 0 <= k < last && Caused(Run(o, turns[..last][..k]), turns[..last][k], a);
        assert turns[..last][..k] == turns[..k];
        assert Caused(Run(o, turns[..k]), turns[k], a);
      } else {
        DueIsCaused(s, turns[last], a);
      }
    }
  }

  // ----- Where a successor starts -----

  // With a token the successor has this one position and no other: as `startAfter` only if the
  // stream was opened so and no change has been received since, as `resumeAfter` otherwise.
  lemma TokenAsWhat(c: Cursor)
    requires c.resumeToken.Some?
    ensures var o := ResumeOptions(c);
      if c.options.startAfter.Some? && !c.hasReceived then o == Options(c.resumeToken, None, None)
      else o == Options(None, c.resumeToken, None)
  {
  }

  // Receiving a change is what makes the difference; empty batches and new tokens do not.
  lemma ReceivedMeansDelivered(c: Cursor, response: Response, token: Token)
    ensures CacheResumeToken(c, token).hasReceived && Receive(c, response).hasReceived == c.hasReceived
    ensures !NewCursor(c.options).hasReceived
    ensures c.options.startAfter.Some? ==>
      ResumeOptions(NewCursor(c.options)) == Options(c.options.startAfter, None, None)
  {
  }

  // The time of the opening reply is kept as the start exactly when none was asked for and the
  // server is new enough; later replies do not change it.
  lemma StartTimeKept(c: Cursor, response: Response)
    ensures Receive(c, response).startAtOperationTime
         == if c.id.Unset? && c.startAtOperationTime.None? && response.wireVersion >= 7
            then Some(response.operationTime)
            else c.startAtOperationTime
  {
  }

  // A token after an empty batch is where a successor starts; after a batch with changes it
  // waits until the last of them is handed out. A reply without a token moves nothing.
  lemma EmptyBatchAdvances(c: Cursor, response: Response)
    ensures var r := Receive(c, response);
      && r.resumeToken == (if response.batch == [] && response.postBatchResumeToken.Some?
                           then response.postBatchResumeToken else c.resumeToken)
      && r.postBatchResumeToken == (if response.postBatchResumeToken.Some?
                                    then response.postBatchResumeToken else c.postBatchResumeToken)
  {
  }
}
