/**
 The callbacks of `next` over every run of a change stream, whatever the server answers: who is
 called back, and who is called back twice.
 */
module ChangeStreamCalls {
  import opened Wrappers
  import opened ChangeStreamCursors
  import opened ChangeStreams
  import ChangeStreamRuns

  function Run(o: Options, turns: seq<Turn>): Stream
    decreases |turns|
  {
    if turns == [] then Open(o) else Step(Run(o, turns[..|turns| - 1]), turns[|turns| - 1])
  }

  // A replacement cursor whose first result is the end: the server closed it with nothing in it.
  predicate DeadSuccessor(s: Stream, t: Turn)
  {
    s.phase == Probing && t.Reply? && t.response.dead && t.response.batch == []
  }

  predicate NoDeadSuccessor(o: Options, turns: seq<Turn>)
    decreases |turns|
  {
    turns == [] ||
    (NoDeadSuccessor(o, turns[..|turns| - 1]) && !DeadSuccessor(Run(o, turns[..|turns| - 1]), turns[|turns| - 1]))
  }

  predicate AtMostOnce(answers: seq<CallBack>)
  {
    forall j, k :: 0 <= j < k < |answers| ==> answers[j].call != answers[k].call
  }

  predicate Called(answers: seq<CallBack>, call: nat)
  {
    exists k :: 0 <= k < |answers| && answers[k].call == call
  }

  // Every call but the one under way has been called back, and that one has not.
  predicate Answering(answers: seq<CallBack>, calls: nat, pending: bool)
  {
    && (pending ==> calls > 0)
    && var done := if pending then calls - 1 else calls;
    && (forall k :: 0 <= k < |answers| ==> answers[k].call < done)
    && (forall i :: 0 <= i < done ==> Called(answers, i))
  }

  // Where the call under way is kept in each phase.
  predicate Kept(s: Stream)
  {
    if s.closed then s.phase == Idle
    else
      match s.phase
      case Idle => s.cursor.Some? && s.queue == []
      case Waiting => s.cursor.Some? && s.queue == [] && s.asking == s.calls - 1 && !s.cursor.value.closed
      case Reconnecting => s.resuming.Some? && s.queue == [s.calls - 1]
      case Probing =>
        && s.resuming.Some? && s.queue == [s.calls - 1]
        && !s.resuming.value.closed && s.resuming.value.documents == []
        && (s.resuming.value.id.Unset? || s.resuming.value.id.Live?)
  }

  predicate Inv(s: Stream)
  {
    Kept(s) && Answering(s.answers, s.calls, s.phase != Idle)
  }

  lemma AnsweredOne(answers: seq<CallBack>, calls: nat, answer: Answer)
    requires Answering(answers, calls, true)
    ensures var after := answers + [CallBack(calls - 1, answer)];
      && Answering(after, calls, false)
      && (AtMostOnce(after) <==> AtMostOnce(answers))
  {
    var after := answers + [CallBack(calls - 1, answer)];
    forall i | 0 <= i < calls
      ensures Called(after, i)
    {
      if i == calls - 1 {
        assert after[|answers|].call == i;
      } else {
        assert Called(answers, i);
        var k :| 0 <= k < |answers| && answers[k].call == i;
        assert after[k].call == i;
      }
    }
    assert forall k :: 0 <= k < |answers| ==> after[k] == answers[k];
  }

  // A second answer to the call answered last.
  lemma AnsweredAgain(answers: seq<CallBack>, calls: nat, first: Answer, second: Answer)
    requires Answering(answers, calls, true)
    ensures var after := answers + [CallBack(calls - 1, first)] + [CallBack(calls - 1, second)];
      Answering(after, calls, false) && !AtMostOnce(after)
  {
    var once := answers + [CallBack(calls - 1, first)];
    var after := once + [CallBack(calls - 1, second)];
    AnsweredOne(answers, calls, first);
    forall i | 0 <= i < calls
      ensures Called(after, i)
    {
      assert Called(once, i);
      var k :| 0 <= k < |once| && once[k].call == i;
      assert after[k].call == i;
    }
    assert after[|answers|].call == after[|once|].call;
  }

  // The error of an exhausted cursor and the answer of a closed stream.
  function Twice(answers: seq<CallBack>, call: nat): seq<CallBack>
  {
    answers + [CallBack(call, CursorExhausted)] + [CallBack(call, StreamClosed)]
  }

  // What a turn does to the answers.
  predicate Extends(s: Stream, next: Stream, again: bool)
  {
    && s.answers <= next.answers
    && (AtMostOnce(next.answers) <==> AtMostOnce(s.answers) && !again)
  }

  // One round of a cursor for the call under way.
  lemma ProceedAnswers(s: Stream, c: Cursor)
    requires !s.closed && s.queue == [] && Answering(s.answers, s.calls, true)
    ensures var next := Proceed(s, s.calls - 1, Take(c)); Inv(next) && Extends(s, next, false)
  {
    hide Take, Answering, AtMostOnce;
    var (d, got) := Take(c);
    AsksOpen(c);
    if !got.NeedServer? {
      var answer :=
        if got.Nothing? then StreamClosed else if !got.change.hasId then NoResumeToken else Delivered(got.change.entry);
      AnsweredOne(s.answers, s.calls, answer);
    }
  }

  lemma AsksOpen(c: Cursor)
    ensures Take(c).1.NeedServer? ==> !Take(c).0.closed
  {
  }

  lemma CallAnswers(s: Stream)
    requires Inv(s) && s.phase == Idle
    ensures var next := Step(s, CallNext); Inv(next) && Extends(s, next, false)
  {
    hide AtMostOnce, Take, Proceed;
    var asked := s.(calls := s.calls + 1);
    assert Answering(asked.answers, asked.calls, true);
    AnsweredOne(asked.answers, asked.calls, StreamClosed);
    AnsweredOne(asked.answers, asked.calls, CursorExhausted);
    if !s.closed {
      ProceedAnswers(asked, s.cursor.value);
    }
  }

  lemma InstallAnswers(s: Stream, c: Cursor)
    requires Inv(s) && s.phase == Probing && !s.closed
    ensures var next := Install(s, c); Inv(next) && Extends(s, next, c.id == Exhausted)
    ensures c.id == Exhausted ==> Install(s, c).answers == Twice(s.answers, s.queue[0])
  {
    hide AtMostOnce, Take, Proceed, Install, Answering;
    ChangeStreamRuns.Installed(s, c);
    var ready := s.(cursor := Some(c), resuming := None, phase := Idle, queue := []);
    if c.id == Exhausted {
      AnsweredAgain(s.answers, s.calls, CursorExhausted, StreamClosed);
    } else {
      ProceedAnswers(ready, c);
    }
  }

  // The first result of a replacement: dead and empty, nothing yet, or a document.
  lemma FirstResult(c: Cursor, response: Response)
    requires !c.closed && c.documents == [] && (c.id.Unset? || c.id.Live?)
    ensures var r := Receive(c, response);
      var (d, got) := Take(r);
      if response.batch != [] then
        got == Document(r.documents[0]) && d.(documents := [r.documents[0]] + d.documents) == r && r.id != Exhausted
      else if response.dead then got == Nothing && d.id == Exhausted
      else got == NeedServer && d == r && !r.closed && r.documents == [] && r.id.Live?
  {
  }

  lemma ReplyAnswers(s: Stream, response: Response)
    requires Inv(s)
    ensures var next := Step(s, Reply(response)); Inv(next) && Extends(s, next, DeadSuccessor(s, Reply(response)))
    ensures DeadSuccessor(s, Reply(response)) ==>
      s.calls > 0 && Step(s, Reply(response)).answers == Twice(s.answers, s.calls - 1)
  {
    hide AtMostOnce, Take, Proceed, Install, Answering, Receive;
    if s.phase == Waiting {
      ProceedAnswers(s, Receive(s.cursor.value, response));
    } else if s.phase == Probing {
      FirstResult(s.resuming.value, response);
      var r := Receive(s.resuming.value, response);
      InstallAnswers(s, r);
      InstallAnswers(s, Take(r).0);
    }
  }

  lemma GiveUpAnswers(s: Stream)
    requires Inv(s) && !s.closed && (s.phase == Probing || s.phase == Reconnecting)
    ensures var next := GiveUp(s); Inv(next) && Extends(s, next, false)
  {
    hide AtMostOnce, GiveUp, Answering;
    ChangeStreamRuns.GivenUp(s);
    AnsweredOne(s.answers, s.calls, StreamClosed);
  }

  lemma StepAnswers(s: Stream, t: Turn)
    requires Inv(s)
    ensures Inv(Step(s, t)) && Extends(s, Step(s, t), DeadSuccessor(s, t))
  {
    hide AtMostOnce, Take, Proceed, Answering, Receive, Install, GiveUp;
    match t {
      case CallNext => if s.phase == Idle { CallAnswers(s); }
      case Reply(response) => ReplyAnswers(s, response);
      case Fail(resumable) =>
        if s.phase == Waiting {
          AnsweredOne(s.answers, s.calls, Unresumable);
        } else if s.phase == Probing {
          GiveUpAnswers(s);
        }
      case Topology(connected) =>
        if s.phase == Reconnecting && !connected {
          GiveUpAnswers(s);
        }
    }
  }

  lemma {:induction false} RunAnswers(o: Options, turns: seq<Turn>)
    ensures Inv(Run(o, turns))
    ensures AtMostOnce(Run(o, turns).answers) <==> NoDeadSuccessor(o, turns)
    decreases |turns|
  {
    hide AtMostOnce, Step, Inv, DeadSuccessor;
    if turns == [] {
      NothingAsked(o);
    } else {
      RunAnswers(o, turns[..|turns| - 1]);
      StepAnswers(Run(o, turns[..|turns| - 1]), turns[|turns| - 1]);
    }
  }

  lemma NothingAsked(o: Options)
    ensures Inv(Open(o)) && AtMostOnce(Open(o).answers)
  {
  }

  // ----- Main results -----

  // In every run each call of `next` that is not under way is called back, and the one under
  // way is not yet.
  lemma EveryCallAnswered(o: Options, turns: seq<Turn>, call: nat)
    requires call < Run(o, turns).calls
    ensures var s := Run(o, turns);
      Called(s.answers, call) <==> !(s.phase != Idle && call == s.calls - 1)
  {
    hide Run, Kept;
    RunAnswers(o, turns);
  }

  // No call is called back twice, exactly when no replacement cursor turns out dead and empty.
  lemma CalledBackOnceExactly(o: Options, turns: seq<Turn>)
    ensures AtMostOnce(Run(o, turns).answers) <==> NoDeadSuccessor(o, turns)
  {
    RunAnswers(o, turns);
  }

  // When one does, the call that was resumed gets both an error and, from the drain of the
  // queue it was put back on by that error, the answer of a closed stream.
  lemma DeadSuccessorAnswersTwice(o: Options, turns: seq<Turn>, response: Response)
    requires DeadSuccessor(Run(o, turns), Reply(response))
    ensures var s, next := Run(o, turns), Run(o, turns + [Reply(response)]);
      && s.calls > 0 && next.closed
      && next.answers == Twice(s.answers, s.calls - 1)
  {
    hide Run, Step, Answering;
    RunAnswers(o, turns);
    var s := Run(o, turns);
    ReplyAnswers(s, response);
    RunSnoc(o, turns, Reply(response));
    ExhaustedCloses(s, response);
  }

  lemma RunSnoc(o: Options, turns: seq<Turn>, t: Turn)
    ensures Run(o, turns + [t]) == Step(Run(o, turns), t)
  {
    assert (turns + [t])[..|turns|] == turns;
  }

  lemma ExhaustedCloses(s: Stream, response: Response)
    requires Inv(s) && DeadSuccessor(s, Reply(response))
    ensures s.calls > 0 && Step(s, Reply(response)).closed
  {
    hide Install, Receive, Take;
    FirstResult(s.resuming.value, response);
    ChangeStreamRuns.Installed(s, Take(Receive(s.resuming.value, response)).0);
  }

  // The shortest such run.
  lemma CalledBackTwice(o: Options)
    ensures var turns := [CallNext, Fail(true), Topology(true), Reply(Response([], None, true, 9, 0))];
      Run(o, turns).answers == [CallBack(0, CursorExhausted), CallBack(0, StreamClosed)]
  {
    hide Step;
    var response := Response([], None, true, 9, 0);
    RunSnoc(o, [], CallNext);
    RunSnoc(o, [CallNext], Fail(true));
    RunSnoc(o, [CallNext, Fail(true)], Topology(true));
    assert [] + [CallNext] == [CallNext] && [CallNext] + [Fail(true)] == [CallNext, Fail(true)];
    assert [CallNext, Fail(true)] + [Topology(true)] == [CallNext, Fail(true), Topology(true)];
    ThreeTurns(o);
    DeadSuccessorAnswersTwice(o, [CallNext, Fail(true), Topology(true)], response);
    assert [CallNext, Fail(true), Topology(true)] + [Reply(response)]
        == [CallNext, Fail(true), Topology(true), Reply(response)];
  }

  lemma ThreeTurns(o: Options)
    ensures var s := Step(Step(Step(Open(o), CallNext), Fail(true)), Topology(true));
      s.phase == Probing && s.calls == 1 && s.answers == []
  {
  }
}
