/**
 A change stream in iterator mode (src/change_stream.ts): `next` calls, responses, failures
 and resumes, as the callback turns they are.
 */
module ChangeStreams {
  import opened Wrappers
  import opened ChangeStreamCursors

  // What a call of `next` is answered with.
  datatype Answer =
    | Delivered(entry: nat)
    | StreamClosed
    | NoResumeToken
    | CursorExhausted
    | Unresumable

  // The callback of the call with this number, called with an answer.
  datatype CallBack = CallBack(call: nat, answer: Answer)

  // Between turns: nothing asked; a server reply is awaited for `cursor`; the topology is
  // awaited to replace `resuming`; or a reply is awaited for the replacement `resuming`.
  datatype Phase = Idle | Waiting | Reconnecting | Probing

  // `asking` is the call that waits for the reply; `queue` holds the calls to be made again
  // when a new cursor is there.
  datatype Stream = Stream(
    cursor: Option<Cursor>, resuming: Option<Cursor>, phase: Phase, closed: bool,
    calls: nat, asking: nat, queue: seq<nat>, answers: seq<CallBack>)

  datatype Turn =
    | CallNext
    | Reply(response: Response)
    | Fail(resumable: bool)
    | Topology(connected: bool)

  function Open(o: Options): Stream
  {
    Stream(Some(NewCursor(o)), None, Idle, false, 0, 0, [], [])
  }

  function Respond(s: Stream, call: nat, answer: Answer): (r: Stream)
    ensures r.closed == s.closed && r.queue == s.queue
  {
    s.(phase := Idle, answers := s.answers + [CallBack(call, answer)])
  }

  // Closing drops the cursors, and then the callback is called.
  function CloseWith(s: Stream, call: nat, answer: Answer): (r: Stream)
    ensures r.closed && r.queue == s.queue
  {
    Respond(s.(cursor := None, resuming := None, closed := true), call, answer)
  }

  function ProcessNewChange(s: Stream, call: nat, c: Cursor, got: Got): Stream
    requires !got.NeedServer?
  {
    if got.Nothing? then CloseWith(s, call, StreamClosed)
    else if !got.change.hasId then CloseWith(s, call, NoResumeToken)
    else
      Respond(s.(cursor := Some(CacheResumeToken(c, got.change.entry + 1)), resuming := None),
              call, Delivered(got.change.entry))
  }

  // What `next` does with one round of its cursor.
  function Proceed(s: Stream, call: nat, step: (Cursor, Got)): Stream
  {
    if step.1.NeedServer? then s.(cursor := Some(step.0), resuming := None, phase := Waiting, asking := call)
    else ProcessNewChange(s, call, step.0, step.1)
  }

  // An error that is not resumable: the call is queued to be made again, and then the stream
  // is closed and the call answered with the error all the same.
  function FailCall(s: Stream, call: nat, answer: Answer): Stream
  {
    CloseWith(s.(queue := s.queue + [call]), call, answer)
  }

  function Next(s: Stream, call: nat): (r: Stream)
    ensures s.closed ==> r.closed && r.queue == s.queue
    ensures !s.closed && s.cursor.Some? ==> r.closed || r.queue == s.queue
  {
    if s.closed then Respond(s, call, StreamClosed)
    else if s.cursor.None? then s.(queue := s.queue + [call])
    else if s.cursor.value.id == Exhausted then FailCall(s, call, CursorExhausted)
    else Proceed(s, call, Take(s.cursor.value))
  }

  // The queue is drained from its end. `failed`: there is no new cursor, and every queued call
  // finds the stream closed. Otherwise the loop stops at a stream without a cursor.
  function Drain(s: Stream, failed: bool): Stream
    requires failed ==> s.closed
    decreases !s.closed, |s.queue|
  {
    if s.queue == [] then s
    else
      var last := |s.queue| - 1;
      var popped := s.(queue := s.queue[..last]);
      if !failed && (s.closed || s.cursor.None?) then Next(popped, s.queue[last])
      else Drain(Next(popped, s.queue[last]), failed)
  }

  // The replacement cursor has its first result: install it and make the queued calls.
  function Install(s: Stream, c: Cursor): Stream
  {
    Drain(s.(cursor := Some(c), resuming := None, phase := Idle), false)
  }

  // There will be no replacement.
  function GiveUp(s: Stream): Stream
  {
    Drain(s.(cursor := None, resuming := None, phase := Idle, closed := true), true)
  }

  function OnReply(s: Stream, response: Response): Stream
  {
    if s.phase == Waiting && s.cursor.Some? then Proceed(s, s.asking, Take(Receive(s.cursor.value, response)))
    else if s.phase == Probing && s.resuming.Some? then
      var (c, got) := Take(Receive(s.resuming.value, response));
      match got
      case NeedServer => s.(resuming := Some(c))
      case Document(change) => Install(s, c.(documents := [change] + c.documents))
      case Nothing => Install(s, c)
    else s
  }

  function OnFail(s: Stream, resumable: bool): Stream
  {
    if s.phase == Waiting && s.cursor.Some? then
      if resumable then
        s.(cursor := None, resuming := Some(s.cursor.value.(closed := true)), phase := Reconnecting,
           queue := s.queue + [s.asking])
      else FailCall(s, s.asking, Unresumable)
    else if s.phase == Probing then GiveUp(s)
    else s
  }

  function OnTopology(s: Stream, connected: bool): Stream
  {
    if s.phase != Reconnecting || s.resuming.None? then s
    else if connected then s.(resuming := Some(NewCursor(ResumeOptions(s.resuming.value))), phase := Probing)
    else GiveUp(s)
  }

  function Step(s: Stream, t: Turn): Stream
  {
    match t
    case CallNext => if s.phase == Idle then Next(s.(calls := s.calls + 1), s.calls) else s
    case Reply(response) => OnReply(s, response)
    case Fail(resumable) => OnFail(s, resumable)
    case Topology(connected) => OnTopology(s, connected)
  }

  class ChangeStream {
    var cursor: ChangeStreamCursor?
    var resuming: ChangeStreamCursor?
    var phase: Phase
    var closed: bool
    var calls: nat
    var asking: nat
    var resumeQueue: seq<nat>
    var answers: seq<CallBack>

    ghost function State(): Stream
      reads this, cursor, resuming
    {
      Stream(if cursor == null then None else Some(cursor.State()),
             if resuming == null then None else Some(resuming.State()),
             phase, closed, calls, asking, resumeQueue, answers)
    }

    constructor (options: Options)
      ensures State() == Open(options) && fresh(cursor)
    {
      cursor := new ChangeStreamCursor(options);
      resuming, phase, closed, calls, asking, resumeQueue, answers := null, Idle, false, 0, 0, [], [];
    }

    method RespondNow(call: nat, answer: Answer)
      modifies `phase, `answers
      ensures State() == Respond(old(State()), call, answer)
    {
      phase := Idle;
      answers := answers + [CallBack(call, answer)];
    }

    method CloseWithError(call: nat, answer: Answer)
      modifies `cursor, `resuming, `closed, `phase, `answers
      ensures cursor == null && resuming == null && State() == CloseWith(old(State()), call, answer)
    {
      cursor, resuming, closed := null, null, true;
      RespondNow(call, answer);
    }

    method ProcessNewChangeNow(call: nat, got: Got)
      requires !got.NeedServer? && cursor != null
      modifies `cursor, `resuming, `closed, `phase, `answers, cursor
      ensures State() == ProcessNewChange(old(State()), call, old(cursor.State()), got)
      ensures cursor == null || cursor == old(cursor)
    {
      if got.Nothing? {
        CloseWithError(call, StreamClosed);
        return;
      }
      if !got.change.hasId {
        CloseWithError(call, NoResumeToken);
        return;
      }
      cursor.CacheResumeTokenNow(got.change.entry + 1);
      resuming := null;
      RespondNow(call, Delivered(got.change.entry));
    }

    method ProceedNow(call: nat)
      requires cursor != null
      modifies `cursor, `resuming, `closed, `phase, `asking, `answers, cursor
      ensures State() == Proceed(old(State()), call, Take(old(cursor.State())))
      ensures cursor == null || cursor == old(cursor)
    {
      var got := cursor.Next();
      if got.NeedServer? {
        resuming, phase, asking := null, Waiting, call;
      } else {
        ProcessNewChangeNow(call, got);
      }
    }

    method FailCallNow(call: nat, answer: Answer)
      modifies `cursor, `resuming, `closed, `phase, `answers, `resumeQueue
      ensures cursor == null && State() == FailCall(old(State()), call, answer)
    {
      resumeQueue := resumeQueue + [call];
      CloseWithError(call, answer);
    }

    method NextNow(call: nat)
      modifies `cursor, `resuming, `closed, `phase, `asking, `answers, `resumeQueue, cursor
      ensures State() == Next(old(State()), call)
      ensures cursor == null || cursor == old(cursor)
    {
      if closed {
        RespondNow(call, StreamClosed);
      } else if cursor == null {
        resumeQueue := resumeQueue + [call];
      } else if cursor.id == Exhausted {
        FailCallNow(call, CursorExhausted);
      } else {
        ProceedNow(call);
      }
    }

    method ProcessResumeQueue(failed: bool)
      requires failed ==> closed
      modifies `cursor, `resuming, `closed, `phase, `asking, `answers, `resumeQueue, cursor
      ensures State() == Drain(old(State()), failed)
    {
      hide Next;
      while |resumeQueue| > 0
        invariant failed ==> closed
        invariant cursor == null || cursor == old(cursor)
        invariant Drain(State(), failed) == old(Drain(State(), failed))
        decreases !closed, |resumeQueue|
      {
        var request := resumeQueue[|resumeQueue| - 1];
        resumeQueue := resumeQueue[..|resumeQueue| - 1];
        if !failed && (closed || cursor == null) {
          NextNow(request);
          return;
        }
        NextNow(request);
      }
    }

    method UnresumableError()
      modifies `cursor, `resuming, `closed, `phase, `asking, `answers, `resumeQueue
      ensures State() == GiveUp(old(State()))
    {
      cursor, resuming, phase, closed := null, null, Idle, true;
      ProcessResumeQueue(true);
    }

    // The turn of a caller: calls are numbered.
    method CallNextNow()
      modifies this, cursor
      ensures State() == Step(old(State()), CallNext)
    {
      if phase == Idle {
        calls := calls + 1;
        NextNow(calls - 1);
      }
    }

    method OnReplyNow(response: Response)
      requires phase == Probing ==> resuming != null && resuming != cursor
      modifies this, cursor, resuming
      ensures State() == OnReply(old(State()), response)
    {
      hide Drain;
      if phase == Waiting && cursor != null {
        cursor.OnResponse(response);
        ProceedNow(asking);
      } else if phase == Probing {
        resuming.OnResponse(response);
        var got := resuming.Next();
        if got.NeedServer? {
          return;
        }
        if got.Document? {
          resuming.Unshift(got.change);
        }
        cursor, resuming, phase := resuming, null, Idle;
        ProcessResumeQueue(false);
      }
    }

    method OnFailNow(resumable: bool)
      modifies this, cursor
      requires phase != Waiting || cursor != resuming
      ensures State() == OnFail(old(State()), resumable)
    {
      hide GiveUp;
      if phase == Waiting && cursor != null {
        if resumable {
          cursor.closed := true;
          resumeQueue := resumeQueue + [asking];
          cursor, resuming, phase := null, cursor, Reconnecting;
        } else {
          FailCallNow(asking, Unresumable);
        }
      } else if phase == Probing {
        UnresumableError();
      }
    }

    method OnTopologyNow(connected: bool)
      modifies this
      ensures State() == OnTopology(old(State()), connected)
    {
      hide GiveUp;
      if phase == Reconnecting && resuming != null {
        if connected {
          var options := resuming.ResumeOptionsNow();
          resuming := new ChangeStreamCursor(options);
          phase := Probing;
        } else {
          UnresumableError();
        }
      }
    }
  }
}
