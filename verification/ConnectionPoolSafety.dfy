/**
 The order of the grants, and what the checked-out counter counts.
 */
module ConnectionPoolSafety {
  import opened Wrappers
  import opened ConnectionPools
  import opened ConnectionPoolRuns
  import opened ConnectionPoolWaiters

  // ----- Grants in order of arrival -----

  function Grants(answers: seq<Answer>): seq<nat>
    decreases |answers|
  {
    if answers == [] then []
    else
      var last := answers[|answers| - 1];
      Grants(answers[..|answers| - 1]) + (if last.outcome.Granted? then [last.waiter] else [])
  }

  lemma GrantsSnoc(answers: seq<Answer>, a: Answer)
    ensures Grants(answers + [a]) == Grants(answers) + (if a.outcome.Granted? then [a.waiter] else [])
  {
    assert (answers + [a])[..|answers|] == answers;
  }

  lemma {:induction false} GrantsAnswered(answers: seq<Answer>)
    ensures forall i :: 0 <= i < |Grants(answers)| ==> Grants(answers)[i] in AnsweredIds(answers)
    decreases |answers|
  {
    if answers != [] {
      var rest, last := answers[..|answers| - 1], answers[|answers| - 1];
      assert answers == rest + [last];
      GrantsAnswered(rest);
      AnsweredSnoc(rest, last);
    }
  }

  predicate Ordered(queue: seq<Waiter>, answers: seq<Answer>)
  {
    && (forall i, j :: 0 <= i < j < |Grants(answers)| ==> Grants(answers)[i] < Grants(answers)[j])
    && (forall i, k :: 0 <= i < |Grants(answers)| && 0 <= k < |queue| ==> Grants(answers)[i] < queue[k].id)
  }

  lemma ShiftOrdered(queue: seq<Waiter>, answers: seq<Answer>, nextWaiter: nat, outcome: Outcome)
    requires Answering(queue, answers, nextWaiter) && Ordered(queue, answers) && queue != []
    ensures Ordered(queue[1..], answers) && Ordered(queue[1..], answers + [Answer(queue[0].id, outcome)])
  {
    hide Grants;
    GrantsSnoc(answers, Answer(queue[0].id, outcome));
  }

  lemma AnswerOrdered(queue: seq<Waiter>, answers: seq<Answer>, a: Answer)
    requires Ordered(queue, answers) && !a.outcome.Granted?
    ensures Ordered(queue, answers + [a])
  {
    hide Grants;
    GrantsSnoc(answers, a);
  }

  lemma {:induction false} DrainOrdered(queue: seq<Waiter>, answers: seq<Answer>)
    requires Ordered(queue, answers)
    ensures Ordered([], answers + DrainAnswers(queue))
    decreases |queue|
  {
    hide Grants;
    if queue == [] {
      assert answers + [] == answers;
    } else {
      var last, rest := queue[|queue| - 1], queue[..|queue| - 1];
      var now := if last.cancelled then [] else [Answer(last.id, Drained)];
      AnswerOrdered(queue, answers, Answer(last.id, Drained));
      assert answers + [] == answers;
      DrainOrdered(rest, answers + now);
      assert answers + now + DrainAnswers(rest) == answers + (now + DrainAnswers(rest));
    }
  }

  lemma ArriveOrdered(queue: seq<Waiter>, answers: seq<Answer>, nextWaiter: nat, w: Waiter)
    requires Answering(queue, answers, nextWaiter) && Ordered(queue, answers) && w.id == nextWaiter
    ensures Ordered(queue + [w], answers)
  {
    hide Grants;
    GrantsAnswered(answers);
  }

  lemma {:induction false} DispatchOrdered(p: Pool, perished: set<nat>)
    requires Answering(p.waitQueue, p.answers, p.nextWaiter) && Ordered(p.waitQueue, p.answers)
    ensures var d := Dispatch(p, perished);
      Ordered(d.waitQueue, d.answers)
    decreases |p.waitQueue| + |p.connections|
  {
    hide Answering, Ordered;
    if p.waitQueue != [] {
      if p.waitQueue[0].cancelled {
        ShiftAnswering(p.waitQueue, p.answers, p.nextWaiter, TimedOut);
        ShiftOrdered(p.waitQueue, p.answers, p.nextWaiter, TimedOut);
        DispatchOrdered(p.(waitQueue := p.waitQueue[1..]), perished);
      } else if p.connections != [] {
        var c, w := p.connections[0], p.waitQueue[0];
        if !IsStale(p, c) && c.id !in perished {
          ShiftAnswering(p.waitQueue, p.answers, p.nextWaiter, Granted(c.id));
          ShiftOrdered(p.waitQueue, p.answers, p.nextWaiter, Granted(c.id));
          DispatchOrdered(p.(connections := p.connections[1..], waitQueue := p.waitQueue[1..],
                             leased := p.leased[c.id := c],
                             answers := p.answers + [Answer(w.id, Granted(c.id))]), perished);
        } else {
          DispatchOrdered(p.(connections := p.connections[1..], permits := p.permits + 1), perished);
        }
      }
    }
  }

  lemma ServeOrdered(p: Pool, connection: Option<Conn>)
    requires Answering(p.waitQueue, p.answers, p.nextWaiter) && Ordered(p.waitQueue, p.answers)
    ensures var q := ServeWaiter(p, connection);
      Ordered(q.waitQueue, q.answers)
  {
    hide Answering, Ordered;
    if p.waitQueue != [] {
      ShiftOrdered(p.waitQueue, p.answers, p.nextWaiter,
                   if connection.Some? then Granted(connection.value.id) else ConnectFailed);
    }
  }

  lemma TimeoutOrdered(queue: seq<Waiter>, answers: seq<Answer>, i: nat)
    requires Ordered(queue, answers) && i < |queue|
    ensures Ordered(queue[i := queue[i].(timed := false, cancelled := true)], answers + [Answer(queue[i].id, TimedOut)])
  {
    hide Grants;
    AnswerOrdered(queue, answers, Answer(queue[i].id, TimedOut));
  }

  lemma StepOrdered(p: Pool, e: Event)
    requires Answering(p.waitQueue, p.answers, p.nextWaiter) && Ordered(p.waitQueue, p.answers)
    ensures var q := Step(p, e);
      Ordered(q.waitQueue, q.answers)
  {
    hide Answering, Ordered, Dispatch, ServeWaiter, Arrive, IsStale;
    match e {
      case CheckOutCall =>
        ArriveOrdered(p.waitQueue, p.answers, p.nextWaiter, Waiter(p.nextWaiter, p.options.waitQueueTimeout, false));
        AnswerOrdered(p.waitQueue, p.answers, Answer(p.nextWaiter, PoolClosed));
      case TimerFires(i) =>
        if i < |p.waitQueue| {
          TimeoutOrdered(p.waitQueue, p.answers, i);
        }
      case CloseCall => DrainOrdered(p.waitQueue, p.answers);
      case Connected(id, serviceId) =>
        if id in p.pending {
          var (landed, c) := Arrive(p, id, serviceId);
          ServeOrdered(landed, Some(c));
        }
      case ConnectError(id) =>
        if id in p.pending {
          ServeOrdered(p.(permits := p.permits + 1, pending := p.pending - {id}), None);
        }
      case Tick(perished) =>
        if p.ticks > 0 {
          DispatchOrdered(p.(ticks := p.ticks - 1), perished);
        }
      case MinPoolSizeTimer => ConnectsOnly(p);
      case _ =>
    }
  }

  // ----- The checked-out counter -----

  function Cancelled(queue: seq<Waiter>): nat
  {
    if queue == [] then 0 else (if queue[0].cancelled then 1 else 0) + Cancelled(queue[1..])
  }

  lemma {:induction false} CancelledConcat(a: seq<Waiter>, b: seq<Waiter>)
    ensures Cancelled(a + b) == Cancelled(a) + Cancelled(b)
  {
    if a == [] {
      assert a + b == b;
    } else {
      assert (a + b)[1..] == a[1..] + b;
      CancelledConcat(a[1..], b);
    }
  }

  lemma CancelledAt(queue: seq<Waiter>, i: nat, w: Waiter)
    requires i < |queue|
    ensures Cancelled(queue[i := w])
         == Cancelled(queue) - (if queue[i].cancelled then 1 else 0) + (if w.cancelled then 1 else 0)
  {
    var one, was := [w], [queue[i]];
    assert queue == queue[..i] + (was + queue[i + 1..]) && queue[i := w] == queue[..i] + (one + queue[i + 1..]);
    CancelledConcat(queue[..i], was + queue[i + 1..]);
    CancelledConcat(queue[..i], one + queue[i + 1..]);
    assert (was + queue[i + 1..])[1..] == queue[i + 1..] && (one + queue[i + 1..])[1..] == queue[i + 1..];
  }

  // Waiters that left without a connection: timed out, failed to connect or drained.
  function Failures(answers: seq<Answer>): nat
    decreases |answers|
  {
    if answers == [] then 0
    else
      var outcome := answers[|answers| - 1].outcome;
      Failures(answers[..|answers| - 1]) + (if outcome.Granted? || outcome.PoolClosed? then 0 else 1)
  }

  lemma FailuresSnoc(answers: seq<Answer>, a: Answer)
    ensures Failures(answers + [a])
      == Failures(answers) + (if a.outcome.Granted? || a.outcome.PoolClosed? then 0 else 1)
  {
    assert (answers + [a])[..|answers|] == answers;
  }

  // The counter is what is queued and on loan plus every waiter that has left the queue
  // without a connection: those are never subtracted.
  predicate Accounted(checkedOut: int, queue: seq<Waiter>, leased: nat, answers: seq<Answer>)
  {
    checkedOut == |queue| + leased + Failures(answers) - Cancelled(queue)
  }

  lemma ShiftAccounted(checkedOut: int, queue: seq<Waiter>, leased: nat, answers: seq<Answer>, outcome: Outcome)
    requires Accounted(checkedOut, queue, leased, answers) && queue != [] && !outcome.PoolClosed?
    ensures queue[0].cancelled ==> Accounted(checkedOut, queue[1..], leased, answers)
    ensures !queue[0].cancelled ==>
      Accounted(checkedOut, queue[1..], if outcome.Granted? then leased + 1 else leased,
                answers + [Answer(queue[0].id, outcome)])
  {
    FailuresSnoc(answers, Answer(queue[0].id, outcome));
  }

  lemma {:induction false} DrainAccounted(checkedOut: int, queue: seq<Waiter>, leased: nat, answers: seq<Answer>)
    requires Accounted(checkedOut, queue, leased, answers)
    ensures Accounted(checkedOut, [], leased, answers + DrainAnswers(queue))
    decreases |queue|
  {
    hide Failures;
    if queue == [] {
      assert answers + [] == answers;
    } else {
      var last, rest := queue[|queue| - 1], queue[..|queue| - 1];
      var now := if last.cancelled then [] else [Answer(last.id, Drained)];
      assert queue == rest + [last];
      CancelledConcat(rest, [last]);
      assert Cancelled([last]) == (if last.cancelled then 1 else 0) + Cancelled([]);
      FailuresSnoc(answers, Answer(last.id, Drained));
      assert answers + [] == answers;
      DrainAccounted(checkedOut, rest, leased, answers + now);
      assert answers + now + DrainAnswers(rest) == answers + (now + DrainAnswers(rest));
    }
  }

  lemma {:induction false} DispatchAccounted(p: Pool, perished: set<nat>)
    requires Distinct(p) && Capacity(p) && Accounted(p.checkedOut, p.waitQueue, |p.leased|, p.answers)
    ensures var d := Dispatch(p, perished);
      Accounted(d.checkedOut, d.waitQueue, |d.leased|, d.answers) && d.checkedOut == p.checkedOut
    decreases |p.waitQueue| + |p.connections|
  {
    hide Accounted, Apart, Capacity;
    if p.waitQueue != [] {
      if p.waitQueue[0].cancelled {
        ShiftAccounted(p.checkedOut, p.waitQueue, |p.leased|, p.answers, TimedOut);
        WaitersOnly(p, p.waitQueue[1..]);
        DispatchAccounted(p.(waitQueue := p.waitQueue[1..]), perished);
      } else if p.connections != [] {
        var c, w := p.connections[0], p.waitQueue[0];
        if !IsStale(p, c) && c.id !in perished {
          ShiftAccounted(p.checkedOut, p.waitQueue, |p.leased|, p.answers, Granted(c.id));
          NotOnLoan(p);
          AddKey(p.leased, c.id, c);
          GrantKeeps(p);
          DispatchAccounted(p.(connections := p.connections[1..], waitQueue := p.waitQueue[1..],
                               leased := p.leased[c.id := c],
                               answers := p.answers + [Answer(w.id, Granted(c.id))]), perished);
        } else {
          DestroyKeeps(p);
          DispatchAccounted(p.(connections := p.connections[1..], permits := p.permits + 1), perished);
        }
      }
    }
  }

  lemma NotOnLoan(p: Pool)
    requires Distinct(p) && p.connections != []
    ensures p.connections[0].id !in p.leased
  {
  }

  lemma ServeAccounted(p: Pool, connection: Option<Conn>)
    requires Accounted(p.checkedOut, p.waitQueue, |p.leased|, p.answers)
    requires connection.Some? ==> connection.value.id !in p.leased
    ensures var q := ServeWaiter(p, connection);
      Accounted(q.checkedOut, q.waitQueue, |q.leased|, q.answers)
  {
    hide Accounted;
    if connection.Some? {
      AddKey(p.leased, connection.value.id, connection.value);
    }
    if p.waitQueue != [] {
      ShiftAccounted(p.checkedOut, p.waitQueue, |p.leased|, p.answers,
                     if connection.Some? then Granted(connection.value.id) else ConnectFailed);
    }
  }

  lemma CheckOutAccounted(p: Pool)
    requires Accounted(p.checkedOut, p.waitQueue, |p.leased|, p.answers)
    ensures var q := CheckOut(p);
      Accounted(q.checkedOut, q.waitQueue, |q.leased|, q.answers)
  {
    var w := Waiter(p.nextWaiter, p.options.waitQueueTimeout, false);
    CancelledConcat(p.waitQueue, [w]);
    assert Cancelled([w]) == 0 + Cancelled([w][1..]);
    FailuresSnoc(p.answers, Answer(p.nextWaiter, PoolClosed));
  }

  lemma TimeoutAccounted(p: Pool, i: nat)
    requires i < |p.waitQueue| && Accounted(p.checkedOut, p.waitQueue, |p.leased|, p.answers)
    ensures var q := Timeout(p, i);
      Accounted(q.checkedOut, q.waitQueue, |q.leased|, q.answers)
  {
    hide Cancelled, Failures;
    CancelledAt(p.waitQueue, i, p.waitQueue[i].(timed := false, cancelled := true));
    FailuresSnoc(p.answers, Answer(p.waitQueue[i].id, TimedOut));
  }

  lemma ReturnAccounted(p: Pool, id: nat, connectionClosed: bool)
    requires id in p.leased && Accounted(p.checkedOut, p.waitQueue, |p.leased|, p.answers)
    ensures var q := CheckIn(p, id, connectionClosed);
      Accounted(q.checkedOut, q.waitQueue, |q.leased|, q.answers)
  {
    hide Cancelled, Failures, IsStale;
    RemoveKey(p.leased, id);
  }

  lemma StepAccounted(p: Pool, e: Event)
    requires Connections(p) && Accounted(p.checkedOut, p.waitQueue, |p.leased|, p.answers)
    ensures var q := Step(p, e);
      Accounted(q.checkedOut, q.waitQueue, |q.leased|, q.answers)
  {
    hide Apart, Capacity, OneDispatcher, Dispatch, ServeWaiter, Arrive, IsStale, Accounted;
    match e {
      case CheckOutCall => CheckOutAccounted(p);
      case TimerFires(i) =>
        if i < |p.waitQueue| {
          TimeoutAccounted(p, i);
        }
      case Return(id, connectionClosed) =>
        if id in p.leased {
          ReturnAccounted(p, id, connectionClosed);
        }
      case CloseCall => DrainAccounted(p.checkedOut, p.waitQueue, |p.leased|, p.answers);
      case Connected(id, serviceId) =>
        if id in p.pending {
          Landed(p, id);
          var (landed, c) := Arrive(p, id, serviceId);
          ServeAccounted(landed, Some(c));
        }
      case ConnectError(id) =>
        if id in p.pending {
          ServeAccounted(p.(permits := p.permits + 1, pending := p.pending - {id}), None);
        }
      case Tick(perished) =>
        if p.ticks > 0 {
          var q := p.(ticks := p.ticks - 1);
          QueueOnly(p, q);
          DispatchAccounted(q, perished);
        }
      case MinPoolSizeTimer => ConnectsOnly(p);
      case _ =>
    }
  }
}
