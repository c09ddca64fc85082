/**
 The wait queue over whole runs: every check-out is answered at most once, whichever of grant,
 connect error, timeout and close comes first, and stays queued until it is.
 */
module ConnectionPoolWaiters {
  import opened Wrappers
  import opened ConnectionPools
  import opened ConnectionPoolRuns

  function AnsweredIds(answers: seq<Answer>): set<nat>
  {
    set a | a in answers :: a.waiter
  }

  lemma AnsweredSnoc(answers: seq<Answer>, a: Answer)
    ensures AnsweredIds(answers + [a]) == AnsweredIds(answers) + {a.waiter}
  {
    var more := answers + [a];
    assert forall x :: x in more <==> x in answers || x == a;
  }

  // No two answers are for the same waiter; a queued waiter is answered exactly when it is
  // cancelled; and every waiter is answered or queued. The queue is in order of arrival.
  predicate Answering(queue: seq<Waiter>, answers: seq<Answer>, nextWaiter: nat)
  {
    && (forall i, j :: 0 <= i < j < |answers| ==> answers[i].waiter != answers[j].waiter)
    && (forall id :: id in AnsweredIds(answers) ==> id < nextWaiter)
    && (forall i, j :: 0 <= i < j < |queue| ==> queue[i].id < queue[j].id)
    && (forall i :: 0 <= i < |queue| ==> queue[i].id < nextWaiter)
    && (forall i :: 0 <= i < |queue| ==> (queue[i].cancelled <==> queue[i].id in AnsweredIds(answers)))
    && (forall id :: 0 <= id < nextWaiter ==> id in AnsweredIds(answers) || Queued(queue, id))
  }

  predicate Queued(queue: seq<Waiter>, id: nat)
  {
    exists i :: 0 <= i < |queue| && queue[i].id == id
  }

  lemma QueuedPop(queue: seq<Waiter>, id: nat)
    requires queue != [] && Queued(queue, id)
    ensures id == queue[0].id || Queued(queue[1..], id)
    ensures id == queue[|queue| - 1].id || Queued(queue[..|queue| - 1], id)
  {
    var i :| 0 <= i < |queue| && queue[i].id == id;
    if i > 0 {
      assert queue[1..][i - 1].id == id;
    }
    if i < |queue| - 1 {
      assert queue[..|queue| - 1][i].id == id;
    }
  }

  lemma ArriveAnswering(queue: seq<Waiter>, answers: seq<Answer>, nextWaiter: nat, timed: bool)
    requires Answering(queue, answers, nextWaiter)
    ensures Answering(queue + [Waiter(nextWaiter, timed, false)], answers, nextWaiter + 1)
  {
    var q := queue + [Waiter(nextWaiter, timed, false)];
    forall id | 0 <= id < nextWaiter + 1
      ensures id in AnsweredIds(answers) || Queued(q, id)
    {
      if id == nextWaiter {
        assert q[|queue|].id == id;
      } else if id !in AnsweredIds(answers) {
        var i :| 0 <= i < |queue| && queue[i].id == id;
        assert q[i].id == id;
      }
    }
  }

  lemma RefuseAnswering(queue: seq<Waiter>, answers: seq<Answer>, nextWaiter: nat)
    requires Answering(queue, answers, nextWaiter)
    ensures Answering(queue, answers + [Answer(nextWaiter, PoolClosed)], nextWaiter + 1)
  {
    var a := Answer(nextWaiter, PoolClosed);
    AnsweredSnoc(answers, a);
    Unanswered(answers, nextWaiter);
  }

  lemma Unanswered(answers: seq<Answer>, id: nat)
    requires id !in AnsweredIds(answers)
    ensures forall i :: 0 <= i < |answers| ==> answers[i].waiter != id
  {
    forall i | 0 <= i < |answers|
      ensures answers[i].waiter != id
    {
      assert answers[i] in answers;
    }
  }

  lemma TimeoutAnswering(queue: seq<Waiter>, answers: seq<Answer>, nextWaiter: nat, i: nat)
    requires Answering(queue, answers, nextWaiter) && i < |queue| && !queue[i].cancelled
    ensures Answering(queue[i := queue[i].(timed := false, cancelled := true)],
                      answers + [Answer(queue[i].id, TimedOut)], nextWaiter)
  {
    var q := queue[i := queue[i].(timed := false, cancelled := true)];
    AnsweredSnoc(answers, Answer(queue[i].id, TimedOut));
    Unanswered(answers, queue[i].id);
    forall id | 0 <= id < nextWaiter && Queued(queue, id)
      ensures Queued(q, id)
    {
      var k :| 0 <= k < |queue| && queue[k].id == id;
      assert q[k].id == id;
    }
  }

  // Taking the front waiter: a cancelled one is dropped, any other one is answered now.
  lemma ShiftAnswering(queue: seq<Waiter>, answers: seq<Answer>, nextWaiter: nat, outcome: Outcome)
    requires Answering(queue, answers, nextWaiter) && queue != []
    ensures queue[0].cancelled ==> Answering(queue[1..], answers, nextWaiter)
    ensures !queue[0].cancelled ==> Answering(queue[1..], answers + [Answer(queue[0].id, outcome)], nextWaiter)
  {
    AnsweredSnoc(answers, Answer(queue[0].id, outcome));
    forall id | 0 <= id < nextWaiter && Queued(queue, id)
      ensures id == queue[0].id || Queued(queue[1..], id)
    {
      QueuedPop(queue, id);
    }
    if !queue[0].cancelled {
      Unanswered(answers, queue[0].id);
    }
  }

  lemma PopAnswering(queue: seq<Waiter>, answers: seq<Answer>, nextWaiter: nat)
    requires Answering(queue, answers, nextWaiter) && queue != []
    ensures var last := queue[|queue| - 1];
      Answering(queue[..|queue| - 1], answers + (if last.cancelled then [] else [Answer(last.id, Drained)]), nextWaiter)
  {
    var last := queue[|queue| - 1];
    AnsweredSnoc(answers, Answer(last.id, Drained));
    assert answers + [] == answers;
    forall id | 0 <= id < nextWaiter && Queued(queue, id)
      ensures id == last.id || Queued(queue[..|queue| - 1], id)
    {
      QueuedPop(queue, id);
    }
    if !last.cancelled {
      Unanswered(answers, last.id);
    }
  }

  lemma {:induction false} DrainAnswering(queue: seq<Waiter>, answers: seq<Answer>, nextWaiter: nat)
    requires Answering(queue, answers, nextWaiter)
    ensures Answering([], answers + DrainAnswers(queue), nextWaiter)
    decreases |queue|
  {
    hide Answering;
    if queue == [] {
      assert answers + [] == answers;
    } else {
      var last, rest := queue[|queue| - 1], queue[..|queue| - 1];
      var now := if last.cancelled then [] else [Answer(last.id, Drained)];
      PopAnswering(queue, answers, nextWaiter);
      DrainAnswering(rest, answers + now, nextWaiter);
      assert answers + now + DrainAnswers(rest) == answers + (now + DrainAnswers(rest));
    }
  }

  lemma {:induction false} DispatchAnswering(p: Pool, perished: set<nat>)
    requires Answering(p.waitQueue, p.answers, p.nextWaiter)
    ensures var d := Dispatch(p, perished);
      Answering(d.waitQueue, d.answers, d.nextWaiter) && d.nextWaiter == p.nextWaiter
    decreases |p.waitQueue| + |p.connections|
  {
    hide Answering;
    if p.waitQueue != [] {
      if p.waitQueue[0].cancelled {
        ShiftAnswering(p.waitQueue, p.answers, p.nextWaiter, TimedOut);
        DispatchAnswering(p.(waitQueue := p.waitQueue[1..]), perished);
      } else if p.connections != [] {
        var c, w := p.connections[0], p.waitQueue[0];
        if !IsStale(p, c) && c.id !in perished {
          ShiftAnswering(p.waitQueue, p.answers, p.nextWaiter, Granted(c.id));
          DispatchAnswering(p.(connections := p.connections[1..], waitQueue := p.waitQueue[1..],
                               leased := p.leased[c.id := c],
                               answers := p.answers + [Answer(w.id, Granted(c.id))]), perished);
        } else {
          DispatchAnswering(p.(connections := p.connections[1..], permits := p.permits + 1), perished);
        }
      }
    }
  }

  lemma ServeAnswering(p: Pool, connection: Option<Conn>)
    requires Answering(p.waitQueue, p.answers, p.nextWaiter)
    ensures var q := ServeWaiter(p, connection);
      Answering(q.waitQueue, q.answers, q.nextWaiter) && q.nextWaiter == p.nextWaiter
  {
    hide Answering;
    if p.waitQueue != [] {
      ShiftAnswering(p.waitQueue, p.answers, p.nextWaiter,
                     if connection.Some? then Granted(connection.value.id) else ConnectFailed);
    }
  }

  lemma StepAnswering(p: Pool, e: Event)
    requires Answering(p.waitQueue, p.answers, p.nextWaiter)
    ensures var q := Step(p, e);
      Answering(q.waitQueue, q.answers, q.nextWaiter)
  {
    hide Answering, Dispatch, ServeWaiter, Arrive, IsStale;
    match e {
      case CheckOutCall =>
        ArriveAnswering(p.waitQueue, p.answers, p.nextWaiter, p.options.waitQueueTimeout);
        RefuseAnswering(p.waitQueue, p.answers, p.nextWaiter);
      case TimerFires(i) =>
        if i < |p.waitQueue| && !p.waitQueue[i].cancelled {
          TimeoutAnswering(p.waitQueue, p.answers, p.nextWaiter, i);
        }
      case CloseCall => DrainAnswering(p.waitQueue, p.answers, p.nextWaiter);
      case Connected(id, serviceId) =>
        if id in p.pending {
          var (landed, c) := Arrive(p, id, serviceId);
          ServeAnswering(landed, Some(c));
        }
      case ConnectError(id) =>
        if id in p.pending {
          ServeAnswering(p.(permits := p.permits + 1, pending := p.pending - {id}), None);
        }
      case Tick(perished) =>
        if p.ticks > 0 {
          DispatchAnswering(p.(ticks := p.ticks - 1), perished);
        }
      case MinPoolSizeTimer => ConnectsOnly(p);
      case _ =>
    }
  }

  lemma ConnectsOnly(p: Pool)
    ensures var q := EnsureMinPoolSize(p);
      q.(permits := p.permits, nextConn := p.nextConn, pending := p.pending) == p
  {
    if !p.closed && p.options.minPoolSize > 0 && TotalConnectionCount(p) < p.options.minPoolSize {
      StartsOnly(p, p.options.minPoolSize - TotalConnectionCount(p));
    }
  }

  lemma {:induction false} StartsOnly(p: Pool, count: nat)
    ensures StartConnects(p, count).(permits := p.permits, nextConn := p.nextConn, pending := p.pending) == p
    decreases count
  {
    if count > 0 {
      StartsOnly(p, count - 1);
    }
  }
}
