/**
 The guarantees of a connection pool over every run from its creation: capacity, single
 answers in order, the counter, and the retirement of cleared connections.
 */
module ConnectionPoolResults {
  import opened Wrappers
  import opened ConnectionPools
  import opened ConnectionPoolRuns
  import opened ConnectionPoolWaiters
  import opened ConnectionPoolSafety

  // ----- Generations -----

  // No connection is newer than the current generation of its service or of the pool.
  predicate Aged(p: Pool, c: Conn)
  {
    CurrentGeneration(p, c).Some? && c.generation <= CurrentGeneration(p, c).value
  }

  predicate Generations(p: Pool)
  {
    && (forall i :: 0 <= i < |p.connections| ==> Aged(p, p.connections[i]))
    && (forall id :: id in p.leased ==> Aged(p, p.leased[id]))
    && (forall id :: id in p.pending ==> p.pending[id].generation <= p.generation)
  }

  // The current generations only grow.
  predicate Newer(p: Pool, q: Pool)
  {
    && q.options == p.options && p.generation <= q.generation
    && (forall s :: s in p.serviceGenerations ==>
       s in q.serviceGenerations && p.serviceGenerations[s] <= q.serviceGenerations[s])
  }

  lemma StaysAged(p: Pool, q: Pool, c: Conn)
    requires Newer(p, q) && Aged(p, c)
    ensures Aged(q, c)
  {
  }

  // Where the connections and connects of q come from: p, or one arrival that is aged.
  predicate Inherits(p: Pool, q: Pool, arrival: Option<Conn>)
  {
    && (forall i :: 0 <= i < |q.connections| ==>
          From(p, q.connections[i]) || arrival == Some(q.connections[i]))
    && (forall id :: id in q.leased ==> From(p, q.leased[id]) || arrival == Some(q.leased[id]))
  }

  predicate From(p: Pool, c: Conn)
  {
    (exists i :: 0 <= i < |p.connections| && p.connections[i] == c)
      || (exists id :: id in p.leased && p.leased[id] == c)
  }

  lemma InheritsGenerations(p: Pool, q: Pool, arrival: Option<Conn>)
    requires Generations(p) && Newer(p, q) && Inherits(p, q, arrival)
    requires arrival.Some? ==> Aged(q, arrival.value)
    requires forall id :: id in q.pending ==> q.pending[id].generation <= q.generation
    ensures Generations(q)
  {
    hide Aged, Newer;
    forall c | From(p, c)
      ensures Aged(q, c)
    {
      StaysAged(p, q, c);
    }
  }

  lemma {:induction false} DispatchInherits(p: Pool, perished: set<nat>)
    ensures var d := Dispatch(p, perished);
      Inherits(p, d, None) && d.pending == p.pending && d.generation == p.generation
      && d.serviceGenerations == p.serviceGenerations && d.options == p.options
    decreases |p.waitQueue| + |p.connections|
  {
    if p.waitQueue != [] {
      if p.waitQueue[0].cancelled {
        var q := p.(waitQueue := p.waitQueue[1..]);
        DispatchInherits(q, perished);
        Transits(p, q, Dispatch(q, perished));
      } else if p.connections != [] {
        var c, w := p.connections[0], p.waitQueue[0];
        if !IsStale(p, c) && c.id !in perished {
          var q := p.(connections := p.connections[1..], waitQueue := p.waitQueue[1..],
                      leased := p.leased[c.id := c], answers := p.answers + [Answer(w.id, Granted(c.id))]);
          DispatchInherits(q, perished);
          Transits(p, q, Dispatch(q, perished));
        } else {
          var q := p.(connections := p.connections[1..], permits := p.permits + 1);
          DispatchInherits(q, perished);
          Transits(p, q, Dispatch(q, perished));
        }
      }
    }
  }

  lemma Transits(p: Pool, q: Pool, d: Pool)
    requires Inherits(p, q, None) && Inherits(q, d, None)
    ensures Inherits(p, d, None)
  {
    forall c | From(q, c)
      ensures From(p, c)
    {
    }
  }

  lemma ServeInherits(p: Pool, connection: Option<Conn>)
    ensures Inherits(p, ServeWaiter(p, connection), connection)
  {
  }

  lemma ArriveAged(p: Pool, id: nat, serviceId: Option<nat>)
    requires Generations(p) && id in p.pending
    ensures var (landed, c) := Arrive(p, id, serviceId);
      Aged(landed, c) && Newer(p, landed) && landed.connections == p.connections && landed.leased == p.leased
  {
  }

  lemma StepGenerations(p: Pool, e: Event)
    requires Generations(p)
    ensures Generations(Step(p, e)) && Newer(p, Step(p, e))
  {
    hide Aged, From, Dispatch, ServeWaiter, Arrive, IsStale;
    var q := Step(p, e);
    match e {
      case Connected(id, serviceId) =>
        if id in p.pending {
          ConnectedGenerations(p, id, serviceId);
        }
      case ConnectError(id) =>
        if id in p.pending {
          ServeInherits(p.(permits := p.permits + 1, pending := p.pending - {id}), None);
          FailedGenerations(p, id);
        }
      case Tick(perished) =>
        if p.ticks > 0 {
          PlainGenerations(p, p.(ticks := p.ticks - 1));
          TickGenerations(p.(ticks := p.ticks - 1), perished);
        }
      case MinPoolSizeTimer => StartsGenerations(p);
      case ClearCall(serviceId) => ClearGenerations(p, serviceId);
      case Return(id, connectionClosed) => ReturnGenerations(p, id, connectionClosed);
      case _ =>
        PlainGenerations(p, q);
    }
  }

  lemma PlainGenerations(p: Pool, q: Pool)
    requires Generations(p)
    requires q.options == p.options && q.generation == p.generation && q.serviceGenerations == p.serviceGenerations
    requires q.pending == p.pending && q.leased == p.leased && (q.connections == p.connections || q.connections == [])
    ensures Generations(q) && Newer(p, q)
  {
  }

  lemma ConnectedGenerations(p: Pool, id: nat, serviceId: Option<nat>)
    requires Generations(p) && id in p.pending
    ensures Generations(ConnectSucceeds(p, id, serviceId)) && Newer(p, ConnectSucceeds(p, id, serviceId))
  {
    hide Aged, ServeWaiter, Arrive;
    if !p.closed {
      ArriveAged(p, id, serviceId);
      var (landed, c) := Arrive(p, id, serviceId);
      var q := ConnectSucceeds(p, id, serviceId);
      ServeInherits(landed, Some(c));
      SameGenerations(landed, Some(c));
      assert Inherits(p, q, Some(c));
      AgedIn(landed, q, c);
      InheritsGenerations(p, q, Some(c));
    } else {
      PlainMinus(p, id);
    }
  }

  lemma PlainMinus(p: Pool, id: nat)
    requires Generations(p) && id in p.pending
    ensures Generations(p.(pending := p.pending - {id})) && Newer(p, p.(pending := p.pending - {id}))
  {
  }

  lemma AgedIn(p: Pool, q: Pool, c: Conn)
    requires Aged(p, c) && q.options == p.options && q.generation == p.generation
      && q.serviceGenerations == p.serviceGenerations
    ensures Aged(q, c)
  {
  }

  lemma SameGenerations(p: Pool, connection: Option<Conn>)
    ensures var q := ServeWaiter(p, connection);
      q.options == p.options && q.generation == p.generation && q.serviceGenerations == p.serviceGenerations
        && q.pending == p.pending
  {
  }

  lemma FailedGenerations(p: Pool, id: nat)
    requires Generations(p) && id in p.pending
    ensures Generations(ConnectFails(p, id)) && Newer(p, ConnectFails(p, id))
  {
    hide Aged, ServeWaiter;
    var freed := p.(permits := p.permits + 1, pending := p.pending - {id});
    ServeInherits(freed, None);
    SameGenerations(freed, None);
    assert Inherits(p, ConnectFails(p, id), None);
    InheritsGenerations(p, ConnectFails(p, id), None);
  }

  lemma TickGenerations(p: Pool, perished: set<nat>)
    requires Generations(p)
    ensures Generations(ProcessWaitQueue(p, perished)) && Newer(p, ProcessWaitQueue(p, perished))
  {
    hide Aged, Dispatch;
    DispatchInherits(p, perished);
    var q := ProcessWaitQueue(p, perished);
    if !p.closed && !p.processing {
      assert Inherits(p, q, None);
      InheritsGenerations(p, q, None);
    }
  }

  lemma StartsGenerations(p: Pool)
    requires Generations(p)
    ensures Generations(EnsureMinPoolSize(p)) && Newer(p, EnsureMinPoolSize(p))
  {
    hide Aged;
    if !p.closed && p.options.minPoolSize > 0 && TotalConnectionCount(p) < p.options.minPoolSize {
      StartsAged(p, p.options.minPoolSize - TotalConnectionCount(p));
    }
  }

  lemma {:induction false} StartsAged(p: Pool, count: nat)
    requires Generations(p)
    ensures Generations(StartConnects(p, count)) && Newer(p, StartConnects(p, count))
    ensures var q := StartConnects(p, count);
      q.generation == p.generation && q.serviceGenerations == p.serviceGenerations
    decreases count
  {
    if count > 0 {
      var q := StartConnects(p, count - 1);
      StartsAged(p, count - 1);
      StartAged(q);
    }
  }

  lemma StartAged(p: Pool)
    requires Generations(p)
    ensures Generations(StartConnect(p, false)) && Newer(p, StartConnect(p, false))
  {
    var q := StartConnect(p, false);
    assert forall c: Conn :: CurrentGeneration(q, c) == CurrentGeneration(p, c);
  }

  lemma ClearGenerations(p: Pool, serviceId: Option<nat>)
    requires Generations(p)
    ensures Generations(Clear(p, serviceId)) && Newer(p, Clear(p, serviceId))
  {
    hide Aged;
    assert Newer(p, Clear(p, serviceId));
    InheritsGenerations(p, Clear(p, serviceId), None);
  }

  lemma ReturnGenerations(p: Pool, id: nat, connectionClosed: bool)
    requires Generations(p)
    ensures Generations(Step(p, Return(id, connectionClosed))) && Newer(p, Step(p, Return(id, connectionClosed)))
  {
    hide Aged, IsStale;
    if id in p.leased {
      var q := CheckIn(p, id, connectionClosed);
      assert From(p, p.leased[id]);
      InheritsGenerations(p, q, None);
    }
  }

  // ----- A cleared connection is never lent again -----

  // How often a connection has been granted.
  function Lent(answers: seq<Answer>, id: nat): nat
    decreases |answers|
  {
    if answers == [] then 0
    else Lent(answers[..|answers| - 1], id) + (if answers[|answers| - 1].outcome == Granted(id) then 1 else 0)
  }

  lemma LentSnoc(answers: seq<Answer>, a: Answer, id: nat)
    ensures Lent(answers + [a], id) == Lent(answers, id) + (if a.outcome == Granted(id) then 1 else 0)
  {
    assert (answers + [a])[..|answers|] == answers;
  }

  lemma {:induction false} LentDrained(answers: seq<Answer>, queue: seq<Waiter>, id: nat)
    ensures Lent(answers + DrainAnswers(queue), id) == Lent(answers, id)
    decreases |queue|
  {
    if queue == [] {
      assert answers + [] == answers;
    } else {
      var last, rest := queue[|queue| - 1], queue[..|queue| - 1];
      var now := if last.cancelled then [] else [Answer(last.id, Drained)];
      LentSnoc(answers, Answer(last.id, Drained), id);
      assert answers + [] == answers;
      LentDrained(answers + now, rest, id);
      assert answers + now + DrainAnswers(rest) == answers + (now + DrainAnswers(rest));
    }
  }

  // Of an earlier generation than the current one.
  predicate Outdated(p: Pool, c: Conn)
  {
    CurrentGeneration(p, c).Some? && c.generation < CurrentGeneration(p, c).value
  }

  // The id is out of use: not in flight, and any connection that has it is outdated.
  predicate Retired(p: Pool, id: nat)
  {
    && id < p.nextConn && id !in p.pending
    && (forall i :: 0 <= i < |p.connections| && p.connections[i].id == id ==> Outdated(p, p.connections[i]))
    && (forall k :: k in p.leased && p.leased[k].id == id ==> Outdated(p, p.leased[k]))
  }

  predicate Idle(p: Pool, id: nat)
  {
    exists i :: 0 <= i < |p.connections| && p.connections[i].id == id
  }

  // A retired connection only goes away: it is not granted, and it moves neither from idle to
  // on loan nor back.
  predicate GoesAway(p: Pool, q: Pool, id: nat)
  {
    && Retired(q, id)
    && Lent(q.answers, id) == Lent(p.answers, id)
    && (Idle(q, id) ==> Idle(p, id))
    && (id in q.leased ==> id in p.leased)
  }

  lemma GoesOn(p: Pool, q: Pool, d: Pool, id: nat)
    requires GoesAway(p, q, id) && GoesAway(q, d, id)
    ensures GoesAway(p, d, id)
  {
  }

  lemma StaysOutdated(p: Pool, q: Pool, c: Conn)
    requires Newer(p, q) && Outdated(p, c)
    ensures Outdated(q, c) && IsStale(q, c)
  {
  }

  lemma {:induction false} DispatchRetired(p: Pool, perished: set<nat>, id: nat)
    requires Retired(p, id)
    ensures GoesAway(p, Dispatch(p, perished), id)
    decreases |p.waitQueue| + |p.connections|
  {
    hide Lent;
    if p.waitQueue != [] {
      if p.waitQueue[0].cancelled {
        var q := p.(waitQueue := p.waitQueue[1..]);
        DispatchRetired(q, perished, id);
        GoesOn(p, q, Dispatch(q, perished), id);
      } else if p.connections != [] {
        var c, w := p.connections[0], p.waitQueue[0];
        if !IsStale(p, c) && c.id !in perished {
          GrantRetired(p, id);
          var q := p.(connections := p.connections[1..], waitQueue := p.waitQueue[1..],
                      leased := p.leased[c.id := c], answers := p.answers + [Answer(w.id, Granted(c.id))]);
          DispatchRetired(q, perished, id);
          GoesOn(p, q, Dispatch(q, perished), id);
        } else {
          DestroyRetired(p, id);
          var q := p.(connections := p.connections[1..], permits := p.permits + 1);
          DispatchRetired(q, perished, id);
          GoesOn(p, q, Dispatch(q, perished), id);
        }
      }
    }
  }

  lemma GrantRetired(p: Pool, id: nat)
    requires Retired(p, id) && p.connections != [] && p.waitQueue != [] && !IsStale(p, p.connections[0])
    ensures var c, w := p.connections[0], p.waitQueue[0];
      GoesAway(p, p.(connections := p.connections[1..], waitQueue := p.waitQueue[1..],
                     leased := p.leased[c.id := c], answers := p.answers + [Answer(w.id, Granted(c.id))]), id)
  {
    hide Lent;
    LentSnoc(p.answers, Answer(p.waitQueue[0].id, Granted(p.connections[0].id)), id);
  }

  lemma DestroyRetired(p: Pool, id: nat)
    requires Retired(p, id) && p.connections != []
    ensures GoesAway(p, p.(connections := p.connections[1..], permits := p.permits + 1), id)
  {
    hide Lent;
  }

  lemma SameAge(p: Pool, q: Pool)
    requires q.options == p.options && q.generation == p.generation && q.serviceGenerations == p.serviceGenerations
    ensures forall c :: Outdated(q, c) <==> Outdated(p, c)
  {
  }

  lemma ServeRetired(p: Pool, connection: Option<Conn>, id: nat)
    requires Retired(p, id) && (connection.Some? ==> connection.value.id != id)
    ensures GoesAway(p, ServeWaiter(p, connection), id)
  {
    hide Lent, Outdated;
    SameAge(p, ServeWaiter(p, connection));
    if p.waitQueue != [] {
      LentSnoc(p.answers, Answer(p.waitQueue[0].id,
                                 if connection.Some? then Granted(connection.value.id) else ConnectFailed), id);
    }
  }

  // Turns that leave the connections where they are and grant nothing.
  lemma PlainRetired(p: Pool, q: Pool, id: nat)
    requires Retired(p, id) && Newer(p, q) && p.nextConn <= q.nextConn
    requires (q.connections == p.connections || q.connections == []) && q.leased == p.leased
    requires id !in q.pending && Lent(q.answers, id) == Lent(p.answers, id)
    ensures GoesAway(p, q, id)
  {
    hide Lent, IsStale;
    forall i | 0 <= i < |q.connections| && q.connections[i].id == id
      ensures Outdated(q, q.connections[i])
    {
      StaysOutdated(p, q, q.connections[i]);
    }
    forall k | k in q.leased && q.leased[k].id == id
      ensures Outdated(q, q.leased[k])
    {
      StaysOutdated(p, q, q.leased[k]);
    }
  }

  lemma ReturnRetired(p: Pool, back: nat, connectionClosed: bool, id: nat)
    requires Retired(p, id) && back in p.leased && p.leased[back].id == back
    ensures GoesAway(p, CheckIn(p, back, connectionClosed), id)
  {
    hide Lent;
  }

  lemma {:induction false} StartsRetired(p: Pool, count: nat, id: nat)
    requires Retired(p, id)
    ensures id !in StartConnects(p, count).pending && p.nextConn <= StartConnects(p, count).nextConn
    ensures StartConnects(p, count)
      == p.(permits := StartConnects(p, count).permits, nextConn := StartConnects(p, count).nextConn,
                                          pending := StartConnects(p, count).pending)
    decreases count
  {
    hide Outdated;
    if count > 0 {
      StartsRetired(p, count - 1, id);
    }
  }

  lemma ConnectedRetired(p: Pool, arriving: nat, serviceId: Option<nat>, id: nat)
    requires Retired(p, id) && arriving in p.pending && Generations(p)
    ensures GoesAway(p, ConnectSucceeds(p, arriving, serviceId), id)
  {
    hide Lent, Retired, ServeWaiter, Arrive, Generations;
    Different(p, arriving, id);
    if p.closed {
      PlainRetired(p, p.(pending := p.pending - {arriving}), id);
    } else {
      ArriveNewer(p, arriving, serviceId);
      var (landed, c) := Arrive(p, arriving, serviceId);
      PlainRetired(p, landed, id);
      if p.pending[arriving].forWaiter {
        ServeRetired(landed, Some(c), id);
        GoesOn(p, landed, ServeWaiter(landed, Some(c)), id);
      } else {
        PushRetired(landed, c, id);
        GoesOn(p, landed, ConnectSucceeds(p, arriving, serviceId), id);
      }
    }
  }

  lemma Different(p: Pool, arriving: nat, id: nat)
    requires Retired(p, id) && arriving in p.pending
    ensures arriving != id && id !in p.pending - {arriving}
  {
  }

  lemma ArriveNewer(p: Pool, id: nat, serviceId: Option<nat>)
    requires Generations(p) && id in p.pending
    ensures Newer(p, Arrive(p, id, serviceId).0)
  {
  }

  lemma PushRetired(p: Pool, c: Conn, id: nat)
    requires Retired(p, id) && c.id != id
    ensures GoesAway(p, p.(connections := p.connections + [c], ticks := p.ticks + 1), id)
  {
    hide Lent;
  }

  lemma TickRetired(p: Pool, perished: set<nat>, id: nat)
    requires Retired(p, id)
    ensures GoesAway(p, ProcessWaitQueue(p, perished), id)
  {
    hide Lent, Retired, Dispatch;
    RetiredKnown(p, id);
    if p.closed || p.processing {
      PlainRetired(p, p, id);
    } else {
      DispatchRetired(p, perished, id);
      var d := Dispatch(p, perished);
      RetiredKnown(d, id);
      PlainRetired(d, ProcessWaitQueue(p, perished), id);
      GoesOn(p, d, ProcessWaitQueue(p, perished), id);
    }
  }

  lemma RetiredKnown(p: Pool, id: nat)
    requires Retired(p, id)
    ensures id < p.nextConn && id !in p.pending
  {
  }

  // The turns of callers and timers, which bring no connection.
  lemma QuietRetired(p: Pool, e: Event, id: nat)
    requires Retired(p, id)
    requires e.CheckOutCall? || e.TimerFires? || e.ClearCall? || e.CloseCall? || e.ConnectionsDestroyed?
      || e.MinPoolSizeTimer?
    ensures GoesAway(p, Step(p, e), id)
  {
    hide Lent, Retired, GoesAway, Step, Newer;
    RetiredKnown(p, id);
    if e.MinPoolSizeTimer? {
      MinimumRetired(p, id);
    } else {
      QuietAnswers(p, e, id);
      QuietShape(p, e);
      PlainRetired(p, Step(p, e), id);
    }
  }

  lemma MinimumRetired(p: Pool, id: nat)
    requires Retired(p, id)
    ensures GoesAway(p, Step(p, MinPoolSizeTimer), id)
  {
    hide Lent, Retired, GoesAway;
    RetiredKnown(p, id);
    var total, min := TotalConnectionCount(p), p.options.minPoolSize;
    StartsRetired(p, if total < min then min - total else 0, id);
    PlainRetired(p, Step(p, MinPoolSizeTimer), id);
  }

  lemma QuietShape(p: Pool, e: Event)
    requires e.CheckOutCall? || e.TimerFires? || e.ClearCall? || e.CloseCall? || e.ConnectionsDestroyed?
    ensures var q := Step(p, e);
      && Newer(p, q) && q.nextConn == p.nextConn && q.pending == p.pending && q.leased == p.leased
      && (q.connections == p.connections || q.connections == [])
  {
    hide DrainAnswers;
  }

  lemma QuietAnswers(p: Pool, e: Event, id: nat)
    requires e.CheckOutCall? || e.TimerFires? || e.ClearCall? || e.CloseCall? || e.ConnectionsDestroyed?
    ensures Lent(Step(p, e).answers, id) == Lent(p.answers, id)
  {
    hide Lent, DrainAnswers;
    match e {
      case CheckOutCall => LentSnoc(p.answers, Answer(p.nextWaiter, PoolClosed), id);
      case TimerFires(i) =>
        if i < |p.waitQueue| {
          LentSnoc(p.answers, Answer(p.waitQueue[i].id, TimedOut), id);
        }
      case CloseCall => LentDrained(p.answers, p.waitQueue, id);
      case _ =>
    }
  }

  lemma StepRetired(p: Pool, e: Event, id: nat)
    requires Retired(p, id) && Connections(p) && Generations(p)
    ensures GoesAway(p, Step(p, e), id)
  {
    hide Lent, Retired, ProcessWaitQueue, ServeWaiter, Arrive, IsStale, GoesAway, Generations, Capacity, OneDispatcher;
    RetiredKnown(p, id);
    match e {
      case Return(back, connectionClosed) =>
        if back in p.leased {
          ReturnRetired(p, back, connectionClosed, id);
        } else {
          PlainRetired(p, p, id);
        }
      case Connected(arriving, serviceId) =>
        if arriving in p.pending {
          ConnectedRetired(p, arriving, serviceId, id);
        } else {
          PlainRetired(p, p, id);
        }
      case ConnectError(arriving) =>
        if arriving in p.pending {
          var freed := p.(permits := p.permits + 1, pending := p.pending - {arriving});
          PlainRetired(p, freed, id);
          FailRetired(p, freed, arriving, id);
        } else {
          PlainRetired(p, p, id);
        }
      case Tick(perished) =>
        if p.ticks > 0 {
          var q := p.(ticks := p.ticks - 1);
          PlainRetired(p, q, id);
          TickFollows(p, q, perished, id);
        } else {
          PlainRetired(p, p, id);
        }
      case _ => QuietRetired(p, e, id);
    }
  }

  lemma FailRetired(p: Pool, freed: Pool, arriving: nat, id: nat)
    requires arriving in p.pending && freed == p.(permits := p.permits + 1, pending := p.pending - {arriving})
    requires GoesAway(p, freed, id)
    ensures GoesAway(p, ConnectFails(p, arriving), id)
  {
    hide Lent, ServeWaiter, Retired;
    ServeRetired(freed, None, id);
    GoesOn(p, freed, ServeWaiter(freed, None), id);
  }

  lemma TickFollows(p: Pool, q: Pool, perished: set<nat>, id: nat)
    requires GoesAway(p, q, id)
    ensures GoesAway(p, ProcessWaitQueue(q, perished), id)
  {
    hide Lent, Retired, ProcessWaitQueue;
    TickRetired(q, perished, id);
    GoesOn(p, q, ProcessWaitQueue(q, perished), id);
  }

  // ----- Runs -----

  predicate Inv(p: Pool)
  {
    && Connections(p) && Generations(p)
    && Answering(p.waitQueue, p.answers, p.nextWaiter) && Ordered(p.waitQueue, p.answers)
    && Accounted(p.checkedOut, p.waitQueue, |p.leased|, p.answers)
    && (p.closed ==> p.waitQueue == [])
  }

  lemma CreateInv(options: Options)
    requires Create(options).Ok?
    ensures Inv(Create(options).value)
  {
  }

  lemma StepInv(p: Pool, e: Event)
    requires Inv(p)
    ensures Inv(Step(p, e))
  {
    hide Connections, Generations, Answering, Ordered, Accounted, Step;
    ConnectionsKept(p, e);
    StepGenerations(p, e);
    StepAnswering(p, e);
    StepOrdered(p, e);
    StepAccounted(p, e);
    ClosedStaysEmpty(p, e);
  }

  lemma ClosedStaysEmpty(p: Pool, e: Event)
    requires p.closed ==> p.waitQueue == []
    ensures Step(p, e).closed ==> Step(p, e).waitQueue == []
    ensures p.closed ==> Step(p, e).closed
  {
    hide IsStale, CurrentGeneration;
    if e.MinPoolSizeTimer? {
      ConnectsOnly(p);
    }
    if e.Tick? && p.ticks > 0 {
      DispatchOpen(p.(ticks := p.ticks - 1), e.perished);
    }
  }

  lemma {:induction false} DispatchOpen(p: Pool, perished: set<nat>)
    ensures Dispatch(p, perished).closed == p.closed
    decreases |p.waitQueue| + |p.connections|
  {
    if p.waitQueue != [] {
      if p.waitQueue[0].cancelled {
        DispatchOpen(p.(waitQueue := p.waitQueue[1..]), perished);
      } else if p.connections != [] {
        var c, w := p.connections[0], p.waitQueue[0];
        if !IsStale(p, c) && c.id !in perished {
          DispatchOpen(p.(connections := p.connections[1..], waitQueue := p.waitQueue[1..],
                          leased := p.leased[c.id := c],
                          answers := p.answers + [Answer(w.id, Granted(c.id))]), perished);
        } else {
          DispatchOpen(p.(connections := p.connections[1..], permits := p.permits + 1), perished);
        }
      }
    }
  }

  lemma {:induction false} RunInv(p: Pool, events: seq<Event>)
    requires Inv(p)
    ensures Inv(Run(p, events))
    decreases |events|
  {
    hide Inv, Step;
    if events != [] {
      StepInv(p, events[0]);
      RunInv(Step(p, events[0]), events[1..]);
    }
  }

  // ----- Main results -----

  // An open pool never holds more connections than its maximum, in flight, idle and on loan
  // together, and its permits are exactly what is left; one connect for the wait queue is in
  // flight exactly while the dispatcher's flag is set.
  lemma WithinCapacity(options: Options, events: seq<Event>)
    requires Create(options).Ok?
    ensures var p := Run(Create(options).value, events);
      !p.closed ==>
        && |p.pending| + |p.connections| + |p.leased| == p.options.maxPoolSize - p.permits
        && (p.options.maxPoolSize > 0 ==> |p.pending| + |p.connections| + |p.leased| <= p.options.maxPoolSize)
        && TotalConnectionCount(p) == |p.pending| + 2 * |p.connections| + |p.leased|
        && (p.processing <==> exists id :: id in p.pending && p.pending[id].forWaiter)
        && (forall id, id' :: id in p.pending && id' in p.pending && p.pending[id].forWaiter && p.pending[id'].forWaiter
                              ==> id == id')
  {
    hide Run, Apart, Generations, Answering, Ordered, Accounted;
    CreateInv(options);
    RunInv(Create(options).value, events);
  }

  // Every check-out is answered at most once, in every state; it has no answer only while it
  // waits in the queue; once the pool is closed it has exactly one. Grants follow arrival.
  lemma AnsweredOnceInOrder(options: Options, events: seq<Event>)
    requires Create(options).Ok?
    ensures var p := Run(Create(options).value, events);
      && (forall i, j :: 0 <= i < j < |p.answers| ==> p.answers[i].waiter != p.answers[j].waiter)
      && (forall id :: 0 <= id < p.nextWaiter ==>
            (id !in AnsweredIds(p.answers) <==>
               exists i :: 0 <= i < |p.waitQueue| && p.waitQueue[i].id == id && !p.waitQueue[i].cancelled))
      && (p.closed ==> forall id :: 0 <= id < p.nextWaiter ==> id in AnsweredIds(p.answers))
      && (forall i, j :: 0 <= i < j < |Grants(p.answers)| ==> Grants(p.answers)[i] < Grants(p.answers)[j])
  {
    hide Run, Connections, Generations, Accounted, Grants, AnsweredIds;
    CreateInv(options);
    RunInv(Create(options).value, events);
    var p := Run(Create(options).value, events);
    forall id | 0 <= id < p.nextWaiter && id !in AnsweredIds(p.answers)
      ensures exists i :: 0 <= i < |p.waitQueue| && p.waitQueue[i].id == id && !p.waitQueue[i].cancelled
    {
      var i :| 0 <= i < |p.waitQueue| && p.waitQueue[i].id == id;
      assert !p.waitQueue[i].cancelled;
    }
  }

  // currentCheckedOutCount is what is queued and on loan, plus one for every waiter that ever
  // left the queue without a connection.
  lemma CheckedOutCount(options: Options, events: seq<Event>)
    requires Create(options).Ok?
    ensures var p := Run(Create(options).value, events);
      p.checkedOut == |p.waitQueue| + |p.leased| + (Failures(p.answers) - Cancelled(p.waitQueue))
  {
    hide Run, Connections, Generations, Answering, Ordered, Failures, Cancelled;
    CreateInv(options);
    RunInv(Create(options).value, events);
  }

  // Clearing retires every connection it applies to that is idle or on loan.
  predicate Clears(p: Pool, serviceId: Option<nat>, c: Conn)
  {
    if p.options.loadBalanced && c.serviceId.Some? then
      serviceId == c.serviceId && c.serviceId.value in p.serviceGenerations
    else !(p.options.loadBalanced && serviceId.Some?)
  }

  lemma ClearRetires(p: Pool, serviceId: Option<nat>, c: Conn)
    requires Connections(p) && Generations(p) && Clears(p, serviceId, c)
    requires c in p.connections || (c.id in p.leased && p.leased[c.id] == c)
    ensures Retired(Clear(p, serviceId), c.id)
  {
  }

  lemma {:induction false} RunRetired(p: Pool, events: seq<Event>, id: nat)
    requires Inv(p) && Retired(p, id)
    ensures GoesAway(p, Run(p, events), id)
    decreases |events|
  {
    hide Inv, Step, Lent, Retired;
    if events == [] {
      RetiredKnown(p, id);
    } else {
      StepInv(p, events[0]);
      InvParts(p);
      StepRetired(p, events[0], id);
      RunRetired(Step(p, events[0]), events[1..], id);
      GoesOn(p, Step(p, events[0]), Run(p, events), id);
    }
  }

  lemma InvParts(p: Pool)
    requires Inv(p)
    ensures Connections(p) && Generations(p)
  {
  }

  // A connection that is idle or on loan when its service or the pool is cleared is never
  // granted again, by any later run; idle it never goes out, and on loan it never comes back.
  lemma NeverLentAgain(options: Options, before: seq<Event>, serviceId: Option<nat>, c: Conn, after: seq<Event>)
    requires Create(options).Ok?
    requires var p := Run(Create(options).value, before);
      Clears(p, serviceId, c) && (c in p.connections || (c.id in p.leased && p.leased[c.id] == c))
    ensures var p := Run(Create(options).value, before);
      var q := Run(Clear(p, serviceId), after);
      && Lent(q.answers, c.id) == Lent(p.answers, c.id)
      && (Idle(q, c.id) ==> Idle(p, c.id))
      && (c.id in q.leased ==> c.id in p.leased)
  {
    hide Run, Inv, Retired, Lent;
    CreateInv(options);
    RunInv(Create(options).value, before);
    var p := Run(Create(options).value, before);
    InvParts(p);
    ClearRetires(p, serviceId, c);
    ClearInv(p, serviceId);
    RunRetired(Clear(p, serviceId), after, c.id);
  }

  lemma ClearInv(p: Pool, serviceId: Option<nat>)
    requires Inv(p)
    ensures Inv(Clear(p, serviceId))
  {
    hide Inv;
    StepInv(p, ClearCall(serviceId));
  }
}
