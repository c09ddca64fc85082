/**
 Who is answered with what, and where each connection goes: the answers of every turn as a
 function of the turn and of who waits, and the fate of new, returned and idle connections.
 */
module ConnectionPoolAnswers {
  import opened Wrappers
  import opened ConnectionPools
  import opened ConnectionPoolRuns
  import opened ConnectionPoolWaiters
  import opened ConnectionPoolResults

  // ----- The answers that are due -----

  // The waiters who have not given up, in order of arrival.
  function LiveIds(queue: seq<Waiter>): seq<nat>
  {
    if queue == [] then []
    else (if queue[0].cancelled then [] else [queue[0].id]) + LiveIds(queue[1..])
  }

  // The idle connections that are of the current generation and in good health.
  function Usable(p: Pool, idle: seq<Conn>, perished: set<nat>): seq<nat>
  {
    if idle == [] then []
    else (if Outworn(p, idle[0], perished) then [] else [idle[0].id]) + Usable(p, idle[1..], perished)
  }

  predicate Outworn(p: Pool, c: Conn, perished: set<nat>)
  {
    c.id in perished || CurrentGeneration(p, c) != Some(c.generation)
  }

  // The first waiter gets the first connection, and so on, while there are both.
  function Paired(waiters: seq<nat>, conns: seq<nat>): seq<Answer>
    decreases |waiters|
  {
    if waiters == [] || conns == [] then []
    else [Answer(waiters[0], Granted(conns[0]))] + Paired(waiters[1..], conns[1..])
  }

  // The waiters who are sent away when the pool closes, the last one first.
  function SentAway(waiters: seq<nat>): seq<Answer>
    decreases |waiters|
  {
    if waiters == [] then []
    else [Answer(waiters[|waiters| - 1], Drained)] + SentAway(waiters[..|waiters| - 1])
  }

  // The waiter that the queue's own connect would serve now.
  function InFront(p: Pool, id: nat): Option<nat>
  {
    if id in p.pending && p.pending[id].forWaiter && p.waitQueue != [] && !p.waitQueue[0].cancelled
    then Some(p.waitQueue[0].id) else None
  }

  function Due(p: Pool, e: Event): seq<Answer>
  {
    match e
    case CheckOutCall => if p.closed then [Answer(p.nextWaiter, PoolClosed)] else []
    case TimerFires(i) =>
      if i < |p.waitQueue| && p.waitQueue[i].timed && !p.waitQueue[i].cancelled
      then [Answer(p.waitQueue[i].id, TimedOut)] else []
    case Connected(id, _) =>
      if !p.closed && InFront(p, id).Some? then [Answer(InFront(p, id).value, Granted(id))] else []
    case ConnectError(id) => if InFront(p, id).Some? then [Answer(InFront(p, id).value, ConnectFailed)] else []
    case CloseCall => if p.closed then [] else SentAway(LiveIds(p.waitQueue))
    case Tick(perished) =>
      if p.ticks == 0 || p.closed || p.processing then []
      else Paired(LiveIds(p.waitQueue), Usable(p, p.connections, perished))
    case _ => []
  }

  lemma {:induction false} UsableSame(p: Pool, q: Pool, idle: seq<Conn>, perished: set<nat>)
    requires q.options == p.options && q.generation == p.generation && q.serviceGenerations == p.serviceGenerations
    ensures Usable(q, idle, perished) == Usable(p, idle, perished)
  {
    if idle != [] {
      UsableSame(p, q, idle[1..], perished);
    }
  }

  lemma {:induction false} DispatchPairs(p: Pool, perished: set<nat>)
    ensures Dispatch(p, perished).answers
         == p.answers + Paired(LiveIds(p.waitQueue), Usable(p, p.connections, perished))
    decreases |p.waitQueue| + |p.connections|
  {
    hide IsStale, CurrentGeneration;
    if p.waitQueue != [] {
      if p.waitQueue[0].cancelled {
        var q := p.(waitQueue := p.waitQueue[1..]);
        DispatchPairs(q, perished);
        UsableSame(p, q, p.connections, perished);
        assert LiveIds(p.waitQueue) == [] + LiveIds(p.waitQueue[1..]) == LiveIds(p.waitQueue[1..]);
      } else if p.connections != [] {
        OfferPairs(p, perished);
      }
    }
  }

  lemma {:induction false} OfferPairs(p: Pool, perished: set<nat>)
    requires p.waitQueue != [] && !p.waitQueue[0].cancelled && p.connections != []
    ensures Dispatch(p, perished).answers
         == p.answers + Paired(LiveIds(p.waitQueue), Usable(p, p.connections, perished))
    decreases |p.waitQueue| + |p.connections|, 0
  {
    hide CurrentGeneration, LiveIds, Usable, Paired;
    var c, w := p.connections[0], p.waitQueue[0];
    var waiters, conns := LiveIds(p.waitQueue[1..]), Usable(p, p.connections[1..], perished);
    LiveTakes(p.waitQueue);
    if !IsStale(p, c) && c.id !in perished {
      var now := Answer(w.id, Granted(c.id));
      var q := p.(connections := p.connections[1..], waitQueue := p.waitQueue[1..],
                  leased := p.leased[c.id := c], answers := p.answers + [now]);
      DispatchPairs(q, perished);
      UsableSame(p, q, p.connections[1..], perished);
      UsableTakes(p, perished);
      PairedTakes(w.id, waiters, c.id, conns);
      assert p.answers + [now] + Paired(waiters, conns) == p.answers + ([now] + Paired(waiters, conns));
    } else {
      var q := p.(connections := p.connections[1..], permits := p.permits + 1);
      DispatchPairs(q, perished);
      UsableSame(p, q, p.connections[1..], perished);
      UsableSkips(p, perished);
    }
  }

  lemma LiveTakes(queue: seq<Waiter>)
    requires queue != [] && !queue[0].cancelled
    ensures LiveIds(queue) == [queue[0].id] + LiveIds(queue[1..])
  {
  }

  lemma LiveSkips(queue: seq<Waiter>)
    requires queue != [] && queue[0].cancelled
    ensures LiveIds(queue) == LiveIds(queue[1..])
  {
  }

  lemma UsableTakes(p: Pool, perished: set<nat>)
    requires p.connections != [] && !Outworn(p, p.connections[0], perished)
    ensures Usable(p, p.connections, perished) == [p.connections[0].id] + Usable(p, p.connections[1..], perished)
  {
  }

  lemma UsableSkips(p: Pool, perished: set<nat>)
    requires p.connections != [] && Outworn(p, p.connections[0], perished)
    ensures Usable(p, p.connections, perished) == Usable(p, p.connections[1..], perished)
  {
  }

  lemma PairedTakes(w: nat, waiters: seq<nat>, c: nat, conns: seq<nat>)
    ensures Paired([w] + waiters, [c] + conns) == [Answer(w, Granted(c))] + Paired(waiters, conns)
  {
    assert ([w] + waiters)[1..] == waiters && ([c] + conns)[1..] == conns;
  }

  lemma {:induction false} LiveSnoc(queue: seq<Waiter>, w: Waiter)
    ensures LiveIds(queue + [w]) == LiveIds(queue) + (if w.cancelled then [] else [w.id])
  {
    if queue == [] {
      assert [] + [w] == [w] && [w][1..] == [];
    } else {
      assert (queue + [w])[1..] == queue[1..] + [w];
      LiveSnoc(queue[1..], w);
    }
  }

  lemma {:induction false} DrainSendsAway(queue: seq<Waiter>)
    ensures DrainAnswers(queue) == SentAway(LiveIds(queue))
    decreases |queue|
  {
    if queue != [] {
      var rest, last := queue[..|queue| - 1], queue[|queue| - 1];
      assert queue == rest + [last];
      LiveSnoc(rest, last);
      DrainSendsAway(rest);
      if last.cancelled {
        assert LiveIds(queue) == LiveIds(rest) + [] == LiveIds(rest);
      } else {
        assert LiveIds(queue)[..|LiveIds(queue)| - 1] == LiveIds(rest);
      }
    }
  }

  // Every turn answers exactly those who are due, and nobody else.
  lemma AnswersDue(p: Pool, e: Event)
    ensures Step(p, e).answers == p.answers + Due(p, e)
  {
    hide Dispatch, DrainAnswers, LiveIds, Usable, SentAway, Paired, Arrive, IsStale, CurrentGeneration, StartConnects;
    match e {
      case Tick(perished) =>
        if p.ticks > 0 {
          var q := p.(ticks := p.ticks - 1);
          DispatchPairs(q, perished);
          UsableSame(p, q, p.connections, perished);
        }
      case CloseCall => DrainSendsAway(p.waitQueue);
      case MinPoolSizeTimer => ConnectsOnly(p);
      case _ =>
    }
  }

  // So whatever anybody was ever answered was due at some turn of the run.
  lemma {:induction false} AnsweredWhenDue(p: Pool, events: seq<Event>, a: Answer)
    requires a in Run(p, events).answers && a !in p.answers
    ensures exists k :: 0 <= k < |events| && a in Due(Run(p, events[..k]), events[k])
    decreases |events|
  {
    hide Step, Due;
    if events != [] {
      var q := Step(p, events[0]);
      AnswersDue(p, events[0]);
      if a in q.answers {
        assert events[..0] == [];
      } else {
        AnsweredWhenDue(q, events[1..], a);
        var k :| 0 <= k < |events[1..]| && a in Due(Run(q, events[1..][..k]), events[1..][k]);
        assert events[..k + 1][1..] == events[1..][..k] && events[..k + 1][0] == events[0];
        assert a in Due(Run(p, events[..k + 1]), events[k + 1]);
      }
    }
  }

  lemma {:induction false} PairedGrants(waiters: seq<nat>, conns: seq<nat>)
    ensures forall a :: a in Paired(waiters, conns) ==>
      a.outcome.Granted? && a.waiter in waiters && a.outcome.conn in conns
    decreases |waiters|
  {
    if waiters != [] && conns != [] {
      PairedGrants(waiters[1..], conns[1..]);
    }
  }

  lemma {:induction false} SentAwayDrains(waiters: seq<nat>)
    ensures forall a :: a in SentAway(waiters) ==> a.outcome == Drained && a.waiter in waiters
    decreases |waiters|
  {
    if waiters != [] {
      SentAwayDrains(waiters[..|waiters| - 1]);
    }
  }

  // In every run a waiter hears of a failed connect only from the failure of the queue's own
  // connect while it is in front, and of a connection only from a connect that came through or
  // from a run of the wait queue.
  lemma AnswersHaveCause(options: Options, events: seq<Event>, a: Answer)
    requires Create(options).Ok? && a in Run(Create(options).value, events).answers
    ensures exists k :: 0 <= k < |events| && Caused(Run(Create(options).value, events[..k]), events[k], a)
  {
    hide Run, Due, Caused;
    var p := Create(options).value;
    AnsweredWhenDue(p, events, a);
    var k :| 0 <= k < |events| && a in Due(Run(p, events[..k]), events[k]);
    DueIsCaused(Run(p, events[..k]), events[k], a);
  }

  predicate Caused(p: Pool, e: Event, a: Answer)
  {
    match a.outcome
    case ConnectFailed => e.ConnectError? && InFront(p, e.id) == Some(a.waiter)
    case Granted(conn) =>
      || (e.Connected? && e.id == conn && !p.closed && InFront(p, conn) == Some(a.waiter))
      || (e.Tick? && a.waiter in LiveIds(p.waitQueue) && conn in Usable(p, p.connections, e.perished))
    case TimedOut => e.TimerFires? && e.i < |p.waitQueue| && p.waitQueue[e.i].id == a.waiter && p.waitQueue[e.i].timed
    case Drained => e.CloseCall? && a.waiter in LiveIds(p.waitQueue)
    case PoolClosed => e.CheckOutCall? && p.closed && a.waiter == p.nextWaiter
  }

  lemma DueIsCaused(p: Pool, e: Event, a: Answer)
    requires a in Due(p, e)
    ensures Caused(p, e, a)
  {
    hide LiveIds, Usable, Paired, SentAway;
    match e {
      case Tick(perished) => PairedGrants(LiveIds(p.waitQueue), Usable(p, p.connections, perished));
      case CloseCall => SentAwayDrains(LiveIds(p.waitQueue));
      case _ =>
    }
  }

  // A pool is refused exactly when its minimum is above its maximum; a new one has nothing but
  // its permits.
  lemma CreateDecides(options: Options)
    ensures Create(options).Ok? <==> options.minPoolSize <= options.maxPoolSize
    ensures Create(options).Ok? ==>
      var p := Create(options).value;
      && p.options == options && !p.closed && !p.processing && p.permits == options.maxPoolSize
      && p.connections == [] && p.waitQueue == [] && p.pending == map[] && p.leased == map[] && p.answers == []
      && TotalConnectionCount(p) == 0 && p.checkedOut == 0 && p.ticks == 0
  {
  }

  // A check-out has its timer exactly when a timeout is configured, and the timer ends its wait.
  lemma WaiterTimesOut(p: Pool)
    requires !p.closed
    ensures var q, n := Step(p, CheckOutCall), |p.waitQueue|;
      var r := Step(q, TimerFires(n));
      && |q.waitQueue| == n + 1 && q.waitQueue[..n] == p.waitQueue && q.checkedOut == p.checkedOut + 1
      && q.ticks == p.ticks + 1 && LiveIds(q.waitQueue) == LiveIds(p.waitQueue) + [p.nextWaiter]
      && r.answers == p.answers + (if p.options.waitQueueTimeout then [Answer(p.nextWaiter, TimedOut)] else [])
      && (p.options.waitQueueTimeout ==> LiveIds(r.waitQueue) == LiveIds(p.waitQueue))
  {
    hide LiveIds;
    var q, n := Step(p, CheckOutCall), |p.waitQueue|;
    LiveSnoc(p.waitQueue, q.waitQueue[n]);
    var r := Step(q, TimerFires(n));
    if p.options.waitQueueTimeout {
      assert r.waitQueue == p.waitQueue + [Waiter(p.nextWaiter, false, true)];
      LiveSnoc(p.waitQueue, Waiter(p.nextWaiter, false, true));
      assert LiveIds(p.waitQueue) + [] == LiveIds(p.waitQueue);
    }
  }

  // ----- Where a connection goes -----

  // The connection of a connect: of the generation the connect began in, or of the current one
  // of its service.
  predicate Born(p: Pool, q: Pool, id: nat, serviceId: Option<nat>, c: Conn)
    requires id in p.pending
  {
    && c.id == id && c.serviceId == serviceId
    && if p.options.loadBalanced && serviceId.Some? then
         && serviceId.value in q.serviceGenerations && c.generation == q.serviceGenerations[serviceId.value]
         && c.generation == (if serviceId.value in p.serviceGenerations
                             then p.serviceGenerations[serviceId.value] else 0)
       else c.generation == p.pending[id].generation && q.serviceGenerations == p.serviceGenerations
  }

  // The queue's connect comes through while a waiter is in front: exactly this waiter is
  // answered, with exactly this connection, which is on loan from then on; and the queue is
  // looked at again.
  lemma ConnectGrants(p: Pool, id: nat, serviceId: Option<nat>)
    requires !p.closed && InFront(p, id).Some?
    ensures var q := Step(p, Connected(id, serviceId));
      && q.answers == p.answers + [Answer(InFront(p, id).value, Granted(id))]
      && id in q.leased && q.leased == p.leased[id := q.leased[id]] && Born(p, q, id, serviceId, q.leased[id])
      && q.connections == p.connections && q.waitQueue == p.waitQueue[1..] && q.pending == p.pending - {id}
      && q.permits == p.permits && !q.processing && q.ticks == p.ticks + 1
  {
  }

  // With nobody to serve, the connection joins the idle ones and nobody is answered. The
  // queue is looked at again only when the connect was not the queue's own.
  lemma ConnectGoesIdle(p: Pool, id: nat, serviceId: Option<nat>)
    requires !p.closed && id in p.pending && InFront(p, id).None?
    ensures var q, n := Step(p, Connected(id, serviceId)), |p.connections|;
      && q.answers == p.answers && q.leased == p.leased && q.pending == p.pending - {id} && q.permits == p.permits
      && |q.connections| == n + 1 && q.connections[..n] == p.connections && Born(p, q, id, serviceId, q.connections[n])
      && q.ticks == (if p.pending[id].forWaiter then p.ticks else p.ticks + 1)
      && (p.pending[id].forWaiter ==> !q.processing)
  {
  }

  // A failed connect gives its permit back and brings no connection.
  lemma ConnectFailsFrees(p: Pool, id: nat)
    requires id in p.pending
    ensures var q := Step(p, ConnectError(id));
      && q.permits == p.permits + 1 && q.pending == p.pending - {id}
      && q.connections == p.connections && q.leased == p.leased
      && (p.pending[id].forWaiter ==> !q.processing)
      && q.ticks == (if InFront(p, id).Some? then p.ticks + 1 else p.ticks)
  {
  }

  // A connection given back is idle again, in front of the others, exactly when the pool is
  // open, the connection too, and its generation is the current one; otherwise its permit is free.
  lemma ReturnDecides(p: Pool, id: nat, connectionClosed: bool)
    requires Connections(p) && id in p.leased
    ensures var q, c := Step(p, Return(id, connectionClosed)), p.leased[id];
      var healthy := !p.closed && !connectionClosed && CurrentGeneration(p, c) == Some(c.generation);
      && (Idle(q, id) <==> healthy)
      && q.connections == (if healthy then [c] else []) + p.connections
      && q.permits == (if healthy then p.permits else p.permits + 1)
      && q.leased == p.leased - {id} && q.checkedOut == p.checkedOut - 1 && q.ticks == p.ticks + 1
      && q.answers == p.answers
  {
    var q := Step(p, Return(id, connectionClosed));
    ReturnDistinct(p, id);
    if q.connections != p.connections {
      assert q.connections[0].id == id;
    }
  }

  // A run of the wait queue loses no usable connection: each is idle still or on loan.
  lemma {:induction false} DispatchLosesNone(p: Pool, perished: set<nat>, c: Conn)
    requires Distinct(p) && Capacity(p)
    requires c in p.connections && !Outworn(p, c, perished)
    ensures var d := Dispatch(p, perished);
      c in d.connections || (c.id in d.leased && d.leased[c.id] == c)
    decreases |p.waitQueue| + |p.connections|
  {
    hide Apart, Capacity;
    if p.waitQueue != [] {
      if p.waitQueue[0].cancelled {
        WaitersOnly(p, p.waitQueue[1..]);
        DispatchLosesNone(p.(waitQueue := p.waitQueue[1..]), perished, c);
      } else if p.connections != [] {
        var c0, w := p.connections[0], p.waitQueue[0];
        assert c == c0 || c in p.connections[1..];
        if !IsStale(p, c0) && c0.id !in perished {
          var q := p.(connections := p.connections[1..], waitQueue := p.waitQueue[1..],
                      leased := p.leased[c0.id := c0], answers := p.answers + [Answer(w.id, Granted(c0.id))]);
          GrantKeeps(p);
          if c == c0 {
            LeasedStays(q, perished, c);
          } else {
            DispatchLosesNone(q, perished, c);
          }
        } else {
          DestroyKeeps(p);
          DispatchLosesNone(p.(connections := p.connections[1..], permits := p.permits + 1), perished, c);
        }
      }
    }
  }

  // Nobody else gets a connection that is on loan.
  lemma {:induction false} LeasedStays(p: Pool, perished: set<nat>, c: Conn)
    requires Distinct(p) && Capacity(p) && c.id in p.leased && p.leased[c.id] == c
    ensures var d := Dispatch(p, perished);
      c.id in d.leased && d.leased[c.id] == c
    decreases |p.waitQueue| + |p.connections|
  {
    hide Apart, Capacity, IsStale;
    if p.waitQueue != [] {
      if p.waitQueue[0].cancelled {
        WaitersOnly(p, p.waitQueue[1..]);
        LeasedStays(p.(waitQueue := p.waitQueue[1..]), perished, c);
      } else if p.connections != [] {
        var c0, w := p.connections[0], p.waitQueue[0];
        if !IsStale(p, c0) && c0.id !in perished {
          GrantKeeps(p);
          IdleIsFree(p);
          LeasedStays(p.(connections := p.connections[1..], waitQueue := p.waitQueue[1..],
                         leased := p.leased[c0.id := c0],
                         answers := p.answers + [Answer(w.id, Granted(c0.id))]), perished, c);
        } else {
          DestroyKeeps(p);
          LeasedStays(p.(connections := p.connections[1..], permits := p.permits + 1), perished, c);
        }
      }
    }
  }

  lemma IdleIsFree(p: Pool)
    requires Distinct(p) && p.connections != []
    ensures p.connections[0].id !in p.leased
  {
  }

  // What goes on loan in a run of the wait queue is what is granted.
  lemma {:induction false} DispatchLends(p: Pool, perished: set<nat>)
    ensures var d := Dispatch(p, perished);
      forall id :: id in d.leased <==>
        id in p.leased || id in Lendings(Paired(LiveIds(p.waitQueue), Usable(p, p.connections, perished)))
    decreases |p.waitQueue| + |p.connections|
  {
    hide CurrentGeneration, LiveIds, Usable, Paired, Lendings;
    if p.waitQueue == [] || (!p.waitQueue[0].cancelled && p.connections == []) {
      NothingPaired(p, perished);
    } else if p.waitQueue[0].cancelled {
      var q := p.(waitQueue := p.waitQueue[1..]);
      DispatchLends(q, perished);
      UsableSame(p, q, p.connections, perished);
      LiveSkips(p.waitQueue);
    } else {
      var c, w := p.connections[0], p.waitQueue[0];
      if !IsStale(p, c) && c.id !in perished {
        var q := p.(connections := p.connections[1..], waitQueue := p.waitQueue[1..],
                    leased := p.leased[c.id := c], answers := p.answers + [Answer(w.id, Granted(c.id))]);
        DispatchLends(q, perished);
        UsableSame(p, q, p.connections[1..], perished);
        PairsFirst(p, perished);
      } else {
        var q := p.(connections := p.connections[1..], permits := p.permits + 1);
        DispatchLends(q, perished);
        UsableSame(p, q, p.connections[1..], perished);
        UsableSkips(p, perished);
      }
    }
  }

  function Lendings(answers: seq<Answer>): set<nat>
  {
    set a | a in answers && a.outcome.Granted? :: a.outcome.conn
  }

  lemma NothingPaired(p: Pool, perished: set<nat>)
    requires p.waitQueue == [] || p.connections == []
    ensures Lendings(Paired(LiveIds(p.waitQueue), Usable(p, p.connections, perished))) == {}
  {
  }

  lemma PairsFirst(p: Pool, perished: set<nat>)
    requires p.waitQueue != [] && !p.waitQueue[0].cancelled
    requires p.connections != [] && !Outworn(p, p.connections[0], perished)
    ensures Lendings(Paired(LiveIds(p.waitQueue), Usable(p, p.connections, perished)))
         == {p.connections[0].id}
            + Lendings(Paired(LiveIds(p.waitQueue[1..]), Usable(p, p.connections[1..], perished)))
  {
    var w, c := p.waitQueue[0].id, p.connections[0].id;
    var waiters, conns := LiveIds(p.waitQueue[1..]), Usable(p, p.connections[1..], perished);
    LiveTakes(p.waitQueue);
    UsableTakes(p, perished);
    PairedTakes(w, waiters, c, conns);
    var now, rest := Answer(w, Granted(c)), Paired(waiters, conns);
    var all := [now] + rest;
    assert all[0] == now && forall a :: a in all <==> a == now || a in rest;
  }

  // So a turn of the dispatcher in an open pool lends exactly the connections it grants, and
  // every usable connection it does not lend is idle still.
  lemma TickLends(p: Pool, perished: set<nat>)
    requires Connections(p) && !p.closed && !p.processing && p.ticks > 0
    ensures var q, granted := Step(p, Tick(perished)), Lendings(Due(p, Tick(perished)));
      && (forall id :: id in q.leased <==> id in p.leased || id in granted)
      && (forall c :: c in p.connections && !Outworn(p, c, perished) ==>
            c in q.connections || (c.id in granted && c.id in q.leased && q.leased[c.id] == c))
  {
    hide Dispatch, LiveIds, Usable, Paired, Lendings, Apart, Capacity, OneDispatcher, CurrentGeneration;
    var r := p.(ticks := p.ticks - 1);
    QueueOnly(p, r);
    DispatchLends(r, perished);
    UsableSame(p, r, p.connections, perished);
    forall c | c in p.connections && !Outworn(p, c, perished)
      ensures var q := Step(p, Tick(perished));
        c in q.connections || (c.id in Lendings(Due(p, Tick(perished))) && c.id in q.leased && q.leased[c.id] == c)
    {
      SameOutworn(p, r, c, perished);
      DispatchLosesNone(r, perished, c);
      NotOnLoan(p, c);
    }
  }

  lemma SameOutworn(p: Pool, q: Pool, c: Conn, perished: set<nat>)
    requires q.options == p.options && q.generation == p.generation && q.serviceGenerations == p.serviceGenerations
    ensures Outworn(q, c, perished) == Outworn(p, c, perished)
  {
  }

  lemma NotOnLoan(p: Pool, c: Conn)
    requires Connections(p) && c in p.connections
    ensures c.id !in p.leased
  {
  }

  // ----- New connects -----

  // The timer starts as many connects as the minimum is above the computed total, none of them
  // for a waiter, and changes nothing else.
  lemma MinimumReached(p: Pool)
    requires Connections(p) && !p.closed
    ensures var q, total, min := Step(p, MinPoolSizeTimer), TotalConnectionCount(p), p.options.minPoolSize;
      var count := if min > total then min - total else 0;
      && TotalConnectionCount(q) == (if min > total then min else total)
      && q.nextConn == p.nextConn + count
      && (forall id :: id in q.pending <==> id in p.pending || p.nextConn <= id < q.nextConn)
      && (forall id :: id in p.pending ==> q.pending[id] == p.pending[id])
      && (forall id :: p.nextConn <= id < q.nextConn ==> q.pending[id] == Pending(p.generation, false))
      && q.(permits := p.permits, nextConn := p.nextConn, pending := p.pending) == p
  {
    hide Apart, Capacity, OneDispatcher;
    PendingOld(p);
    if p.options.minPoolSize > TotalConnectionCount(p) {
      StartsBegin(p, p.options.minPoolSize - TotalConnectionCount(p));
    }
  }

  lemma PendingOld(p: Pool)
    requires Connections(p)
    ensures TotalConnectionCount(p) >= 0 || p.closed
    ensures forall id :: id in p.pending ==> id < p.nextConn
  {
  }

  lemma {:induction false} StartsBegin(p: Pool, count: nat)
    requires forall id :: id in p.pending ==> id < p.nextConn
    ensures var q := StartConnects(p, count);
      && q.nextConn == p.nextConn + count && q.permits == p.permits - count
      && (forall id :: id in q.pending <==> id in p.pending || p.nextConn <= id < q.nextConn)
      && (forall id :: id in p.pending ==> q.pending[id] == p.pending[id])
      && (forall id :: p.nextConn <= id < q.nextConn ==> q.pending[id] == Pending(p.generation, false))
      && q.(permits := p.permits, nextConn := p.nextConn, pending := p.pending) == p
    decreases count
  {
    if count > 0 {
      StartsBegin(p, count - 1);
    }
  }

  // A turn of the dispatcher starts at most one connect, of the current generation, and only
  // when somebody waits and no idle connection is left for them.
  lemma TickConnects(p: Pool, perished: set<nat>)
    requires Connections(p)
    ensures var q := Step(p, Tick(perished));
      && (q.pending == p.pending || q.pending == p.pending[p.nextConn := Pending(p.generation, true)])
      && (q.pending != p.pending ==>
            !p.processing && q.processing && q.connections == [] && LiveIds(q.waitQueue) != [])
  {
    hide Dispatch, Apart, Capacity, OneDispatcher;
    if p.ticks > 0 && !p.closed && !p.processing {
      var r := p.(ticks := p.ticks - 1);
      QueueOnly(p, r);
      DispatchKeeps(r, perished);
      DispatchEnds(r, perished);
    }
  }

  lemma {:induction false} DispatchEnds(p: Pool, perished: set<nat>)
    ensures var d := Dispatch(p, perished);
      d.waitQueue == [] || (!d.waitQueue[0].cancelled && d.connections == [])
    decreases |p.waitQueue| + |p.connections|
  {
    if p.waitQueue != [] {
      if p.waitQueue[0].cancelled {
        DispatchEnds(p.(waitQueue := p.waitQueue[1..]), perished);
      } else if p.connections != [] {
        var c, w := p.connections[0], p.waitQueue[0];
        if !IsStale(p, c) && c.id !in perished {
          DispatchEnds(p.(connections := p.connections[1..], waitQueue := p.waitQueue[1..],
                          leased := p.leased[c.id := c],
                          answers := p.answers + [Answer(w.id, Granted(c.id))]), perished);
        } else {
          DispatchEnds(p.(connections := p.connections[1..], permits := p.permits + 1), perished);
        }
      }
    }
  }

  // ----- Clearing and closing -----

  // What a clear does not cover keeps its current generation; what it covers is one behind.
  lemma ClearSpares(p: Pool, serviceId: Option<nat>, c: Conn)
    requires CurrentGeneration(p, c).Some?
    ensures var q := Step(p, ClearCall(serviceId));
      CurrentGeneration(q, c) == Some(CurrentGeneration(p, c).value + (if Clears(p, serviceId, c) then 1 else 0))
  {
  }

  // A connect under way keeps the generation it began in.
  lemma PendingStays(p: Pool, e: Event, id: nat)
    requires Connections(p) && id < p.nextConn && id in Step(p, e).pending
    ensures id in p.pending && Step(p, e).pending[id] == p.pending[id]
  {
    hide Dispatch, ServeWaiter, LiveIds, IsStale, Arrive, Apart, Capacity, OneDispatcher;
    match e {
      case Tick(perished) => TickConnects(p, perished);
      case MinPoolSizeTimer => if !p.closed { MinimumReached(p); }
      case Connected(other, serviceId) => if other in p.pending { ServePending(p, other, serviceId); }
      case ConnectError(other) => if other in p.pending { ConnectFailsFrees(p, other); }
      case _ =>
    }
  }

  lemma IdsGrow(p: Pool, e: Event)
    requires Connections(p)
    ensures Step(p, e).nextConn >= p.nextConn
  {
    hide Dispatch, IsStale, Arrive, Apart, Capacity, OneDispatcher, ConnectSucceeds, ConnectFails;
    match e {
      case Connected(id, serviceId) => if id in p.pending { SameClock(p, id, serviceId); }
      case ConnectError(id) => if id in p.pending { ErrorKeepsIds(p, id); }
      case Tick(perished) =>
        if p.ticks > 0 {
          QueueOnly(p, p.(ticks := p.ticks - 1));
          DispatchKeeps(p.(ticks := p.ticks - 1), perished);
        }
      case MinPoolSizeTimer => if !p.closed { MinimumReached(p); }
      case _ =>
    }
  }

  lemma ServePending(p: Pool, id: nat, serviceId: Option<nat>)
    requires id in p.pending
    ensures Step(p, Connected(id, serviceId)).pending == p.pending - {id}
  {
    hide LiveIds;
  }

  lemma {:induction false} OldConnectStays(p: Pool, events: seq<Event>, id: nat)
    requires Inv(p) && id < p.nextConn && id in Run(p, events).pending
    ensures id in p.pending && Run(p, events).pending[id] == p.pending[id]
    ensures Run(p, events).generation >= p.generation && Run(p, events).options == p.options
    decreases |events|
  {
    hide Inv, Step, Newer;
    if events != [] {
      InvParts(p);
      StepInv(p, events[0]);
      StepGenerations(p, events[0]);
      NewerParts(p, Step(p, events[0]));
      IdsGrow(p, events[0]);
      OldConnectStays(Step(p, events[0]), events[1..], id);
      PendingStays(p, events[0], id);
    }
  }

  lemma NewerParts(p: Pool, q: Pool)
    requires Newer(p, q)
    ensures q.generation >= p.generation && q.options == p.options
  {
  }

  // A connection whose connect was under way when the pool was cleared may still serve the
  // waiter it was made for; after that it is never lent again.
  lemma ClearedWhileConnecting(p: Pool, id: nat, before: seq<Event>, serviceId: Option<nat>, after: seq<Event>)
    requires Inv(p) && !p.options.loadBalanced && id in p.pending
    requires id in Run(Clear(p, None), before).pending && !Run(Clear(p, None), before).closed
    ensures var r := Step(Run(Clear(p, None), before), Connected(id, serviceId));
      Retired(r, id) && GoesAway(r, Run(r, after), id)
  {
    hide Run, Inv, GoesAway, Retired;
    var q := Clear(p, None);
    InvParts(p);
    PendingOld(p);
    ClearInv(p, None);
    RunInv(q, before);
    OldConnectStays(q, before, id);
    var s := Run(q, before);
    OldPending(p, id);
    StepInv(s, Connected(id, serviceId));
    ArrivesRetired(s, id, serviceId);
    RunRetired(Step(s, Connected(id, serviceId)), after, id);
  }

  lemma OldPending(p: Pool, id: nat)
    requires Inv(p) && id in p.pending
    ensures id < p.nextConn && p.pending[id].generation <= p.generation
  {
  }

  lemma ArrivesRetired(p: Pool, id: nat, serviceId: Option<nat>)
    requires Inv(p) && !p.closed && id in p.pending
    requires !p.options.loadBalanced && p.pending[id].generation < p.generation
    ensures Retired(Step(p, Connected(id, serviceId)), id)
  {
    hide Generations, LiveIds, Step, Retired, Inv;
    InvParts(p);
    Landed(p, id);
    LentOthers(p, id);
    SameClock(p, id, serviceId);
    var q := Step(p, Connected(id, serviceId));
    if InFront(p, id).Some? {
      ConnectGrants(p, id, serviceId);
      LeasedOld(p, q, id);
    } else {
      ConnectGoesIdle(p, id, serviceId);
      IdleOld(p, q, id);
    }
  }

  lemma ErrorKeepsIds(p: Pool, id: nat)
    requires id in p.pending
    ensures Step(p, ConnectError(id)).nextConn == p.nextConn
  {
    hide LiveIds;
  }

  lemma SameClock(p: Pool, id: nat, serviceId: Option<nat>)
    requires id in p.pending
    ensures var q := Step(p, Connected(id, serviceId));
      q.generation == p.generation && q.options == p.options && q.nextConn == p.nextConn
  {
    hide LiveIds;
  }

  lemma LeasedOld(p: Pool, q: Pool, id: nat)
    requires id < q.nextConn && id !in q.pending && q.connections == p.connections
    requires id in q.leased && q.leased == p.leased[id := q.leased[id]] && Outdated(q, q.leased[id])
    requires forall i :: 0 <= i < |p.connections| ==> p.connections[i].id != id
    requires forall k :: k in p.leased && k != id ==> p.leased[k].id != id
    ensures Retired(q, id)
  {
    hide Outdated;
  }

  lemma IdleOld(p: Pool, q: Pool, id: nat)
    requires id < q.nextConn && id !in q.pending && q.leased == p.leased
    requires |q.connections| == |p.connections| + 1 && q.connections[..|p.connections|] == p.connections
    requires Outdated(q, q.connections[|p.connections|])
    requires forall i :: 0 <= i < |p.connections| ==> p.connections[i].id != id
    requires forall k :: k in p.leased ==> p.leased[k].id != id
    ensures Retired(q, id)
  {
    hide Outdated;
    forall i | 0 <= i < |p.connections|
      ensures q.connections[i].id != id
    {
      assert q.connections[..|p.connections|][i] == p.connections[i];
    }
  }

  lemma LentOthers(p: Pool, id: nat)
    requires Connections(p) && id in p.pending
    ensures forall k :: k in p.leased ==> p.leased[k].id != id
  {
  }

  // A closed pool lends nothing, starts nothing and takes nothing in; closing closes it and
  // its connections are destroyed.
  lemma ClosedIsOver(p: Pool, e: Event)
    requires p.closed && p.waitQueue == []
    ensures var q := Step(p, e);
      && q.closed && q.waitQueue == [] && q.nextConn == p.nextConn
      && (forall c :: c in q.connections ==> c in p.connections)
      && (forall id :: id in q.leased ==> id in p.leased)
      && (e.ConnectionsDestroyed? ==> q.connections == [])
      && q.answers == p.answers + (if e.CheckOutCall? then [Answer(p.nextWaiter, PoolClosed)] else [])
  {
  }

  lemma ClosingCloses(p: Pool)
    ensures var q := Step(p, CloseCall);
      q.closed && (!p.closed ==> q.waitQueue == []) && q.leased == p.leased && q.pending == p.pending
  {
  }
}
