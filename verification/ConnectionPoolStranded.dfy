/**
 Waiters left without service: an open pool with somebody waiting, an idle connection or room
 for one, and no run of the wait queue going on or scheduled. Which turns lead there, exactly.
 */
module ConnectionPoolStranded {
  import opened Wrappers
  import opened ConnectionPools
  import opened ConnectionPoolRuns
  import opened ConnectionPoolResults

  // Somebody who has not given up is in the queue.
  predicate Live(queue: seq<Waiter>)
  {
    exists i :: 0 <= i < |queue| && !queue[i].cancelled
  }

  predicate Room(p: Pool)
  {
    p.options.maxPoolSize == 0 || TotalConnectionCount(p) < p.options.maxPoolSize
  }

  // No run of the wait queue is going on or scheduled.
  predicate Quiet(p: Pool)
  {
    !p.closed && !p.processing && p.ticks == 0
  }

  predicate Stranded(p: Pool)
  {
    Quiet(p) && Live(p.waitQueue) && (p.connections != [] || Room(p))
  }

  // The queue's own connect comes back, whatever became of it, and finds that the waiter in
  // front has given up, while another one waits behind.
  predicate FindsCancelled(p: Pool, id: nat)
  {
    && id in p.pending && p.pending[id].forWaiter
    && p.waitQueue != [] && p.waitQueue[0].cancelled && Live(p.waitQueue[1..])
  }

  // A connect for the minimum size fails and its permit comes back, while somebody waits.
  predicate FreesRoom(p: Pool, id: nat)
  {
    id in p.pending && !p.pending[id].forWaiter && !p.processing && Live(p.waitQueue)
  }

  predicate StrandingTurn(p: Pool, e: Event)
  {
    !p.closed && p.ticks == 0
    && match e {
      case Connected(id, _) => FindsCancelled(p, id)
      case ConnectError(id) => FindsCancelled(p, id) || FreesRoom(p, id)
      case _ => false
    }
  }

  // ----- What a stranded pool misses -----

  lemma {:induction false} DispatchSettles(p: Pool, perished: set<nat>)
    ensures var d := Dispatch(p, perished);
      && (d.waitQueue == [] || (!d.waitQueue[0].cancelled && d.connections == []))
      && d.closed == p.closed && d.processing == p.processing && d.ticks == p.ticks && d.options == p.options
      && (p.connections == [] || !Live(p.waitQueue) ==> d.answers == p.answers)
      && (!Live(p.waitQueue) ==> d.waitQueue == [])
    decreases |p.waitQueue| + |p.connections|
  {
    hide Live, IsStale;
    if p.waitQueue != [] {
      if p.waitQueue[0].cancelled {
        LiveBehind(p.waitQueue);
        DispatchSettles(p.(waitQueue := p.waitQueue[1..]), perished);
      } else {
        LiveInFront(p.waitQueue);
        if p.connections != [] {
          DispatchSettles(Offered(p, perished), perished);
        }
      }
    }
  }

  // The turn of the loop that takes an idle connection.
  function Offered(p: Pool, perished: set<nat>): (q: Pool)
    requires p.waitQueue != [] && !p.waitQueue[0].cancelled && p.connections != []
    ensures Dispatch(p, perished) == Dispatch(q, perished) && q.connections == p.connections[1..]
    ensures (q.waitQueue == p.waitQueue && q.answers == p.answers && q.permits == p.permits + 1)
            || (q.waitQueue == p.waitQueue[1..] && |q.answers| == |p.answers| + 1)
    ensures q.closed == p.closed && q.processing == p.processing && q.ticks == p.ticks && q.options == p.options
  {
    var c, w := p.connections[0], p.waitQueue[0];
    if !IsStale(p, c) && c.id !in perished then
      p.(connections := p.connections[1..], waitQueue := p.waitQueue[1..],
         leased := p.leased[c.id := c], answers := p.answers + [Answer(w.id, Granted(c.id))])
    else p.(connections := p.connections[1..], permits := p.permits + 1)
  }

  // Either somebody is served, or the idle connections are all gone and their permits back.
  lemma {:induction false} DispatchServes(p: Pool, perished: set<nat>)
    ensures var d := Dispatch(p, perished);
      && |d.answers| >= |p.answers|
      && (d.answers == p.answers ==>
            TotalConnectionCount(d) == TotalConnectionCount(p) - 2 * (|p.connections| - |d.connections|))
      && (d.waitQueue == [] && Live(p.waitQueue) ==> |d.answers| > |p.answers|)
    decreases |p.waitQueue| + |p.connections|
  {
    hide Live, IsStale;
    if p.waitQueue == [] {
      NobodyIn();
    } else if p.waitQueue[0].cancelled {
      LiveBehind(p.waitQueue);
      DispatchServes(p.(waitQueue := p.waitQueue[1..]), perished);
    } else if p.connections != [] {
      DispatchServes(Offered(p, perished), perished);
    }
  }

  lemma LiveInFront(queue: seq<Waiter>)
    requires queue != [] && !queue[0].cancelled
    ensures Live(queue)
  {
  }

  lemma LiveBehind(queue: seq<Waiter>)
    requires queue != [] && queue[0].cancelled
    ensures Live(queue) <==> Live(queue[1..])
  {
    if i :| 0 <= i < |queue| && !queue[i].cancelled {
      assert !queue[1..][i - 1].cancelled;
    }
  }

  // A quiet pool is stranded exactly when a run of the wait queue, if there were one, would
  // answer a waiter or start a connect for one.
  lemma StrandedMissesService(p: Pool, perished: set<nat>)
    requires Inv(p) && Quiet(p)
    ensures var q := ProcessWaitQueue(p, perished);
      Stranded(p) <==> q.processing || q.answers != p.answers
  {
    hide Dispatch, Live;
    DispatchSettles(p, perished);
    DispatchServes(p, perished);
    HasCapacity(p);
    var d := Dispatch(p, perished);
    if d.answers == p.answers && p.connections != [] && d.waitQueue != [] {
      assert Room(d);
    }
  }

  lemma HasCapacity(p: Pool)
    requires Inv(p)
    ensures !p.closed && p.options.maxPoolSize > 0 ==> p.permits >= 0
    ensures !p.closed ==> (p.processing <==> exists id :: id in p.pending && p.pending[id].forWaiter)
  {
  }

  // ----- The turns that strand a waiter -----

  // The queue's connect strands somebody when it finds a cancelled waiter in front.
  lemma ServeStrands(p: Pool, connection: Option<Conn>)
    requires !p.closed
    ensures Stranded(ServeWaiter(p, connection)) <==>
      p.ticks == 0 && p.waitQueue != [] && p.waitQueue[0].cancelled && Live(p.waitQueue[1..])
      && (connection.Some? || p.connections != [] || Room(p))
  {
    hide Live;
    NobodyIn();
  }

  lemma NobodyIn()
    ensures !Live([])
  {
  }

  lemma ConnectStrands(p: Pool, id: nat, e: Event)
    requires Inv(p) && id in p.pending && p.pending[id].forWaiter
    requires e == ConnectError(id) || (e.Connected? && e.id == id)
    ensures Stranded(Step(p, e)) <==> StrandingTurn(p, e)
  {
    hide Live, Inv, Stranded, ServeWaiter, Arrive;
    HasCapacity(p);
    if e.ConnectError? {
      var freed := p.(permits := p.permits + 1, pending := p.pending - {id});
      if p.closed {
        ServeStaysClosed(freed);
      } else {
        ServeStrands(freed, None);
      }
    } else if p.closed {
      assert !Quiet(Step(p, e));
      NotQuiet(Step(p, e));
    } else {
      var (landed, c) := Arrive(p, id, e.serviceId);
      ServeStrands(landed, Some(c));
    }
  }

  lemma NotQuiet(p: Pool)
    requires !Quiet(p)
    ensures !Stranded(p)
  {
  }

  lemma ServeStaysClosed(p: Pool)
    requires p.closed
    ensures !Stranded(ServeWaiter(p, None))
  {
  }

  lemma OtherConnectStrands(p: Pool, id: nat)
    requires Inv(p) && !Stranded(p) && id in p.pending && !p.pending[id].forWaiter
    ensures Stranded(ConnectFails(p, id)) <==> StrandingTurn(p, ConnectError(id))
    ensures forall serviceId :: !Stranded(ConnectSucceeds(p, id, serviceId))
  {
    hide Live, Inv, Arrive;
    HasCapacity(p);
  }

  lemma TickServes(p: Pool, perished: set<nat>)
    requires Inv(p) && p.ticks > 0
    ensures !Stranded(Step(p, Tick(perished)))
  {
    hide Live, Dispatch, Inv;
    NobodyIn();
    DispatchSettles(p.(ticks := p.ticks - 1), perished);
  }

  // Only these turns strand a waiter, and they always do.
  lemma StrandedExactly(p: Pool, e: Event)
    requires Inv(p) && !Stranded(p)
    ensures Stranded(Step(p, e)) <==> StrandingTurn(p, e)
  {
    hide Live, Inv, ConnectSucceeds, ConnectFails, ProcessWaitQueue, IsStale;
    match e {
      case Connected(id, _) =>
        if id in p.pending {
          if p.pending[id].forWaiter { ConnectStrands(p, id, e); } else { OtherConnectStrands(p, id); }
        }
      case ConnectError(id) =>
        if id in p.pending {
          if p.pending[id].forWaiter { ConnectStrands(p, id, e); } else { OtherConnectStrands(p, id); }
        }
      case Tick(perished) => if p.ticks > 0 { TickServes(p, perished); }
      case TimerFires(i) => if i < |p.waitQueue| { TimeoutLeaves(p, i); }
      case MinPoolSizeTimer => MinimumTakesRoom(p);
      case _ =>
    }
  }

  lemma TimeoutLeaves(p: Pool, i: nat)
    requires i < |p.waitQueue|
    ensures Live(Timeout(p, i).waitQueue) ==> Live(p.waitQueue)
  {
  }

  lemma MinimumTakesRoom(p: Pool)
    ensures Stranded(EnsureMinPoolSize(p)) ==> Stranded(p)
  {
    hide Live;
    var total, min := TotalConnectionCount(p), p.options.minPoolSize;
    ConnectsTakeRoom(p, if total < min then min - total else 0);
  }

  lemma {:induction false} ConnectsTakeRoom(p: Pool, count: nat)
    ensures var q := StartConnects(p, count);
      q == p.(permits := p.permits - count, nextConn := p.nextConn + count, pending := q.pending)
    decreases count
  {
    if count > 0 {
      ConnectsTakeRoom(p, count - 1);
    }
  }

  // A run ends with a waiter stranded only if one of its turns was such a turn.
  lemma {:induction false} StrandedRun(p: Pool, events: seq<Event>)
    requires Inv(p) && !Stranded(p) && Stranded(Run(p, events))
    ensures exists k :: 0 <= k < |events| && StrandingTurn(Run(p, events[..k]), events[k])
    decreases |events|
  {
    hide Inv, Stranded, Step, StrandingTurn;
    var q := Step(p, events[0]);
    StrandedExactly(p, events[0]);
    StepInv(p, events[0]);
    if Stranded(q) {
      assert events[..0] == [];
    } else {
      StrandedRun(q, events[1..]);
      var k :| 0 <= k < |events[1..]| && StrandingTurn(Run(q, events[1..][..k]), events[1..][k]);
      assert events[..k + 1][1..] == events[1..][..k] && events[..k + 1][0] == events[0];
      assert StrandingTurn(Run(p, events[..k + 1]), events[k + 1]);
    }
  }

  lemma StrandedComesFrom(options: Options, events: seq<Event>)
    requires Create(options).Ok? && Stranded(Run(Create(options).value, events))
    ensures var p := Create(options).value;
      exists k :: 0 <= k < |events| && StrandingTurn(Run(p, events[..k]), events[k])
  {
    hide Run, StrandingTurn;
    CreateInv(options);
    StrandedRun(Create(options).value, events);
  }

  // ----- Both ways happen -----

  // The second waiter is left next to an idle connection: the first timed out while the
  // connect for it was in flight.
  lemma WaiterLeftBehind()
    ensures var options := Options(1, 0, true, false);
      var p := Run(Create(options).value,
                   [CheckOutCall, Tick({}), TimerFires(0), CheckOutCall, Tick({}), Connected(0, None)]);
      && Stranded(p) && p.pending == map[] && p.leased == map[]
      && p.waitQueue == [Waiter(1, true, false)] && p.connections == [Conn(0, 0, None)]
      && !IsStale(p, p.connections[0])
  {
    hide Stranded;
    var p0 := Create(Options(1, 0, true, false)).value;
    var p1 := Step(p0, CheckOutCall);
    assert p1 == p0.(checkedOut := 1, waitQueue := [Waiter(0, true, false)], nextWaiter := 1, ticks := 1);
    var p2 := Step(p1, Tick({}));
    assert p2 == p1.(ticks := 0, permits := 0, nextConn := 1, pending := map[0 := Pending(0, true)],
                     processing := true);
    var p3 := Step(p2, TimerFires(0));
    assert p3 == p2.(waitQueue := [Waiter(0, false, true)], answers := [Answer(0, TimedOut)]);
    var p4 := Step(p3, CheckOutCall);
    assert p4 == p3.(checkedOut := 2, nextWaiter := 2, ticks := 1,
                     waitQueue := [Waiter(0, false, true), Waiter(1, true, false)]);
    var p5 := Step(p4, Tick({}));
    assert p5 == p4.(ticks := 0);
    var p6 := Step(p5, Connected(0, None));
    assert map[0 := Pending(0, true)] - {0} == map[];
    assert p6 == p5.(waitQueue := [Waiter(1, true, false)], connections := [Conn(0, 0, None)], processing := false,
                     pending := map[]);
    Strands(p6, 0);
    RunSix(p0, CheckOutCall, Tick({}), TimerFires(0), CheckOutCall, Tick({}), Connected(0, None));
  }

  // A waiter who came while a connect for the minimum size took up the only place,
  // is left with room for one when that connect fails.
  lemma FailedConnectStrands()
    ensures var p := Run(Create(Options(1, 1, true, false)).value,
                         [MinPoolSizeTimer, CheckOutCall, Tick({}), ConnectError(0)]);
      && Stranded(p) && p.pending == map[] && p.leased == map[]
      && p.waitQueue == [Waiter(0, true, false)] && p.connections == [] && p.permits == 1
  {
    hide Stranded, Step;
    var p0 := Create(Options(1, 1, true, false)).value;
    var p1 := p0.(permits := 0, nextConn := 1, pending := map[0 := Pending(0, false)]);
    var p2 := p1.(checkedOut := 1, waitQueue := [Waiter(0, true, false)], nextWaiter := 1, ticks := 1);
    var p3 := p2.(ticks := 0);
    var p4 := p3.(permits := 1, pending := map[]);
    MinimumStarts(p0, p1);
    WaiterComes(p1, p2, p3);
    ConnectBreaks(p3, p4);
    Strands(p4, 0);
    RunFour(p0, MinPoolSizeTimer, CheckOutCall, Tick({}), ConnectError(0));
  }

  lemma MinimumStarts(p: Pool, q: Pool)
    requires Create(Options(1, 1, true, false)) == Ok(p)
    requires q == p.(permits := 0, nextConn := 1, pending := map[0 := Pending(0, false)])
    ensures Step(p, MinPoolSizeTimer) == q
  {
    assert StartConnects(p, 1) == StartConnect(StartConnects(p, 0), false);
  }

  lemma WaiterComes(p: Pool, q: Pool, r: Pool)
    requires !p.closed && !p.processing && p.options == Options(1, 1, true, false) && p.permits == 0
      && p.connections == []
    requires p.checkedOut == 0 && p.waitQueue == [] && p.nextWaiter == 0 && p.ticks == 0
    requires q == p.(checkedOut := 1, waitQueue := [Waiter(0, true, false)], nextWaiter := 1, ticks := 1)
    requires r == q.(ticks := 0)
    ensures Step(p, CheckOutCall) == q && Step(q, Tick({})) == r
  {
  }

  lemma ConnectBreaks(p: Pool, q: Pool)
    requires p.pending == map[0 := Pending(0, false)] && q == p.(permits := p.permits + 1, pending := map[])
    ensures Step(p, ConnectError(0)) == q
  {
    assert p.pending - {0} == map[];
  }

  lemma Strands(p: Pool, i: nat)
    requires Quiet(p) && i < |p.waitQueue| && !p.waitQueue[i].cancelled && (p.connections != [] || Room(p))
    ensures Stranded(p)
  {
  }

  lemma RunFour(p: Pool, a: Event, b: Event, c: Event, d: Event)
    ensures Run(p, [a, b, c, d]) == Step(Step(Step(Step(p, a), b), c), d)
  {
    hide Step;
    RunCons(p, a, [b, c, d]);
    RunCons(Step(p, a), b, [c, d]);
    RunCons(Step(Step(p, a), b), c, [d]);
    RunCons(Step(Step(Step(p, a), b), c), d, []);
    assert [a] + [b, c, d] == [a, b, c, d];
    assert [b] + [c, d] == [b, c, d];
    assert [c] + [d] == [c, d];
    assert [d] + [] == [d];
  }

  lemma RunSix(p: Pool, a: Event, b: Event, c: Event, d: Event, e: Event, f: Event)
    ensures Run(p, [a, b, c, d, e, f]) == Step(Step(Step(Step(Step(Step(p, a), b), c), d), e), f)
  {
    hide Step;
    RunCons(p, a, [b, c, d, e, f]);
    RunCons(Step(p, a), b, [c, d, e, f]);
    RunCons(Step(Step(p, a), b), c, [d, e, f]);
    RunCons(Step(Step(Step(p, a), b), c), d, [e, f]);
    RunCons(Step(Step(Step(Step(p, a), b), c), d), e, [f]);
    RunCons(Step(Step(Step(Step(Step(p, a), b), c), d), e), f, []);
    assert [a] + [b, c, d, e, f] == [a, b, c, d, e, f];
    assert [b] + [c, d, e, f] == [b, c, d, e, f];
    assert [c] + [d, e, f] == [c, d, e, f];
    assert [d] + [e, f] == [d, e, f];
    assert [e] + [f] == [e, f];
    assert [f] + [] == [f];
  }

  lemma RunCons(p: Pool, e: Event, events: seq<Event>)
    ensures Run(p, [e] + events) == Run(Step(p, e), events)
  {
    hide Step;
    assert ([e] + events)[1..] == events;
  }
}
