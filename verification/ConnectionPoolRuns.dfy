/**
 The turns of a connection pool and what each of them keeps about connections: no connection
 in two places, capacity, and one dispatcher at a time.
 */
module ConnectionPoolRuns {
  import opened Wrappers
  import opened ConnectionPools

  datatype Event =
    | CheckOutCall
    | TimerFires(i: nat)
    | Return(id: nat, connectionClosed: bool)
    | ClearCall(serviceId: Option<nat>)
    | CloseCall
    | ConnectionsDestroyed
    | Connected(id: nat, serviceId: Option<nat>)
    | ConnectError(id: nat)
    | Tick(perished: set<nat>)
    | MinPoolSizeTimer

  function Step(p: Pool, e: Event): Pool
  {
    match e
    case CheckOutCall => CheckOut(p)
    case TimerFires(i) => if i < |p.waitQueue| then Timeout(p, i) else p
    case Return(id, connectionClosed) => if id in p.leased then CheckIn(p, id, connectionClosed) else p
    case ClearCall(serviceId) => Clear(p, serviceId)
    case CloseCall => Close(p)
    case ConnectionsDestroyed => CloseDone(p)
    case Connected(id, serviceId) => if id in p.pending then ConnectSucceeds(p, id, serviceId) else p
    case ConnectError(id) => if id in p.pending then ConnectFails(p, id) else p
    case Tick(perished) => if p.ticks > 0 then ProcessWaitQueue(p.(ticks := p.ticks - 1), perished) else p
    case MinPoolSizeTimer => EnsureMinPoolSize(p)
  }

  function Run(p: Pool, events: seq<Event>): Pool
    decreases |events|
  {
    if events == [] then p else Run(Step(p, events[0]), events[1..])
  }

  // ----- Connections: identity, capacity and the dispatcher flag -----

  // No connection is in two places.
  predicate Apart(idle: seq<Conn>, leased: map<nat, Conn>, pending: map<nat, Pending>, nextConn: nat)
  {
    && (forall i :: 0 <= i < |idle| ==> idle[i].id < nextConn && idle[i].id !in leased && idle[i].id !in pending)
    && (forall i, j :: 0 <= i < j < |idle| ==> idle[i].id != idle[j].id)
    && (forall id :: id in leased ==> id < nextConn && leased[id].id == id && id !in pending)
    && (forall id :: id in pending ==> id < nextConn)
  }

  predicate Distinct(p: Pool)
  {
    Apart(p.connections, p.leased, p.pending, p.nextConn)
  }

  // Every permit given out is a connection: in flight, idle or on loan.
  predicate Capacity(p: Pool)
  {
    && p.options.minPoolSize <= p.options.maxPoolSize
    && (!p.closed ==>
          && |p.pending| + |p.connections| + |p.leased| == p.options.maxPoolSize - p.permits
          && (p.options.maxPoolSize > 0 ==> p.permits >= 0))
  }

  // Between turns the flag is set exactly while one connect for the wait queue is in flight.
  predicate OneDispatcher(p: Pool)
  {
    && (forall id, id' :: id in p.pending && id' in p.pending && p.pending[id].forWaiter && p.pending[id'].forWaiter
                          ==> id == id')
    && (!p.closed ==> (p.processing <==> exists id :: id in p.pending && p.pending[id].forWaiter))
    && (forall id :: id in p.pending && p.pending[id].forWaiter ==> p.processing)
  }

  predicate Connections(p: Pool)
  {
    Distinct(p) && Capacity(p) && OneDispatcher(p)
  }

  lemma RemoveKey<V>(m: map<nat, V>, k: nat)
    requires k in m
    ensures |m - {k}| == |m| - 1
  {
    assert (m - {k}).Keys == m.Keys - {k};
  }

  lemma AddKey<V>(m: map<nat, V>, k: nat, v: V)
    requires k !in m
    ensures |m[k := v]| == |m| + 1
  {
    assert m[k := v].Keys == m.Keys + {k};
  }

  lemma StartConnectKeeps(p: Pool, forWaiter: bool)
    requires Distinct(p) && Capacity(p)
    requires p.options.maxPoolSize > 0 ==> p.permits > 0
    ensures Distinct(StartConnect(p, forWaiter)) && Capacity(StartConnect(p, forWaiter))
  {
    AddKey(p.pending, p.nextConn, Pending(p.generation, forWaiter));
  }

  lemma StartConnectFlag(p: Pool, forWaiter: bool)
    requires Distinct(p) && OneDispatcher(p) && (forWaiter ==> !p.processing)
    ensures OneDispatcher(StartConnect(p, forWaiter).(processing := p.processing || forWaiter))
  {
    hide Capacity;
    var q := StartConnect(p, forWaiter);
    assert q.pending[p.nextConn].forWaiter == forWaiter;
    assert forall id :: id in p.pending ==> q.pending[id] == p.pending[id];
  }

  lemma {:induction false} StartConnectsKeep(p: Pool, count: nat)
    requires Connections(p)
    requires p.options.maxPoolSize > 0 ==> p.permits >= count
    ensures Connections(StartConnects(p, count)) && StartConnects(p, count).permits == p.permits - count
    ensures StartConnects(p, count).(permits := p.permits, nextConn := p.nextConn, pending := p.pending) == p
    decreases count
  {
    hide Apart, Capacity, OneDispatcher;
    if count > 0 {
      var q := StartConnects(p, count - 1);
      StartConnectsKeep(p, count - 1);
      StartConnectKeeps(q, false);
      StartConnectFlag(q, false);
      assert StartConnect(q, false).(processing := q.processing) == StartConnect(q, false);
    }
  }

  lemma GrantKeeps(p: Pool)
    requires Distinct(p) && Capacity(p) && p.connections != [] && p.waitQueue != []
    ensures var c, w := p.connections[0], p.waitQueue[0];
      var q := p.(connections := p.connections[1..], waitQueue := p.waitQueue[1..],
                  leased := p.leased[c.id := c], answers := p.answers + [Answer(w.id, Granted(c.id))]);
      Distinct(q) && Capacity(q)
  {
    AddKey(p.leased, p.connections[0].id, p.connections[0]);
  }

  lemma DestroyKeeps(p: Pool)
    requires Distinct(p) && Capacity(p) && p.connections != []
    ensures var q := p.(connections := p.connections[1..], permits := p.permits + 1);
      Distinct(q) && Capacity(q)
  {
  }

  lemma {:induction false} DispatchKeeps(p: Pool, perished: set<nat>)
    requires Distinct(p) && Capacity(p)
    ensures var d := Dispatch(p, perished);
      && Distinct(d) && Capacity(d)
      && d.pending == p.pending && d.closed == p.closed && d.options == p.options && d.nextConn == p.nextConn
      && d.generation == p.generation && d.serviceGenerations == p.serviceGenerations
    decreases |p.waitQueue| + |p.connections|
  {
    hide Apart, Capacity;
    if p.waitQueue != [] {
      if p.waitQueue[0].cancelled {
        WaitersOnly(p, p.waitQueue[1..]);
        DispatchKeeps(p.(waitQueue := p.waitQueue[1..]), perished);
      } else if p.connections != [] {
        var c, w := p.connections[0], p.waitQueue[0];
        if !IsStale(p, c) && c.id !in perished {
          GrantKeeps(p);
          DispatchKeeps(p.(connections := p.connections[1..], waitQueue := p.waitQueue[1..],
                           leased := p.leased[c.id := c],
                           answers := p.answers + [Answer(w.id, Granted(c.id))]), perished);
        } else {
          DestroyKeeps(p);
          DispatchKeeps(p.(connections := p.connections[1..], permits := p.permits + 1), perished);
        }
      }
    }
  }

  lemma WaitersOnly(p: Pool, queue: seq<Waiter>)
    requires Distinct(p) && Capacity(p)
    ensures Distinct(p.(waitQueue := queue)) && Capacity(p.(waitQueue := queue))
  {
  }

  lemma TickKeeps(p: Pool, perished: set<nat>)
    requires Connections(p)
    ensures Connections(ProcessWaitQueue(p, perished))
  {
    if !p.closed && !p.processing {
      hide Dispatch, Apart;
      DispatchKeeps(p, perished);
      DispatchFlag(p, perished);
      var d := Dispatch(p, perished);
      assert OneDispatcher(d);
      if d.waitQueue != [] && (p.options.maxPoolSize == 0 || TotalConnectionCount(d) < p.options.maxPoolSize) {
        StartConnectKeeps(d, true);
        StartConnectFlag(d, true);
        FlagOnly(StartConnect(d, true), true);
      }
    }
  }

  lemma FlagOnly(p: Pool, flag: bool)
    requires Distinct(p) && Capacity(p)
    ensures Distinct(p.(processing := flag)) && Capacity(p.(processing := flag))
  {
  }

  // A connect that is through is no longer in flight.
  lemma Landed(p: Pool, id: nat)
    requires Connections(p) && id in p.pending
    ensures var q := p.(pending := p.pending - {id});
      && Distinct(q) && id !in q.leased && id < q.nextConn
      && (forall i :: 0 <= i < |q.connections| ==> q.connections[i].id != id)
  {
  }

  // Serving the wait queue with a connection that was in flight, or with none.
  lemma ServeKeeps(p: Pool, connection: Option<Conn>)
    requires Distinct(p) && (connection.Some? ==>
      connection.value.id < p.nextConn && connection.value.id !in p.leased && connection.value.id !in p.pending
      && forall i :: 0 <= i < |p.connections| ==> p.connections[i].id != connection.value.id)
    ensures var q := ServeWaiter(p, connection);
      && Distinct(q) && q.pending == p.pending && q.permits == p.permits && q.closed == p.closed
         && q.options == p.options
      && !q.processing
      && |q.connections| + |q.leased| == |p.connections| + |p.leased| + (if connection.Some? then 1 else 0)
  {
    hide Apart, ServeWaiter;
    ServeFrame(p, connection);
    if connection.Some? {
      var c := connection.value;
      PushKeeps(p.connections, p.leased, p.pending, p.nextConn, c);
      AddKey(p.leased, c.id, c);
    }
  }

  // Serving touches the connections in one of three ways, and no permit.
  lemma ServeFrame(p: Pool, connection: Option<Conn>)
    ensures var q := ServeWaiter(p, connection);
      && q.pending == p.pending && q.permits == p.permits && q.closed == p.closed && q.options == p.options
      && q.nextConn == p.nextConn && !q.processing
      && match connection {
        case None => q.connections == p.connections && q.leased == p.leased
        case Some(c) =>
          || (q.connections == p.connections + [c] && q.leased == p.leased)
          || (q.connections == p.connections && q.leased == p.leased[c.id := c])
      }
  {
  }

  lemma ConnectFailsKeeps(p: Pool, id: nat)
    requires Connections(p) && id in p.pending
    ensures Connections(ConnectFails(p, id))
  {
    hide Apart, ServeWaiter, Capacity, OneDispatcher;
    Landed(p, id);
    var freed := p.(permits := p.permits + 1, pending := p.pending - {id});
    if p.pending[id].forWaiter {
      ServeKeeps(freed, None);
      Balanced(p, ServeWaiter(freed, None), id);
    } else {
      Balanced(p, freed, id);
    }
  }

  // The table without one connect in flight: the counts and the flag.
  lemma Balanced(p: Pool, q: Pool, id: nat)
    requires Capacity(p) && OneDispatcher(p) && id in p.pending
    requires q.pending == p.pending - {id} && q.closed == p.closed && q.options == p.options
    requires q.processing == p.processing || (!q.processing && p.pending[id].forWaiter)
    requires !p.closed && p.pending[id].forWaiter ==> !q.processing
    requires !p.closed ==> q.permits >= p.permits
    requires !p.closed ==> |q.connections| + |q.leased| - |p.connections| - |p.leased| == 1 - (q.permits - p.permits)
    ensures Capacity(q) && OneDispatcher(q)
  {
    RemoveKey(p.pending, id);
    if exists k :: k in p.pending && p.pending[k].forWaiter {
      var k :| k in p.pending && p.pending[k].forWaiter;
      assert k != id ==> q.pending[k].forWaiter;
    }
  }

  lemma PushKeeps(idle: seq<Conn>, leased: map<nat, Conn>, pending: map<nat, Pending>, nextConn: nat, c: Conn)
    requires Apart(idle, leased, pending, nextConn) && c.id < nextConn && c.id !in leased && c.id !in pending
    requires forall i :: 0 <= i < |idle| ==> idle[i].id != c.id
    ensures Apart(idle + [c], leased, pending, nextConn) && Apart([c] + idle, leased, pending, nextConn)
    ensures Apart(idle, leased[c.id := c], pending, nextConn)
  {
  }

  lemma ConnectSucceedsKeeps(p: Pool, id: nat, serviceId: Option<nat>)
    requires Connections(p) && id in p.pending
    ensures Connections(ConnectSucceeds(p, id, serviceId))
  {
    hide Apart, ServeWaiter, Capacity, OneDispatcher, Arrive;
    Landed(p, id);
    if p.closed {
      Balanced(p, p.(pending := p.pending - {id}), id);
    } else {
      var (landed, c) := Arrive(p, id, serviceId);
      if p.pending[id].forWaiter {
        ServeKeeps(landed, Some(c));
      } else {
        PushKeeps(landed.connections, landed.leased, landed.pending, landed.nextConn, c);
      }
      Balanced(p, ConnectSucceeds(p, id, serviceId), id);
    }
  }

  lemma ReturnKeeps(p: Pool, id: nat, connectionClosed: bool)
    requires Connections(p) && id in p.leased
    ensures Connections(CheckIn(p, id, connectionClosed))
  {
    hide IsStale, Apart;
    ReturnDistinct(p, id);
    RemoveKey(p.leased, id);
    var back := p.(leased := p.leased - {id});
    PushKeeps(p.connections, back.leased, p.pending, p.nextConn, p.leased[id]);
    var q := CheckIn(p, id, connectionClosed);
  }

  lemma ReturnDistinct(p: Pool, id: nat)
    requires Distinct(p) && id in p.leased
    ensures Distinct(p.(leased := p.leased - {id})) && p.leased[id].id == id && id < p.nextConn && id !in p.pending
    ensures forall i :: 0 <= i < |p.connections| ==> p.connections[i].id != id
  {
  }

  lemma MinPoolSizeKeeps(p: Pool)
    requires Connections(p)
    ensures Connections(EnsureMinPoolSize(p))
  {
    if !p.closed && p.options.minPoolSize > 0 && TotalConnectionCount(p) < p.options.minPoolSize {
      StartConnectsKeep(p, p.options.minPoolSize - TotalConnectionCount(p));
    }
  }

  lemma ConnectionsKept(p: Pool, e: Event)
    requires Connections(p)
    ensures Connections(Step(p, e))
  {
    hide Apart, Capacity, OneDispatcher;
    match e {
      case CheckOutCall => QueueOnly(p, CheckOut(p));
      case TimerFires(i) => if i < |p.waitQueue| { QueueOnly(p, Timeout(p, i)); }
      case Return(id, connectionClosed) => if id in p.leased { ReturnKeeps(p, id, connectionClosed); }
      case ClearCall(serviceId) => QueueOnly(p, Clear(p, serviceId));
      case CloseCall => CloseKeeps(p);
      case ConnectionsDestroyed => CloseKeeps(p);
      case Connected(id, serviceId) => if id in p.pending { ConnectSucceedsKeeps(p, id, serviceId); }
      case ConnectError(id) => if id in p.pending { ConnectFailsKeeps(p, id); }
      case Tick(perished) =>
        if p.ticks > 0 {
          var q := p.(ticks := p.ticks - 1);
          QueueOnly(p, q);
          TickKeeps(q, perished);
        }
      case MinPoolSizeTimer => MinPoolSizeKeeps(p);
    }
  }

  // Steps that touch no connection and no permit.
  lemma QueueOnly(p: Pool, q: Pool)
    requires Connections(p)
    requires q.(waitQueue := p.waitQueue, checkedOut := p.checkedOut, generation := p.generation, answers := p.answers,
                serviceGenerations := p.serviceGenerations, ticks := p.ticks, nextWaiter := p.nextWaiter) == p
    ensures Connections(q)
  {
  }

  lemma CloseKeeps(p: Pool)
    requires Connections(p)
    ensures Connections(Close(p)) && Connections(CloseDone(p))
  {
  }
}
