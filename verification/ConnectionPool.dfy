/**
 The connection pool (src/cmap/connection_pool.ts) with the environment it talks to: connects
 in flight, connections on loan, scheduled runs of the wait queue and the answers given.
 */
module ConnectionPools {
  import opened Wrappers

  datatype Conn = Conn(id: nat, generation: nat, serviceId: Option<nat>)

  // A connect in flight; `forWaiter` has the callback that serves the wait queue.
  datatype Pending = Pending(generation: nat, forWaiter: bool)

  datatype Waiter = Waiter(id: nat, timed: bool, cancelled: bool)

  datatype Outcome = Granted(conn: nat) | TimedOut | ConnectFailed | Drained | PoolClosed
  datatype Answer = Answer(waiter: nat, outcome: Outcome)

  datatype Options = Options(maxPoolSize: nat, minPoolSize: nat, waitQueueTimeout: bool, loadBalanced: bool)

  datatype Pool = Pool(
    options: Options, closed: bool, permits: int, connections: seq<Conn>, waitQueue: seq<Waiter>, checkedOut: int,
    generation: nat, serviceGenerations: map<nat, nat>, processing: bool,
    pending: map<nat, Pending>, leased: map<nat, Conn>, ticks: nat, nextConn: nat, nextWaiter: nat,
    answers: seq<Answer>)

  datatype PoolError = MinAboveMax

  function Create(options: Options): Result<Pool, PoolError>
  {
    if options.minPoolSize > options.maxPoolSize then Err(MinAboveMax)
    else Ok(Pool(options, false, options.maxPoolSize, [], [], 0, 0, map[], false, map[], map[], 0, 0, 0, []))
  }

  // As the source computes it: idle connections count twice.
  function TotalConnectionCount(p: Pool): int
  {
    |p.connections| + (p.options.maxPoolSize - p.permits)
  }

  // The current generation for a connection's service, or of the pool.
  function CurrentGeneration(p: Pool, c: Conn): Option<nat>
  {
    if p.options.loadBalanced && c.serviceId.Some? then
      if c.serviceId.value in p.serviceGenerations then Some(p.serviceGenerations[c.serviceId.value]) else None
    else Some(p.generation)
  }

  predicate IsStale(p: Pool, c: Conn)
  {
    CurrentGeneration(p, c) != Some(c.generation)
  }

  function StartConnect(p: Pool, forWaiter: bool): Pool
  {
    p.(permits := p.permits - 1, nextConn := p.nextConn + 1,
       pending := p.pending[p.nextConn := Pending(p.generation, forWaiter)])
  }

  function StartConnects(p: Pool, count: nat): Pool
    decreases count
  {
    if count == 0 then p else StartConnect(StartConnects(p, count - 1), false)
  }

  function CheckOut(p: Pool): Pool
  {
    if p.closed then p.(answers := p.answers + [Answer(p.nextWaiter, PoolClosed)], nextWaiter := p.nextWaiter + 1)
    else p.(checkedOut := p.checkedOut + 1,
            waitQueue := p.waitQueue + [Waiter(p.nextWaiter, p.options.waitQueueTimeout, false)],
            nextWaiter := p.nextWaiter + 1, ticks := p.ticks + 1)
  }

  // The wait queue timer of the waiter at position i.
  function Timeout(p: Pool, i: nat): Pool
    requires i < |p.waitQueue|
  {
    var w := p.waitQueue[i];
    if !w.timed || w.cancelled then p
    else p.(waitQueue := p.waitQueue[i := w.(timed := false, cancelled := true)],
            answers := p.answers + [Answer(w.id, TimedOut)])
  }

  function CheckIn(p: Pool, id: nat, connectionClosed: bool): Pool
    requires id in p.leased
  {
    var c := p.leased[id];
    var back := p.(leased := p.leased - {id}, checkedOut := p.checkedOut - 1, ticks := p.ticks + 1);
    if p.closed || IsStale(p, c) || connectionClosed then back.(permits := p.permits + 1)
    else back.(connections := [c] + p.connections)
  }

  // Clearing a service that has no generation yet throws and changes nothing.
  function Clear(p: Pool, serviceId: Option<nat>): Pool
  {
    if p.options.loadBalanced && serviceId.Some? then
      if serviceId.value !in p.serviceGenerations then p
      else p.(serviceGenerations := p.serviceGenerations[serviceId.value := p.serviceGenerations[serviceId.value] + 1])
    else p.(generation := p.generation + 1)
  }

  // The waiters popped off the back; the cancelled ones were answered before.
  function DrainAnswers(queue: seq<Waiter>): seq<Answer>
  {
    if queue == [] then []
    else
      var last := queue[|queue| - 1];
      (if last.cancelled then [] else [Answer(last.id, Drained)]) + DrainAnswers(queue[..|queue| - 1])
  }

  function Close(p: Pool): Pool
  {
    if p.closed then p
    else p.(answers := p.answers + DrainAnswers(p.waitQueue), waitQueue := [], closed := true)
  }

  // All connections of a closing pool are destroyed.
  function CloseDone(p: Pool): Pool
  {
    if p.closed then p.(connections := []) else p
  }

  // The callback of the connect that serves the wait queue.
  function ServeWaiter(p: Pool, connection: Option<Conn>): Pool
  {
    if p.waitQueue == [] || p.waitQueue[0].cancelled then
      p.(waitQueue := if p.waitQueue == [] then [] else p.waitQueue[1..],
         connections := if connection.Some? then p.connections + [connection.value] else p.connections,
         processing := false)
    else
      var w := p.waitQueue[0];
      p.(waitQueue := p.waitQueue[1..], processing := false, ticks := p.ticks + 1,
         leased := if connection.Some? then p.leased[connection.value.id := connection.value] else p.leased,
         answers := p.answers + [Answer(w.id, if connection.Some? then Granted(connection.value.id)
                                        else ConnectFailed)])
  }

  function ConnectFails(p: Pool, id: nat): Pool
    requires id in p.pending
  {
    var freed := p.(permits := p.permits + 1, pending := p.pending - {id});
    if p.pending[id].forWaiter then ServeWaiter(freed, None) else freed
  }

  // A new connection belongs to the generation the connect started in or, behind a load
  // balancer, to its service's, which starts at 0.
  function Arrive(p: Pool, id: nat, serviceId: Option<nat>): (arrival: (Pool, Conn))
    requires id in p.pending
    ensures arrival.0 == p.(pending := p.pending - {id}, serviceGenerations := arrival.0.serviceGenerations)
    ensures arrival.1.id == id
  {
    var landed := p.(pending := p.pending - {id});
    if p.options.loadBalanced && serviceId.Some? then
      var service := if serviceId.value in p.serviceGenerations then p.serviceGenerations[serviceId.value] else 0;
      (landed.(serviceGenerations := p.serviceGenerations[serviceId.value := service]), Conn(id, service, serviceId))
    else (landed, Conn(id, p.pending[id].generation, serviceId))
  }

  function ConnectSucceeds(p: Pool, id: nat, serviceId: Option<nat>): Pool
    requires id in p.pending
  {
    if p.closed then p.(pending := p.pending - {id})
    else
      var (landed, c) := Arrive(p, id, serviceId);
      if p.pending[id].forWaiter then ServeWaiter(landed, Some(c))
      else landed.(connections := p.connections + [c], ticks := p.ticks + 1)
  }

  // The loop over the wait queue; `perished` are the idle connections found closed or idle
  // for too long.
  function Dispatch(p: Pool, perished: set<nat>): Pool
    decreases |p.waitQueue| + |p.connections|
  {
    if p.waitQueue == [] then p
    else if p.waitQueue[0].cancelled then Dispatch(p.(waitQueue := p.waitQueue[1..]), perished)
    else if p.connections == [] then p
    else
      var c, w := p.connections[0], p.waitQueue[0];
      if !IsStale(p, c) && c.id !in perished then
        Dispatch(p.(connections := p.connections[1..], waitQueue := p.waitQueue[1..],
                    leased := p.leased[c.id := c], answers := p.answers + [Answer(w.id, Granted(c.id))]), perished)
      else Dispatch(p.(connections := p.connections[1..], permits := p.permits + 1), perished)
  }

  function ProcessWaitQueue(p: Pool, perished: set<nat>): Pool
  {
    if p.closed || p.processing then p
    else
      var d := Dispatch(p, perished);
      if d.waitQueue != [] && (p.options.maxPoolSize == 0 || TotalConnectionCount(d) < p.options.maxPoolSize)
      then StartConnect(d, true).(processing := true)
      else d
  }

  function EnsureMinPoolSize(p: Pool): Pool
  {
    if p.closed || p.options.minPoolSize == 0 || TotalConnectionCount(p) >= p.options.minPoolSize then p
    else StartConnects(p, p.options.minPoolSize - TotalConnectionCount(p))
  }

  // ----- The class -----

  class ConnectionPool {
    const options: Options
    var closed: bool
    var permits: int
    var connections: seq<Conn>
    var waitQueue: seq<Waiter>
    var checkedOut: int
    var generation: nat
    var serviceGenerations: map<nat, nat>
    var processingWaitQueue: bool
    // The environment's side.
    var pending: map<nat, Pending>
    var leased: map<nat, Conn>
    var ticks: nat
    var nextConn: nat
    var nextWaiter: nat
    var answers: seq<Answer>

    ghost function State(): Pool
      reads this
    {
      Pool(options, closed, permits, connections, waitQueue, checkedOut, generation, serviceGenerations,
           processingWaitQueue, pending, leased, ticks, nextConn, nextWaiter, answers)
    }

    // The source throws when the minimum is above the maximum.
    constructor (options: Options)
      requires options.minPoolSize <= options.maxPoolSize
      ensures Create(options) == Ok(State())
    {
      this.options := options;
      closed, permits, connections, waitQueue, checkedOut := false, options.maxPoolSize, [], [], 0;
      generation, serviceGenerations, processingWaitQueue := 0, map[], false;
      pending, leased, ticks, nextConn, nextWaiter, answers := map[], map[], 0, 0, 0, [];
    }

    function ConnectionIsStale(c: Conn): (stale: bool)
      reads this
      ensures stale == IsStale(State(), c)
    {
      if options.loadBalanced && c.serviceId.Some? then
        c.serviceId.value !in serviceGenerations || c.generation != serviceGenerations[c.serviceId.value]
      else c.generation != generation
    }

    method CheckOutNow() returns (id: nat)
      modifies `nextWaiter, `answers, `checkedOut, `waitQueue, `ticks
      ensures State() == CheckOut(old(State())) && id == old(nextWaiter)
    {
      id := nextWaiter;
      nextWaiter := nextWaiter + 1;
      if closed {
        answers := answers + [Answer(id, PoolClosed)];
        return;
      }
      checkedOut := checkedOut + 1;
      waitQueue := waitQueue + [Waiter(id, options.waitQueueTimeout, false)];
      ticks := ticks + 1;
    }

    // The wait queue timer of one member.
    method OnTimeout(i: nat)
      requires i < |waitQueue|
      modifies this
      ensures State() == Timeout(old(State()), i)
    {
      var member := waitQueue[i];
      if member.timed && !member.cancelled {
        waitQueue := waitQueue[i := member.(timed := false, cancelled := true)];
        answers := answers + [Answer(member.id, TimedOut)];
      }
    }

    method CheckInNow(id: nat, connectionClosed: bool)
      requires id in leased
      modifies `leased, `connections, `checkedOut, `permits, `ticks
      ensures State() == CheckIn(old(State()), id, connectionClosed)
    {
      hide IsStale;
      var connection := leased[id];
      var willDestroy := closed || ConnectionIsStale(connection) || connectionClosed;
      leased := leased - {id};
      if !willDestroy {
        connections := [connection] + connections;
      }
      checkedOut := checkedOut - 1;
      if willDestroy {
        DestroyConnection();
      }
      ticks := ticks + 1;
    }

    method DestroyConnection()
      modifies `permits
      ensures permits == old(permits) + 1
    {
      permits := permits + 1;
    }

    method ClearNow(serviceId: Option<nat>) returns (thrown: bool)
      modifies this
      ensures State() == Clear(old(State()), serviceId)
      ensures thrown <==> options.loadBalanced && serviceId.Some? && serviceId.value !in old(serviceGenerations)
    {
      thrown := false;
      if options.loadBalanced && serviceId.Some? {
        var sid := serviceId.value;
        if sid !in serviceGenerations {
          thrown := true;
        } else {
          serviceGenerations := serviceGenerations[sid := serviceGenerations[sid] + 1];
        }
      } else {
        generation := generation + 1;
      }
    }

    method CloseNow()
      modifies this
      ensures State() == Close(old(State()))
    {
      if closed {
        return;
      }
      while |waitQueue| > 0
        invariant answers + DrainAnswers(waitQueue) == old(answers + DrainAnswers(waitQueue))
        invariant State() == old(State()).(answers := answers, waitQueue := waitQueue)
        decreases |waitQueue|
      {
        var member := waitQueue[|waitQueue| - 1];
        waitQueue := waitQueue[..|waitQueue| - 1];
        if !member.cancelled {
          answers := answers + [Answer(member.id, Drained)];
        }
      }
      closed := true;
    }

    method OnConnectionsDestroyed()
      modifies this
      ensures State() == CloseDone(old(State()))
    {
      if closed {
        connections := [];
      }
    }

    method CreateConnection(forWaiter: bool)
      modifies `pending, `nextConn, `permits
      ensures State() == StartConnect(old(State()), forWaiter)
    {
      pending := pending[nextConn := Pending(generation, forWaiter)];
      nextConn := nextConn + 1;
      permits := permits - 1;
    }

    method OnConnect(id: nat, failed: bool, serviceId: Option<nat>)
      requires id in pending
      modifies `pending, `permits, `serviceGenerations, `connections, `ticks, `waitQueue, `processingWaitQueue,
        `leased, `answers
      ensures State() == if failed then ConnectFails(old(State()), id) else ConnectSucceeds(old(State()), id, serviceId)
    {
      hide Arrive, ServeWaiter;
      var forWaiter := pending[id].forWaiter;
      if failed {
        permits := permits + 1;
        pending := pending - {id};
        if forWaiter {
          OnWaiterConnect(None);
        }
        return;
      }
      if closed {
        pending := pending - {id};
        return;
      }
      var connection := MakeConnection(id, serviceId);
      if forWaiter {
        OnWaiterConnect(Some(connection));
        return;
      }
      connections := connections + [connection];
      ticks := ticks + 1;
    }

    method MakeConnection(id: nat, serviceId: Option<nat>) returns (connection: Conn)
      requires id in pending
      modifies `pending, `serviceGenerations
      ensures (State(), connection) == Arrive(old(State()), id, serviceId)
    {
      connection := Conn(id, pending[id].generation, serviceId);
      pending := pending - {id};
      if options.loadBalanced && serviceId.Some? {
        var sid := serviceId.value;
        if sid in serviceGenerations && serviceGenerations[sid] != 0 {
          connection := connection.(generation := serviceGenerations[sid]);
        } else {
          serviceGenerations := serviceGenerations[sid := 0];
          connection := connection.(generation := 0);
        }
        assert serviceGenerations == old(serviceGenerations)[sid := connection.generation];
      }
    }

    method OnWaiterConnect(connection: Option<Conn>)
      modifies `waitQueue, `connections, `processingWaitQueue, `leased, `answers, `ticks
      ensures State() == ServeWaiter(old(State()), connection)
    {
      var member: Option<Waiter> := None;
      if |waitQueue| > 0 {
        member := Some(waitQueue[0]);
        waitQueue := waitQueue[1..];
      }
      if member.None? || member.value.cancelled {
        if connection.Some? {
          connections := connections + [connection.value];
        }
        processingWaitQueue := false;
        return;
      }
      if connection.Some? {
        leased := leased[connection.value.id := connection.value];
        answers := answers + [Answer(member.value.id, Granted(connection.value.id))];
      } else {
        answers := answers + [Answer(member.value.id, ConnectFailed)];
      }
      processingWaitQueue := false;
      ticks := ticks + 1;
    }

    method ProcessWaitQueueNow(perished: set<nat>)
      modifies this
      ensures State() == ProcessWaitQueue(old(State()), perished)
    {
      if closed || processingWaitQueue {
        return;
      }
      processingWaitQueue := true;
      DispatchNow(perished);
      if |waitQueue| > 0
         && (options.maxPoolSize == 0 || |connections| + (options.maxPoolSize - permits) < options.maxPoolSize) {
        DispatchFlag(old(State()), perished);
        CreateConnection(true);
      } else {
        DispatchFlag(old(State()), perished);
        processingWaitQueue := false;
      }
    }

    method DispatchNow(perished: set<nat>)
      modifies `waitQueue, `connections, `leased, `answers, `permits
      ensures State() == Dispatch(old(State()), perished)
    {
      hide IsStale;
      while |waitQueue| > 0
        invariant Dispatch(State(), perished) == old(Dispatch(State(), perished))
        decreases |waitQueue| + |connections|
      {
        var member := waitQueue[0];
        if member.cancelled {
          waitQueue := waitQueue[1..];
          continue;
        }
        if |connections| == 0 {
          break;
        }
        OfferConnection(perished);
      }
    }

    // The first idle connection goes to the waiter in front, or is destroyed.
    method OfferConnection(perished: set<nat>)
      requires |waitQueue| > 0 && !waitQueue[0].cancelled && |connections| > 0
      modifies `waitQueue, `connections, `leased, `answers, `permits
      ensures Dispatch(State(), perished) == old(Dispatch(State(), perished))
      ensures |connections| < old(|connections|) && |waitQueue| <= old(|waitQueue|)
    {
      hide IsStale;
      var member, connection := waitQueue[0], connections[0];
      var usable := !ConnectionIsStale(connection) && connection.id !in perished;
      connections := connections[1..];
      if usable {
        waitQueue := waitQueue[1..];
        leased := leased[connection.id := connection];
        answers := answers + [Answer(member.id, Granted(connection.id))];
      } else {
        DestroyConnection();
      }
    }

    method EnsureMinPoolSizeNow()
      modifies this
      ensures State() == EnsureMinPoolSize(old(State()))
    {
      if closed || options.minPoolSize == 0 {
        return;
      }
      var total := |connections| + (options.maxPoolSize - permits);
      var i := total;
      while i < options.minPoolSize
        invariant total <= i && (i <= options.minPoolSize || i == total)
        invariant State() == StartConnects(old(State()), i - total)
      {
        CreateConnection(false);
        i := i + 1;
      }
    }
  }

  // The flag `processing` plays no part in the dispatch loop.
  lemma {:induction false} DispatchFlag(p: Pool, perished: set<nat>)
    ensures Dispatch(p.(processing := true), perished) == Dispatch(p, perished).(processing := true)
    ensures Dispatch(p, perished).processing == p.processing
    decreases |p.waitQueue| + |p.connections|
  {
    if p.waitQueue != [] {
      if p.waitQueue[0].cancelled {
        DispatchFlag(p.(waitQueue := p.waitQueue[1..]), perished);
      } else if p.connections != [] {
        var c, w := p.connections[0], p.waitQueue[0];
        if !IsStale(p, c) && c.id !in perished {
          DispatchFlag(p.(connections := p.connections[1..], waitQueue := p.waitQueue[1..],
                          leased := p.leased[c.id := c],
                          answers := p.answers + [Answer(w.id, Granted(c.id))]), perished);
        } else {
          DispatchFlag(p.(connections := p.connections[1..], permits := p.permits + 1), perished);
        }
      }
    }
  }
}
