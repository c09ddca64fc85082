/**
 Client sessions, server sessions and their pool (src/sessions.ts), and the one place that
 hands out transaction numbers besides them (src/operations/execute_operation.ts).
 */
module Sessions {
  import opened Wrappers
  import opened Transactions

  // ----- The server session pool -----

  // What the pool sees when it is used: which server sessions have timed out, whether the
  // deployment is load balanced, whether it announced a session timeout, and whether the
  // session given back saw a network error.
  datatype Conditions<!T> = Conditions(timedOut: set<T>, loadBalanced: bool, timeoutKnown: bool, dirty: bool)

  // The first session that has not timed out, and what is left of the pool.
  function Acquire<T(==)>(pool: seq<T>, k: Conditions<T>): (Option<T>, seq<T>)
  {
    if pool == [] then (None, [])
    else if k.loadBalanced || pool[0] !in k.timedOut then (Some(pool[0]), pool[1..])
    else Acquire(pool[1..], k)
  }

  // The pool without the timed-out sessions at its end.
  function Pruned<T(==)>(pool: seq<T>, timedOut: set<T>): seq<T>
  {
    if pool != [] && pool[|pool| - 1] in timedOut then Pruned(pool[..|pool| - 1], timedOut) else pool
  }

  function Release<T(==)>(pool: seq<T>, session: T, k: Conditions<T>): seq<T>
  {
    if !k.timeoutKnown then if k.loadBalanced then [session] + pool else pool
    else
      var pruned := Pruned(pool, k.timedOut);
      if session in k.timedOut || k.dirty then pruned else [session] + pruned
  }

  class ServerSession {
    const id: nat
    var txnNumber: nat

    constructor (id: nat)
      ensures this.id == id && txnNumber == 0
    {
      this.id, txnNumber := id, 0;
    }
  }

  class ServerSessionPool {
    var sessions: seq<ServerSession>
    // How many server sessions have been created; the next one gets this id.
    var created: nat

    constructor ()
      ensures sessions == [] && created == 0
    {
      sessions, created := [], 0;
    }

    method AcquireSession(k: Conditions<ServerSession>) returns (session: ServerSession)
      modifies this
      ensures var (found, rest) := Acquire(old(sessions), k);
        && sessions == rest
        && (found.Some? ==> session == found.value && created == old(created))
        && (found.None? ==>
              fresh(session) && session.id == old(created) && session.txnNumber == 0 && created == old(created) + 1)
    {
      while |sessions| > 0
        invariant Acquire(sessions, k) == Acquire(old(sessions), k) && created == old(created)
        decreases |sessions|
      {
        session := sessions[0];
        sessions := sessions[1..];
        if k.loadBalanced || session !in k.timedOut {
          return;
        }
      }
      session := new ServerSession(created);
      created := created + 1;
    }

    method ReleaseSession(session: ServerSession, k: Conditions<ServerSession>)
      modifies `sessions
      ensures sessions == Release(old(sessions), session, k)
    {
      if k.loadBalanced && !k.timeoutKnown {
        sessions := [session] + sessions;
      }
      if !k.timeoutKnown {
        return;
      }
      while |sessions| > 0
        invariant Pruned(sessions, k.timedOut) == Pruned(old(sessions), k.timedOut)
        decreases |sessions|
      {
        if sessions[|sessions| - 1] in k.timedOut {
          sessions := sessions[..|sessions| - 1];
        } else {
          break;
        }
      }
      if session !in k.timedOut {
        if k.dirty {
          return;
        }
        sessions := [session] + sessions;
      }
    }
  }

  // ----- A client session -----

  // increment is what the next numbered command adds to the server session's number.
  datatype Client = Client(explicit: bool, hasEnded: bool, server: Option<nat>, increment: nat, state: TxnState)

  datatype Kind = Plain | RetryableWrite | CommitTransaction | AbortTransaction

  datatype Command = Command(kind: Kind, unacknowledged: bool)

  // The fields a session adds to a command.
  datatype Fields = NoFields | Fields(lsid: nat, txnNumber: Option<nat>, startTransaction: bool)

  datatype SessionError =
    | ExpiredSession
    | ExplicitUnacknowledged
    | IllegalTransition
    | NotSupported
    | AlreadyInProgress
    | NoTransactionStarted
    | CommitAfterAbort
    | AbortTwice
    | AbortAfterCommit

  datatype Applied = Applied(client: Client, number: nat, fields: Result<Fields, SessionError>)

  predicate InTransactionOrEndingIt(c: Client, command: Command)
  {
    Active(c.state) || command.kind.CommitTransaction? || command.kind.AbortTransaction?
  }

  predicate Numbered(c: Client, command: Command)
  {
    command.kind.RetryableWrite? || InTransactionOrEndingIt(c, command)
  }

  // A server session and its transaction number.
  datatype Held = Held(id: nat, txnNumber: nat)

  // A command gets the session's fields. held is the server session of the client session or,
  // when it has none yet, the one it gets from the pool.
  function Apply(c: Client, held: Held, command: Command): Applied
    requires c.server.Some? ==> c.server.value == held.id
  {
    if c.hasEnded then Applied(c, held.txnNumber, Err(ExpiredSession))
    else
      var o := c.(server := Some(held.id));
      if command.unacknowledged then
        Applied(o, held.txnNumber, if c.explicit then Err(ExplicitUnacknowledged) else Ok(NoFields))
      else
        var numbered := Numbered(c, command);
        var n := if numbered then held.txnNumber + c.increment else held.txnNumber;
        var d := if numbered then o.(increment := 0) else o;
        var next := StateAfter(c, command);
        if next.None? then Applied(d, n, Err(IllegalTransition))
        else
          Applied(d.(state := next.value), n,
                  Ok(Fields(held.id, if numbered then Some(n) else None, Starts(c, command))))
  }

  predicate Starts(c: Client, command: Command)
  {
    InTransactionOrEndingIt(c, command) && c.state == STARTING_TRANSACTION
  }

  function StateAfter(c: Client, command: Command): Option<TxnState>
  {
    if !InTransactionOrEndingIt(c, command) then
      if c.state == NO_TRANSACTION then Some(c.state) else Transition(c.state, NO_TRANSACTION)
    else if c.state == STARTING_TRANSACTION then Transition(c.state, TRANSACTION_IN_PROGRESS)
    else Some(c.state)
  }

  // Snapshot sessions have no transactions, and neither have sharded clusters that are too old.
  datatype Support = Supported | SnapshotSession | OldShardedCluster

  function StartTransaction(c: Client, support: Support): Result<Client, SessionError>
  {
    if support.SnapshotSession? then Err(NotSupported)
    else if Active(c.state) then Err(AlreadyInProgress)
    else if support.OldShardedCluster? then Err(NotSupported)
    else
      var next := Transition(NO_TRANSACTION, STARTING_TRANSACTION);
      if next.None? then Err(IllegalTransition) else Ok(c.(increment := c.increment + 1, state := next.value))
  }

  // Ending a transaction fails, is done at once, or needs the command.
  datatype Ending = Refused(error: SessionError) | AtOnce(state: TxnState) | NeedsCommand(command: Command)

  function EndAt(state: TxnState, next: TxnState): Ending
  {
    var t := Transition(state, next);
    if t.Some? then AtOnce(t.value) else Refused(IllegalTransition)
  }

  function EndTransaction(state: TxnState, commit: bool): Ending
  {
    if state == NO_TRANSACTION then Refused(NoTransactionStarted)
    else if commit then
      if state == STARTING_TRANSACTION || state == TRANSACTION_COMMITTED_EMPTY then
        EndAt(state, TRANSACTION_COMMITTED_EMPTY)
      else if state == TRANSACTION_ABORTED then Refused(CommitAfterAbort)
      else NeedsCommand(Command(CommitTransaction, false))
    else
      if state == STARTING_TRANSACTION then EndAt(state, TRANSACTION_ABORTED)
      else if state == TRANSACTION_ABORTED then Refused(AbortTwice)
      else if state == TRANSACTION_COMMITTED || state == TRANSACTION_COMMITTED_EMPTY then Refused(AbortAfterCommit)
      else NeedsCommand(Command(AbortTransaction, false))
  }

  // ----- Operations and their one retry -----

  // refused: a read preference other than primary in a transaction; selected: a server was found.
  datatype Request = Request(
    refused: bool, selected: bool, retryable: bool, readAspect: bool, writeAspect: bool, retryReads: bool,
    retryWrites: bool,
    supportsRetryableWrites: bool, canRetryRead: bool, canRetryWrite: bool, unacknowledged: bool)

  datatype Opening = Failed | Opening(client: Client, command: Command, attempts: nat)

  predicate WillRetryRead(c: Client, q: Request)
  {
    q.retryable && q.readAspect && q.retryReads && !Active(c.state) && q.canRetryRead
  }

  predicate WillRetryWrite(c: Client, q: Request)
  {
    q.retryable && q.writeAspect && q.retryWrites && !Active(c.state) && q.supportsRetryableWrites && q.canRetryWrite
  }

  // A write that may be retried reserves a new number; it and a read may go out twice.
  function Open(c: Client, q: Request): (o: Opening)
    ensures o.Opening? ==> o.client.server == c.server && !c.hasEnded && !o.client.hasEnded && 1 <= o.attempts <= 2
  {
    if c.hasEnded || q.refused || !q.selected then Failed
    else if WillRetryWrite(c, q) then
      Opening(c.(increment := c.increment + 1), Command(RetryableWrite, q.unacknowledged), 2)
    else
      Opening(c, Command(Plain, q.unacknowledged), if WillRetryRead(c, q) then 2 else 1)
  }

  datatype Failure = Failure(mongoError: bool, noRetryableWrites: bool, retryableWrite: bool, retryableRead: bool)

  // How an attempt went: whether it reached a connection, and its error.
  datatype Attempt = Attempt(reached: bool, failure: Option<Failure>)

  // After a failed first attempt: whether a server was found again, and one that can retry.
  datatype Reselection = Reselection(selected: bool, supportsRetryableWrites: bool)

  predicate Retries(q: Request, failure: Failure, next: Reselection)
  {
    && failure.mongoError
    && (q.writeAspect ==> !failure.noRetryableWrites && failure.retryableWrite)
    && (q.readAspect ==> failure.retryableRead)
    && next.selected && (q.writeAspect ==> next.supportsRetryableWrites)
  }

  datatype Tried = Tried(client: Client, number: nat, sent: seq<Fields>, error: bool)

  function Try(c: Client, held: Held, command: Command, attempt: Attempt): (t: Tried)
    requires c.server.Some? ==> c.server.value == held.id
    ensures t.client.server.Some? ==> t.client.server.value == held.id
  {
    if !attempt.reached then Tried(c, held.txnNumber, [], false)
    else
      var applied := Apply(c, held, command);
      Tried(applied.client, applied.number,
            if applied.fields.Ok? then [applied.fields.value] else [], applied.fields.Err?)
  }

  // A command goes out and, if its failure allows it, once more.
  function TryTwice(c: Client, held: Held, command: Command, first: Attempt, again: bool, second: Attempt): (t: Tried)
    requires c.server.Some? ==> c.server.value == held.id
    ensures t.client.server.Some? ==> t.client.server.value == held.id
  {
    var one := Try(c, held, command, first);
    if one.error || !again then one
    else
      var two := Try(one.client, Held(held.id, one.number), command, second);
      two.(sent := one.sent + two.sent)
  }

  // An operation goes out at most twice.
  function Execute(c: Client, held: Held, q: Request, first: Attempt, next: Reselection, second: Attempt): Tried
    requires c.server.Some? ==> c.server.value == held.id
  {
    match Open(c, q)
    case Failed => Tried(c, held.txnNumber, [], true)
    case Opening(d, command, attempts) =>
      TryTwice(d, held, command, first,
               attempts == 2 && first.failure.Some? && Retries(q, first.failure.value, next), second)
  }

  class ClientSession {
    const explicit: bool
    const sessionPool: ServerSessionPool
    var hasEnded: bool
    var serverSession: ServerSession?
    var txnNumberIncrement: nat
    var transaction: Transaction

    ghost function Value(): Client
      reads this, transaction
    {
      Client(explicit, hasEnded, if serverSession == null then None else Some(serverSession.id), txnNumberIncrement,
        transaction.state)
    }

    // The server session a command may use: the one held, or any of the pool's.
    ghost function Servers(): set<ServerSession>
      reads this, sessionPool
    {
      if serverSession == null then (set s | s in sessionPool.sessions) else {serverSession}
    }

    // The server session is there from the start, or until the first command there is none.
    ghost predicate Valid()
      reads this
    {
      serverSession == null ==> !explicit
    }

    constructor (explicit: bool, sessionPool: ServerSessionPool, k: Conditions<ServerSession>)
      modifies sessionPool
      ensures Valid() && fresh(transaction) && this.explicit == explicit && this.sessionPool == sessionPool
      ensures !hasEnded && txnNumberIncrement == 0 && transaction.state == NO_TRANSACTION
      ensures !explicit ==>
        serverSession == null && sessionPool.sessions == old(sessionPool.sessions)
          && sessionPool.created == old(sessionPool.created)
      ensures explicit ==>
        && serverSession != null
        && Acquired(serverSession, k, old(sessionPool.sessions), old(sessionPool.created), sessionPool.sessions,
                    sessionPool.created)
    {
      this.explicit, this.sessionPool := explicit, sessionPool;
      hasEnded, txnNumberIncrement, serverSession := false, 0, null;
      transaction := new Transaction();
      new;
      if explicit {
        ghost var pooled := sessionPool.sessions;
        assert pooled == old(sessionPool.sessions);
        serverSession := sessionPool.AcquireSession(k);
        assert Acquire(pooled, k).0.None? ==> serverSession.id == old(sessionPool.created);
      }
    }

    // What acquiring does to the pool.
    static ghost predicate Acquired(
      session: ServerSession, k: Conditions<ServerSession>, before: seq<ServerSession>, created: nat,
      after: seq<ServerSession>, createdAfter: nat)
    {
      var (found, rest) := Acquire(before, k);
      after == rest && if found.Some? then session == found.value && createdAfter == created
                       else session.id == created && createdAfter == created + 1
    }

    method IncrementTransactionNumber()
      modifies `txnNumberIncrement
      ensures txnNumberIncrement == old(txnNumberIncrement) + 1
    {
      txnNumberIncrement := txnNumberIncrement + 1;
    }

    method Start(support: Support) returns (error: Option<SessionError>)
      modifies `txnNumberIncrement, `transaction
      ensures match StartTransaction(old(Value()), support)
              case Ok(c) => error == None && Value() == c && fresh(transaction)
              case Err(e) => error == Some(e) && Value() == old(Value()) && transaction == old(transaction)
    {
      if support.SnapshotSession? {
        return Some(NotSupported);
      }
      if Active(transaction.state) {
        return Some(AlreadyInProgress);
      }
      if support.OldShardedCluster? {
        return Some(NotSupported);
      }
      IncrementTransactionNumber();
      transaction := new Transaction();
      var legal := transaction.TransitionTo(STARTING_TRANSACTION);
      error := None;
    }

    // The server session held, acquired now if there is none.
    method Server(k: Conditions<ServerSession>) returns (server: ServerSession)
      requires Valid()
      modifies `serverSession, if serverSession == null then {sessionPool} else {}
      ensures Valid() && server == serverSession
      ensures old(serverSession) != null ==>
        && serverSession == old(serverSession)
        && sessionPool.sessions == old(sessionPool.sessions) && sessionPool.created == old(sessionPool.created)
      ensures old(serverSession) == null ==>
        && Acquired(server, k, old(sessionPool.sessions), old(sessionPool.created), sessionPool.sessions,
                    sessionPool.created)
        && (server in old(sessionPool.sessions) || (fresh(server) && server.txnNumber == 0))
      ensures forall x :: x in sessionPool.sessions ==> x in old(sessionPool.sessions)
    {
      if serverSession == null {
        AcquiredFrom(sessionPool.sessions, k);
        serverSession := sessionPool.AcquireSession(k);
      }
      server := serverSession;
    }

    // The session decorates a command that goes out on a connection.
    method ApplySession(command: Command, k: Conditions<ServerSession>)
      returns (r: Result<Fields, SessionError>, ghost held: Held)
      requires Valid()
      modifies `serverSession, `txnNumberIncrement, transaction, Servers(),
        if serverSession == null then {sessionPool} else {}
      ensures Valid()
      ensures old(serverSession) != null ==> held == Held(old(serverSession.id), old(serverSession.txnNumber))
      ensures old(serverSession) == null && serverSession != null ==>
        var server: ServerSession := serverSession;
        held.txnNumber == if server in old(sessionPool.sessions) then old(server.txnNumber) else 0
      ensures !hasEnded ==> serverSession != null && (old(serverSession) == null ==>
        && Acquired(serverSession, k, old(sessionPool.sessions), old(sessionPool.created), sessionPool.sessions,
                    sessionPool.created)
        && (serverSession in old(sessionPool.sessions) || fresh(serverSession)))
      ensures old(serverSession) != null || hasEnded ==> serverSession == old(serverSession)
      ensures forall x :: x in sessionPool.sessions ==> x in old(sessionPool.sessions)
      ensures var applied := Apply(old(Value()), held, command);
        && r == applied.fields && Value() == applied.client
        && (serverSession != null ==> serverSession.id == held.id && serverSession.txnNumber == applied.number)
    {
      if hasEnded {
        held := if serverSession == null then Held(0, 0) else Held(serverSession.id, serverSession.txnNumber);
        return Err(ExpiredSession), held;
      }
      var server := Server(k);
      held := Held(server.id, server.txnNumber);
      if command.unacknowledged {
        return if explicit then Err(ExplicitUnacknowledged) else Ok(NoFields), held;
      }
      var inTxnOrTxnCommand :=
        Active(transaction.state) || command.kind.CommitTransaction? || command.kind.AbortTransaction?;
      var txnNumber := None;
      if command.kind.RetryableWrite? || inTxnOrTxnCommand {
        server.txnNumber := server.txnNumber + txnNumberIncrement;
        txnNumberIncrement := 0;
        txnNumber := Some(server.txnNumber);
      }
      var starting := false;
      var legal := true;
      if !inTxnOrTxnCommand {
        if transaction.state != NO_TRANSACTION {
          legal := transaction.TransitionTo(NO_TRANSACTION);
        }
      } else if transaction.state == STARTING_TRANSACTION {
        legal := transaction.TransitionTo(TRANSACTION_IN_PROGRESS);
        starting := true;
      }
      r := if legal then Ok(Fields(server.id, txnNumber, starting)) else Err(IllegalTransition);
    }
  }

  // One attempt: the command is decorated when it reaches a connection.
  method TryOnce(session: ClientSession, command: Command, attempt: Attempt, k: Conditions<ServerSession>)
    returns (sent: seq<Fields>, thrown: bool, ghost held: Held)
    requires session.Valid()
    modifies session`serverSession, session`txnNumberIncrement, session.transaction, session.Servers()
    modifies if session.serverSession == null then {session.sessionPool} else {}
    ensures session.Valid()
    ensures old(session.serverSession) != null ==>
      && session.serverSession == old(session.serverSession)
      && held == Held(old(session.serverSession.id), old(session.serverSession.txnNumber))
    ensures session.serverSession == null || session.serverSession == old(session.serverSession)
      || session.serverSession in old(session.sessionPool.sessions) || fresh(session.serverSession)
    ensures forall x :: x in session.sessionPool.sessions ==> x in old(session.sessionPool.sessions)
    ensures session.serverSession == null ==> !attempt.reached || session.hasEnded
    ensures !attempt.reached ==>
      && unchanged(session.sessionPool)
      && forall x <- old(session.sessionPool.sessions) :: unchanged(x)
    ensures old(session.serverSession) == null && session.serverSession != null ==>
      var server: ServerSession, pool := session.serverSession, session.sessionPool;
      && ClientSession.Acquired(server, k, old(pool.sessions), old(pool.created), pool.sessions, pool.created)
      && held.txnNumber == if server in old(pool.sessions) then old(server.txnNumber) else 0
    ensures var t := Try(old(session.Value()), held, command, attempt);
      sent == t.sent && thrown == t.error && session.Value() == t.client
      && (session.serverSession != null ==>
         session.serverSession.id == held.id && session.serverSession.txnNumber == t.number)
  {
    hide Apply, Acquire;
    held := if session.serverSession == null then Held(0, 0)
      else Held(session.serverSession.id, session.serverSession.txnNumber);
    sent, thrown := [], false;
    if attempt.reached {
      var r;
      r, held := session.ApplySession(command, k);
      sent, thrown := if r.Ok? then [r.value] else [], r.Err?;
    }
  }

  method TryOneOrTwo(
    session: ClientSession, command: Command, first: Attempt, mayRetry: bool, second: Attempt,
    k: Conditions<ServerSession>)
    returns (sent: seq<Fields>, ghost held: Held)
    requires session.Valid() && !session.hasEnded
    modifies session`serverSession, session`txnNumberIncrement, session.transaction, session.Servers()
    modifies if session.serverSession == null then {session.sessionPool} else {}
    ensures session.Valid()
    ensures old(session.serverSession) != null ==>
      && session.serverSession == old(session.serverSession)
      && held == Held(old(session.serverSession.id), old(session.serverSession.txnNumber))
    ensures old(session.serverSession) == null && session.serverSession != null ==>
      var server: ServerSession, pool := session.serverSession, session.sessionPool;
      && ClientSession.Acquired(server, k, old(pool.sessions), old(pool.created), pool.sessions, pool.created)
      && held.txnNumber == if server in old(pool.sessions) then old(server.txnNumber) else 0
    ensures var t := TryTwice(old(session.Value()), held, command, first, mayRetry, second);
      sent == t.sent && session.Value() == t.client
      && (session.serverSession != null ==>
         session.serverSession.id == held.id && session.serverSession.txnNumber == t.number)
  {
    hide Apply, Acquire, ClientSession.Acquired;
    var thrown;
    sent, thrown, held := TryOnce(session, command, first, k);
    if !thrown && mayRetry {
      var again;
      ghost var got, heldThen := session.serverSession != null, held;
      again, thrown, heldThen := TryOnce(session, command, second, k);
      if !got {
        held := heldThen;
      }
      sent := sent + again;
    }
  }

  // Whether the operation can go out, how often, and the number a retryable write reserves.
  method OpenOperation(session: ClientSession, q: Request) returns (command: Command, attempts: nat)
    modifies session`txnNumberIncrement
    ensures match Open(old(session.Value()), q)
            case Failed => attempts == 0 && session.Value() == old(session.Value())
            case Opening(d, c, n) => attempts == n > 0 && command == c && session.Value() == d
  {
    command, attempts := Command(Plain, q.unacknowledged), 0;
    if session.hasEnded || q.refused || !q.selected {
      return;
    }
    attempts := 1;
    if q.retryable {
      var inTransaction := Active(session.transaction.state);
      var willRetryRead := q.retryReads && !inTransaction && q.canRetryRead;
      var willRetryWrite := q.retryWrites && !inTransaction && q.supportsRetryableWrites && q.canRetryWrite;
      if (q.readAspect && willRetryRead) || (q.writeAspect && willRetryWrite) {
        if q.writeAspect && willRetryWrite {
          command := Command(RetryableWrite, q.unacknowledged);
          session.IncrementTransactionNumber();
        }
        attempts := 2;
      }
    }
  }

  // The first attempt and at most one more (src/operations/execute_operation.ts).
  method ExecuteWithServerSelection(
    session: ClientSession, q: Request, first: Attempt, next: Reselection, second: Attempt,
    k: Conditions<ServerSession>) returns (sent: seq<Fields>, ghost held: Held)
    requires session.Valid()
    modifies session`serverSession, session`txnNumberIncrement, session.transaction, session.Servers()
    modifies if session.serverSession == null then {session.sessionPool} else {}
    ensures session.Valid()
    ensures old(session.serverSession) != null ==>
      held == Held(old(session.serverSession.id), old(session.serverSession.txnNumber))
    ensures old(session.serverSession) == null && session.serverSession != null ==>
      var server: ServerSession, pool := session.serverSession, session.sessionPool;
      && ClientSession.Acquired(server, k, old(pool.sessions), old(pool.created), pool.sessions, pool.created)
      && held.txnNumber == if server in old(pool.sessions) then old(server.txnNumber) else 0
    ensures var t := Execute(old(session.Value()), held, q, first, next, second);
      sent == t.sent && session.Value() == t.client
      && (session.serverSession != null ==>
         session.serverSession.id == held.id && session.serverSession.txnNumber == t.number)
  {
    hide Try, TryTwice, Open, Acquire, Retries, ClientSession.Acquired;
    held := if session.serverSession == null then Held(0, 0)
      else Held(session.serverSession.id, session.serverSession.txnNumber);
    sent := [];
    var command, attempts := OpenOperation(session, q);
    if attempts > 0 {
      sent, held := TryOneOrTwo(session, command, first,
        attempts == 2 && first.failure.Some? && Retries(q, first.failure.value, next), second, k);
    }
  }

  // ----- Ending a transaction and a session -----

  // When the command of a commit or abort is answered, whatever the answer is.
  function Closed(c: Client, commit: bool): Option<Client>
  {
    var next := Transition(c.state, if commit then TRANSACTION_COMMITTED else TRANSACTION_ABORTED);
    if next.Some? then Some(c.(state := next.value)) else None
  }

  predicate SendsAgain(attempt: Attempt)
  {
    attempt.failure.Some? && attempt.failure.value.mongoError && attempt.failure.value.retryableWrite
  }

  datatype Ended = Ended(client: Client, number: nat, sent: seq<Fields>, error: Option<SessionError>)

  // A commit or abort with its command, which goes out once more after a retryable error. An
  // ended session sends nothing.
  function End(c: Client, held: Held, commit: bool, first: Attempt, second: Attempt): Ended
    requires c.server.Some? ==> c.server.value == held.id
  {
    match EndTransaction(c.state, commit)
    case Refused(error) => Ended(c, held.txnNumber, [], Some(error))
    case AtOnce(state) => Ended(c.(state := state), held.txnNumber, [], None)
    case NeedsCommand(command) =>
      var last :=
        if c.hasEnded then Tried(c, held.txnNumber, [], true)
        else TryTwice(c, held, command, first, SendsAgain(first), second);
      var closed := Closed(last.client, commit);
      if closed.None? then Ended(last.client, last.number, last.sent, Some(IllegalTransition))
      else Ended(closed.value, last.number, last.sent, None)
  }

  method EndTransactionNow(
    session: ClientSession, commit: bool, first: Attempt, second: Attempt, k: Conditions<ServerSession>)
    returns (sent: seq<Fields>, error: Option<SessionError>, ghost held: Held)
    requires session.Valid()
    modifies session`serverSession, session`txnNumberIncrement, session.transaction, session.Servers()
    modifies if session.serverSession == null then {session.sessionPool} else {}
    ensures session.Valid()
    ensures old(session.serverSession) != null ==>
      && session.serverSession == old(session.serverSession)
      && held == Held(old(session.serverSession.id), old(session.serverSession.txnNumber))
    ensures old(session.serverSession) == null && session.serverSession != null ==>
      var server: ServerSession, pool := session.serverSession, session.sessionPool;
      && ClientSession.Acquired(server, k, old(pool.sessions), old(pool.created), pool.sessions, pool.created)
      && held.txnNumber == if server in old(pool.sessions) then old(server.txnNumber) else 0
    ensures var e := End(old(session.Value()), held, commit, first, second);
      && sent == e.sent && error == e.error && session.Value() == e.client
      && (session.serverSession != null ==>
         session.serverSession.id == held.id && session.serverSession.txnNumber == e.number)
  {
    hide TryTwice, Acquire, ClientSession.Acquired, NextStates;
    held := if session.serverSession == null then Held(0, 0)
      else Held(session.serverSession.id, session.serverSession.txnNumber);
    sent, error := [], None;
    match EndTransaction(session.transaction.state, commit) {
      case Refused(e) =>
        error := Some(e);
      case AtOnce(state) =>
        session.transaction.state := state;
      case NeedsCommand(command) =>
        if !session.hasEnded {
          sent, held := TryOneOrTwo(session, command, first, SendsAgain(first), second, k);
        }
        var legal := session.transaction.TransitionTo(if commit then TRANSACTION_COMMITTED else TRANSACTION_ABORTED);
        error := if legal then None else Some(IllegalTransition);
    }
  }

  // An active transaction is aborted first; then the server session goes back to the pool.
  function EndSession(c: Client, held: Held, first: Attempt, second: Attempt): Ended
    requires c.server.Some? ==> c.server.value == held.id
  {
    if c.hasEnded then Ended(c, held.txnNumber, [], None)
    else
      var e := if Active(c.state) then End(c, held, false, first, second) else Ended(c, held.txnNumber, [], None);
      if e.error.Some? then e else e.(client := e.client.(hasEnded := true))
  }

  method EndSessionNow(session: ClientSession, first: Attempt, second: Attempt, k: Conditions<ServerSession>)
    returns (sent: seq<Fields>, error: Option<SessionError>, ghost held: Held, ghost pooled: seq<ServerSession>)
    requires session.Valid()
    modifies session, session.transaction, session.Servers(), session.sessionPool
    ensures session.Valid()
    ensures old(session.serverSession) != null ==>
      && session.serverSession == old(session.serverSession) && pooled == old(session.sessionPool.sessions)
      && held == Held(old(session.serverSession.id), old(session.serverSession.txnNumber))
    ensures old(session.serverSession) == null && session.serverSession != null ==>
      var server: ServerSession := session.serverSession;
      held.txnNumber == if server in old(session.sessionPool.sessions) then old(server.txnNumber) else 0
    ensures var e := EndSession(old(session.Value()), held, first, second);
      && sent == e.sent && error == e.error && session.Value() == e.client
      && (session.serverSession != null ==>
         session.serverSession.id == held.id && session.serverSession.txnNumber == e.number)
    ensures session.sessionPool.sessions ==
      if !old(session.hasEnded) && session.hasEnded && session.serverSession != null
      then Release(pooled, session.serverSession, k) else pooled
  {
    hide End, Release, Acquire;
    held := if session.serverSession == null then Held(0, 0)
      else Held(session.serverSession.id, session.serverSession.txnNumber);
    sent, error, pooled := [], None, session.sessionPool.sessions;
    if session.hasEnded {
      return;
    }
    if Active(session.transaction.state) {
      sent, error, held := EndTransactionNow(session, false, first, second, k);
      pooled := session.sessionPool.sessions;
      if error.Some? {
        return;
      }
    }
    if session.serverSession != null {
      session.sessionPool.ReleaseSession(session.serverSession, k);
    }
    session.hasEnded := true;
  }

  lemma AcquiredFrom<T>(pool: seq<T>, k: Conditions<T>)
    ensures Acquire(pool, k).0.Some? ==> Acquire(pool, k).0.value in pool
    ensures forall x :: x in Acquire(pool, k).1 ==> x in pool
  {
  }
}
