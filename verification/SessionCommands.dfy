/**
 What goes out for an operation and for the end of a transaction, and what is refused: counted
 over the attempts, from every state of the session.
 */
module SessionCommands {
  import opened Wrappers
  import opened Transactions
  import opened Sessions

  // ----- Starting and sending -----

  // A transaction starts exactly with support and while none is active; it takes a new number.
  lemma StartDecides(c: Client, support: Support)
    ensures var r := StartTransaction(c, support);
      && (r.Ok? <==> support.Supported? && !Active(c.state))
      && (r.Ok? ==> r.value == c.(increment := c.increment + 1, state := STARTING_TRANSACTION))
      && (r == Err(AlreadyInProgress) <==> Active(c.state) && !support.SnapshotSession?)
      && (r == Err(NotSupported) <==> support.SnapshotSession? || (support.OldShardedCluster? && !Active(c.state)))
  {
  }

  // A command of an ended session and an unacknowledged one of an explicit session are refused,
  // an unacknowledged one of an implicit session gets no fields, and any other gets them all.
  // But for an ended session a server session is taken in any case.
  lemma SendDecides(c: Client, held: Held, command: Command)
    requires c.server.Some? ==> c.server.value == held.id
    ensures var r := Apply(c, held, command).fields;
      && (r == Err(ExpiredSession) <==> c.hasEnded)
      && (r == Err(ExplicitUnacknowledged) <==> !c.hasEnded && command.unacknowledged && c.explicit)
      && (r == Ok(NoFields) <==> !c.hasEnded && command.unacknowledged && !c.explicit)
      && (!c.hasEnded && !command.unacknowledged ==> r.Ok? && r.value.Fields? && r.value.lsid == held.id)
      && Apply(c, held, command).client.server == (if c.hasEnded then c.server else Some(held.id))
  {
  }

  // A command outside of a transaction forgets one that is over; inside, it keeps it going.
  lemma SendLeaves(c: Client, held: Held, command: Command)
    requires (c.server.Some? ==> c.server.value == held.id) && !c.hasEnded && !command.unacknowledged
    ensures var a, ending := Apply(c, held, command), command.kind.CommitTransaction? || command.kind.AbortTransaction?;
      && (Active(c.state) ==> a.client.state == TRANSACTION_IN_PROGRESS)
      && (!Active(c.state) ==> a.client.state == if ending then c.state else NO_TRANSACTION)
      && (a.fields.value.txnNumber.Some? <==> Active(c.state) || ending || command.kind.RetryableWrite?)
      && (a.fields.value.startTransaction <==> c.state == STARTING_TRANSACTION)
  {
  }

  // ----- Operations -----

  // The operation may go out twice: a write or a read that can be retried, outside of a
  // transaction, where retries are on and the server knows them.
  predicate MayGoTwice(c: Client, q: Request)
  {
    && q.retryable && !Active(c.state)
    && ((q.writeAspect && q.retryWrites && q.supportsRetryableWrites && q.canRetryWrite)
        || (q.readAspect && q.retryReads && q.canRetryRead))
  }

  // The error asks for it, and a server is found that can take it.
  predicate FailureAllows(q: Request, failure: Failure, next: Reselection)
  {
    && failure.mongoError && next.selected
    && (q.writeAspect ==> failure.retryableWrite && !failure.noRetryableWrites && next.supportsRetryableWrites)
    && (q.readAspect ==> failure.retryableRead)
  }

  function Once(attempt: Attempt): nat
  {
    if attempt.reached then 1 else 0
  }

  // The commands that go out: none when the operation is refused, else one for each attempt
  // that reaches a connection, and there is a second attempt exactly when the operation may go
  // out twice and its first failure allows it.
  lemma CommandsSent(c: Client, held: Held, q: Request, first: Attempt, next: Reselection, second: Attempt)
    requires (c.server.Some? ==> c.server.value == held.id) && !(q.unacknowledged && c.explicit)
    ensures var t := Execute(c, held, q, first, next, second);
      var again := MayGoTwice(c, q) && first.failure.Some? && FailureAllows(q, first.failure.value, next);
      |t.sent| == if c.hasEnded || q.refused || !q.selected then 0
                  else Once(first) + (if again then Once(second) else 0)
  {
    hide Apply;
    if !(c.hasEnded || q.refused || !q.selected) {
      var command := Open(c, q).command;
      TwiceSent(Open(c, q).client, held, command, first, Open(c, q).attempts == 2 && first.failure.Some?
                && Retries(q, first.failure.value, next), second);
    }
  }

  lemma TrySends(c: Client, held: Held, command: Command, attempt: Attempt)
    requires (c.server.Some? ==> c.server.value == held.id) && !c.hasEnded && !(command.unacknowledged && c.explicit)
    ensures var t := Try(c, held, command, attempt);
      |t.sent| == Once(attempt) && !t.error && !t.client.hasEnded && t.client.explicit == c.explicit
  {
  }

  lemma TwiceSent(c: Client, held: Held, command: Command, first: Attempt, again: bool, second: Attempt)
    requires (c.server.Some? ==> c.server.value == held.id) && !c.hasEnded && !(command.unacknowledged && c.explicit)
    ensures var t := TryTwice(c, held, command, first, again, second);
      |t.sent| == Once(first) + (if again then Once(second) else 0) && !t.error
  {
    hide Try;
    TrySends(c, held, command, first);
    var one := Try(c, held, command, first);
    TrySends(one.client, Held(held.id, one.number), command, second);
  }

  // ----- The end of a transaction -----

  // A transaction of which the server knows needs a command to end it: one in progress, and
  // one that is committed again.
  predicate ServerKnows(state: TxnState, commit: bool)
  {
    state == TRANSACTION_IN_PROGRESS || (commit && state == TRANSACTION_COMMITTED)
  }

  // What is refused: there is no transaction, or it has ended the other way.
  function Refusal(state: TxnState, commit: bool): Option<SessionError>
  {
    match state
    case NO_TRANSACTION => Some(NoTransactionStarted)
    case TRANSACTION_ABORTED => Some(if commit then CommitAfterAbort else AbortTwice)
    case TRANSACTION_COMMITTED => if commit then None else Some(AbortAfterCommit)
    case TRANSACTION_COMMITTED_EMPTY => if commit then None else Some(AbortAfterCommit)
    case _ => None
  }

  // Which command it is: the one asked for, and acknowledged.
  lemma CommandNeeded(state: TxnState, commit: bool)
    ensures var e := EndTransaction(state, commit);
      && (e.NeedsCommand? <==> ServerKnows(state, commit))
      && (e.NeedsCommand? ==> e.command == Command(if commit then CommitTransaction else AbortTransaction, false))
      && (e.Refused? <==> Refusal(state, commit).Some?) && (e.Refused? ==> Refusal(state, commit) == Some(e.error))
  {
  }

  // Ending a transaction: its command goes out for each attempt that reaches a connection, the
  // second one exactly after a retryable error of the first; nothing goes out for a transaction
  // without commands. Afterwards it is over, unless ending it was refused.
  lemma EndSends(c: Client, held: Held, commit: bool, first: Attempt, second: Attempt)
    requires (c.server.Some? ==> c.server.value == held.id) && !c.hasEnded
    ensures var e := End(c, held, commit, first, second);
      var again := first.failure.Some? && first.failure.value.mongoError && first.failure.value.retryableWrite;
      && |e.sent| == (if ServerKnows(c.state, commit) then Once(first) + (if again then Once(second) else 0) else 0)
      && (forall f <- e.sent :: f.Fields? && f.lsid == held.id && f.txnNumber.Some? && !f.startTransaction)
      && e.error == Refusal(c.state, commit)
      && e.client.state ==
           if e.error.Some? then c.state
           else if !commit then TRANSACTION_ABORTED
           else if ServerKnows(c.state, commit) then TRANSACTION_COMMITTED else TRANSACTION_COMMITTED_EMPTY
  {
    hide Apply, TryTwice, Try;
    CommandNeeded(c.state, commit);
    if ServerKnows(c.state, commit) {
      var command := EndTransaction(c.state, commit).command;
      TwiceSent(c, held, command, first, SendsAgain(first), second);
      TwiceNumbered(c, held, command, first, SendsAgain(first), second);
    }
  }

  // A command that ends a transaction carries its number each time and leaves its state.
  lemma TryNumbered(c: Client, held: Held, command: Command, attempt: Attempt)
    requires (c.server.Some? ==> c.server.value == held.id) && !c.hasEnded && !command.unacknowledged
    requires command.kind.CommitTransaction? || command.kind.AbortTransaction?
    requires c.state == TRANSACTION_IN_PROGRESS || c.state == TRANSACTION_COMMITTED
    ensures var t := Try(c, held, command, attempt);
      && (forall f <- t.sent :: f.Fields? && f.lsid == held.id && f.txnNumber.Some? && !f.startTransaction)
      && t.client.state == c.state && !t.client.hasEnded && !t.error
  {
  }

  lemma TwiceNumbered(c: Client, held: Held, command: Command, first: Attempt, again: bool, second: Attempt)
    requires (c.server.Some? ==> c.server.value == held.id) && !c.hasEnded && !command.unacknowledged
    requires command.kind.CommitTransaction? || command.kind.AbortTransaction?
    requires c.state == TRANSACTION_IN_PROGRESS || c.state == TRANSACTION_COMMITTED
    ensures var t := TryTwice(c, held, command, first, again, second);
      && (forall f <- t.sent :: f.Fields? && f.lsid == held.id && f.txnNumber.Some? && !f.startTransaction)
      && t.client.state == c.state
  {
    hide Try;
    TryNumbered(c, held, command, first);
    var one := Try(c, held, command, first);
    TryNumbered(one.client, Held(held.id, one.number), command, second);
  }

  // Ending a session aborts a transaction that is active, with its command if the server knows
  // it, and marks the session ended; ending it again does nothing.
  lemma SessionEnds(c: Client, held: Held, first: Attempt, second: Attempt)
    requires c.server.Some? ==> c.server.value == held.id
    ensures var e := EndSession(c, held, first, second);
      var again := first.failure.Some? && first.failure.value.mongoError && first.failure.value.retryableWrite;
      && e.client.hasEnded && e.error == None
      && (c.hasEnded ==> e.client == c && e.sent == [])
      && (!c.hasEnded ==>
            && |e.sent| == (if c.state == TRANSACTION_IN_PROGRESS
                            then Once(first) + (if again then Once(second) else 0) else 0)
            && e.client.state == (if Active(c.state) then TRANSACTION_ABORTED else c.state))
  {
    hide End;
    if !c.hasEnded {
      EndSends(c, held, false, first, second);
    }
  }
}
