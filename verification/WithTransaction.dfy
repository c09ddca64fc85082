/**
 The convenient transaction: run a function inside a transaction and retry it, or only its
 commit, as long as the error and the clock allow (src/sessions.ts).
 */
module WithTransactions {
  import opened Wrappers
  import opened Transactions
  import opened Sessions

  const MAX_WITH_TRANSACTION_TIMEOUT: nat := 120000

  // What the retries look at in an error: whether it is the driver's, and its labels.
  datatype Error = Error(mongoError: bool, transient: bool, unknownCommitResult: bool, maxTimeMSExpired: bool)

  datatype Settled = Resolved | Rejected(error: Error) | NotAPromise

  // The function settles, having left the transaction in some state, or a commit command is
  // answered. elapsed is the time since the start when the clock is looked at.
  datatype Event =
    | Body(settled: Settled, state: TxnState, elapsed: nat)
    | Answered(error: Option<Error>, elapsed: nat)

  datatype Outcome =
    | Waiting | Returned | Threw(error: Error) | CommitRefused | InvalidFunction | NotStarted(why: SessionError)

  // retries counts what was started over, a transaction or a commit.
  datatype Ending = Ending(outcome: Outcome, state: TxnState, retries: nat)

  // The user ended the transaction inside the function.
  predicate UserEnded(state: TxnState)
  {
    state == NO_TRANSACTION || state == TRANSACTION_COMMITTED || state == TRANSACTION_ABORTED
  }

  predicate NotTimedOut(elapsed: nat)
  {
    elapsed < MAX_WITH_TRANSACTION_TIMEOUT
  }

  // An abort that is waited for leaves no active transaction.
  function Aborted(state: TxnState): TxnState
  {
    if Active(state) then TRANSACTION_ABORTED else state
  }

  function Attempt(state: TxnState, support: Support, events: seq<Event>, retries: nat): Ending
    decreases |events|, 1
  {
    var started := StartTransaction(Client(true, false, None, 0, state), support);
    if started.Err? then Ending(NotStarted(started.error), state, retries)
    else if events == [] || !events[0].Body? then Ending(Waiting, started.value.state, retries)
    else
      var after := events[0].state;
      match events[0].settled
      case NotAPromise =>
        Ending(InvalidFunction, if after == STARTING_TRANSACTION then TRANSACTION_ABORTED else after, retries)
      case Resolved =>
        if UserEnded(after) then Ending(Returned, after, retries)
        else AttemptCommit(after, support, events[1..], retries)
      case Rejected(error) =>
        if error.mongoError && error.transient && NotTimedOut(events[0].elapsed) then
          Attempt(Aborted(after), support, events[1..], retries + 1)
        else Ending(Threw(error), Aborted(after), retries)
  }

  function AttemptCommit(state: TxnState, support: Support, events: seq<Event>, retries: nat): Ending
    decreases |events|, 0
  {
    match EndTransaction(state, true)
    case Refused(_) => Ending(CommitRefused, state, retries)
    case AtOnce(next) => Ending(Returned, next, retries)
    case NeedsCommand(_) =>
      if events == [] || !events[0].Answered? then Ending(Waiting, state, retries)
      else if events[0].error.None? then Ending(Returned, TRANSACTION_COMMITTED, retries)
      else
        var error := events[0].error.value;
        if error.mongoError && NotTimedOut(events[0].elapsed) && !error.maxTimeMSExpired
           && (error.unknownCommitResult || error.transient)
        then
          if error.unknownCommitResult then AttemptCommit(TRANSACTION_COMMITTED, support, events[1..], retries + 1)
          else Attempt(TRANSACTION_COMMITTED, support, events[1..], retries + 1)
        else Ending(Threw(error), TRANSACTION_COMMITTED, retries)
  }

  method AttemptTransaction(session: ClientSession, support: Support, events: seq<Event>, soFar: nat)
    returns (outcome: Outcome, retries: nat)
    modifies session`txnNumberIncrement, session`transaction, session.transaction
    ensures Ending(outcome, session.transaction.state, retries)
      == Attempt(old(session.transaction.state), support, events, soFar)
    ensures session.transaction == old(session.transaction) || fresh(session.transaction)
    decreases |events|, 1
  {
    var error := session.Start(support);
    if error.Some? {
      return NotStarted(error.value), soFar;
    }
    if |events| == 0 || !events[0].Body? {
      return Waiting, soFar;
    }
    // What the function did to the transaction.
    session.transaction.state := events[0].state;
    match events[0].settled {
      case NotAPromise =>
        if session.transaction.state == STARTING_TRANSACTION {
          session.transaction.state := TRANSACTION_ABORTED;
        }
        return InvalidFunction, soFar;
      case Resolved =>
        if UserEnded(session.transaction.state) {
          return Returned, soFar;
        }
        outcome, retries := AttemptTransactionCommit(session, support, events[1..], soFar);
      case Rejected(e) =>
        if Active(session.transaction.state) {
          session.transaction.state := TRANSACTION_ABORTED;
        }
        if e.mongoError && e.transient && NotTimedOut(events[0].elapsed) {
          outcome, retries := AttemptTransaction(session, support, events[1..], soFar + 1);
        } else {
          outcome, retries := Threw(e), soFar;
        }
    }
  }

  method AttemptTransactionCommit(session: ClientSession, support: Support, events: seq<Event>, soFar: nat)
    returns (outcome: Outcome, retries: nat)
    modifies session`txnNumberIncrement, session`transaction, session.transaction
    ensures Ending(outcome, session.transaction.state, retries)
      == AttemptCommit(old(session.transaction.state), support, events, soFar)
    ensures session.transaction == old(session.transaction) || fresh(session.transaction)
    decreases |events|, 0
  {
    match EndTransaction(session.transaction.state, true) {
      case Refused(_) =>
        return CommitRefused, soFar;
      case AtOnce(next) =>
        session.transaction.state := next;
        return Returned, soFar;
      case NeedsCommand(_) =>
        if |events| == 0 || !events[0].Answered? {
          return Waiting, soFar;
        }
        session.transaction.state := TRANSACTION_COMMITTED;
        if events[0].error.None? {
          return Returned, soFar;
        }
        var error := events[0].error.value;
        if error.mongoError && NotTimedOut(events[0].elapsed) && !error.maxTimeMSExpired {
          if error.unknownCommitResult {
            outcome, retries := AttemptTransactionCommit(session, support, events[1..], soFar + 1);
            return;
          }
          if error.transient {
            outcome, retries := AttemptTransaction(session, support, events[1..], soFar + 1);
            return;
          }
        }
        outcome, retries := Threw(error), soFar;
    }
  }

  // ----- Main results -----

  predicate NoPromise(e: Event)
  {
    e.Body? && e.settled.NotAPromise?
  }

  // The function at position k is the first that returns no promise, and leaves this state.
  predicate BrokenAt(events: seq<Event>, k: nat, left: TxnState)
  {
    && k < |events| && NoPromise(events[k]) && events[k].state == left
    && (forall i :: 0 <= i < k ==> !NoPromise(events[i]))
  }

  // withTransaction is over, and whether it leaves a transaction active: never, but for a
  // function that returns no promise with its transaction in progress, as the abort that is
  // sent then is not waited for.
  ghost predicate LeavesNone(e: Ending, events: seq<Event>)
  {
    && (e.outcome.Returned? || e.outcome.Threw? || e.outcome.CommitRefused? ==> !Active(e.state))
    && (e.outcome.InvalidFunction? ==>
          exists k: nat, left :: BrokenAt(events, k, left) && (Active(e.state) <==> left == TRANSACTION_IN_PROGRESS))
  }

  lemma LeavesNoneAfter(e: Ending, events: seq<Event>)
    requires events != [] && LeavesNone(e, events[1..]) && !NoPromise(events[0])
    ensures LeavesNone(e, events)
  {
    if e.outcome.InvalidFunction? {
      var k: nat, left :| BrokenAt(events[1..], k, left) && (Active(e.state) <==> left == TRANSACTION_IN_PROGRESS);
      forall i | 0 <= i < k + 1
        ensures !NoPromise(events[i])
      {
        assert i > 0 ==> events[i] == events[1..][i - 1];
      }
      assert BrokenAt(events, k + 1, left);
    }
  }

  // A retry never finds its transaction still in progress, and when all is over none is, but
  // for the one case above.
  lemma {:induction false} RetriesStart(state: TxnState, support: Support, events: seq<Event>, retries: nat)
    requires !Active(state)
    ensures var e := Attempt(state, support, events, retries);
      && e.outcome != NotStarted(AlreadyInProgress) && e.outcome != NotStarted(IllegalTransition)
      && LeavesNone(e, events)
    decreases |events|, 1
  {
    hide LeavesNone;
    var e := Attempt(state, support, events, retries);
    if support.Supported? && events != [] && events[0].Body? {
      var after := events[0].state;
      match events[0].settled {
        case NotAPromise => BrokenLeaves(e, events);
        case Resolved =>
          if UserEnded(after) {
            Settles(e, events);
          } else {
            CommitRetriesStart(after, support, events[1..], retries);
            LeavesNoneAfter(e, events);
          }
        case Rejected(error) =>
          if error.mongoError && error.transient && NotTimedOut(events[0].elapsed) {
            RetriesStart(Aborted(after), support, events[1..], retries + 1);
            LeavesNoneAfter(e, events);
          } else {
            Settles(e, events);
          }
      }
    } else {
      Settles(e, events);
    }
  }

  lemma Settles(e: Ending, events: seq<Event>)
    requires !e.outcome.InvalidFunction?
    requires !(e.outcome.Waiting? || e.outcome.NotStarted?) ==> !Active(e.state)
    ensures LeavesNone(e, events)
  {
  }

  lemma BrokenLeaves(e: Ending, events: seq<Event>)
    requires events != [] && NoPromise(events[0]) && e.outcome.InvalidFunction?
    requires Active(e.state) <==> events[0].state == TRANSACTION_IN_PROGRESS
    ensures LeavesNone(e, events)
  {
    assert BrokenAt(events, 0, events[0].state);
  }

  lemma {:induction false} CommitRetriesStart(state: TxnState, support: Support, events: seq<Event>, retries: nat)
    ensures var e := AttemptCommit(state, support, events, retries);
      && e.outcome != NotStarted(AlreadyInProgress) && e.outcome != NotStarted(IllegalTransition)
      && LeavesNone(e, events)
    decreases |events|, 0
  {
    hide LeavesNone;
    var e := AttemptCommit(state, support, events, retries);
    if EndTransaction(state, true).NeedsCommand? && events != [] && events[0].Answered? && events[0].error.Some? {
      var error := events[0].error.value;
      if error.mongoError && NotTimedOut(events[0].elapsed) && !error.maxTimeMSExpired
         && (error.unknownCommitResult || error.transient)
      {
        CommitRetriesStart(TRANSACTION_COMMITTED, support, events[1..], retries + 1);
        RetriesStart(TRANSACTION_COMMITTED, support, events[1..], retries + 1);
        LeavesNoneAfter(e, events);
      } else {
        Settles(e, events);
      }
    } else {
      Settles(e, events);
    }
  }

  // A try is over when the function has failed or the commit is answered; a function that
  // succeeds leaves the commit to come.
  predicate EndsTry(e: Event)
  {
    e.Answered? || !e.settled.Resolved?
  }

  // The clock does not go back, and every try takes at least d milliseconds, the function and
  // its commit together.
  predicate Paced(events: seq<Event>, from: nat, d: nat)
    decreases |events|
  {
    events == [] ||
    (var e := events[0];
     if EndsTry(e) then e.elapsed >= from + d && Paced(events[1..], e.elapsed, d)
     else e.elapsed >= from && Paced(events[1..], from, d))
  }

  predicate Within(retries: nat, d: nat)
  {
    retries > 0 ==> retries * d < MAX_WITH_TRANSACTION_TIMEOUT
  }

  lemma {:induction false} AttemptsBounded(state: TxnState, support: Support, events: seq<Event>, retries: nat,
                                           from: nat, d: nat)
    requires Paced(events, from, d) && from >= retries * d && Within(retries, d)
    ensures Within(Attempt(state, support, events, retries).retries, d)
    ensures Within(AttemptCommit(state, support, events, retries).retries, d)
    decreases |events|
  {
    if events != [] {
      hide Within, EndTransaction, StartTransaction;
      var e := events[0];
      if EndsTry(e) {
        Later(events, from, d);
        OneMore(retries, from, e.elapsed, d);
        if NotTimedOut(e.elapsed) {
          var state' := if e.Body? then Aborted(e.state) else TRANSACTION_COMMITTED;
          AttemptsBounded(state', support, events[1..], retries + 1, e.elapsed, d);
        }
      } else {
        AttemptsBounded(e.state, support, events[1..], retries, from, d);
      }
    }
  }

  lemma OneMore(retries: nat, from: nat, at: nat, d: nat)
    requires from >= retries * d && at >= from + d
    ensures at >= retries * d && at >= (retries + 1) * d
    ensures NotTimedOut(at) ==> Within(retries + 1, d)
  {
  }

  lemma Later(events: seq<Event>, from: nat, d: nat)
    requires events != [] && EndsTry(events[0]) && Paced(events, from, d)
    ensures Paced(events[1..], events[0].elapsed, d)
  {
  }

  // With every try, function and commit together, taking at least d milliseconds there are at
  // most 120000 / d tries, rounded up, the first one included.
  lemma TriesBounded(state: TxnState, support: Support, events: seq<Event>, d: nat)
    requires d > 0 && Paced(events, 0, d)
    ensures Attempt(state, support, events, 0).retries + 1 <= (MAX_WITH_TRANSACTION_TIMEOUT + d - 1) / d
  {
    hide Attempt, Paced;
    AttemptsBounded(state, support, events, 0, 0, d);
    var n := Attempt(state, support, events, 0).retries;
    Rounded(n, d);
  }

  lemma Rounded(n: nat, d: nat)
    requires d > 0 && Within(n, d)
    ensures n + 1 <= (MAX_WITH_TRANSACTION_TIMEOUT + d - 1) / d
  {
    var q := (MAX_WITH_TRANSACTION_TIMEOUT + d - 1) / d;
    assert q * d + d > MAX_WITH_TRANSACTION_TIMEOUT + d - 1;
  }
}
