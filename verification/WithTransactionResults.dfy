/**
 What withTransaction reports, read off the events alone: which of them it goes on after, which
 one ends it, and with what outcome.
 */
module WithTransactionResults {
  import opened Wrappers
  import opened Transactions
  import Sessions
  import opened WithTransactions

  // An error after which the function is run again, or the commit repeated: the driver's, with
  // the right label, before the time is up, and for a commit not a time limit of the server's.
  predicate MayRunAgain(error: Error, elapsed: nat)
  {
    error.mongoError && error.transient && elapsed < 120000
  }

  predicate MayCommitAgain(error: Error, elapsed: nat)
  {
    error.mongoError && (error.unknownCommitResult || error.transient) && !error.maxTimeMSExpired && elapsed < 120000
  }

  // A function that succeeded with its transaction in progress is followed by the commit; an
  // error that allows it, by a retry.
  predicate GoesOn(e: Event)
  {
    match e
    case Body(Resolved, state, _) => state == TRANSACTION_IN_PROGRESS
    case Body(Rejected(error), _, elapsed) => MayRunAgain(error, elapsed)
    case Body(NotAPromise, _, _) => false
    case Answered(error, elapsed) => error.Some? && MayCommitAgain(error.value, elapsed)
  }

  // The commit is sent next, not the function run.
  predicate CommitFollows(e: Event)
  {
    match e
    case Body(settled, _, _) => settled.Resolved?
    case Answered(error, _) => error.Some? && error.value.unknownCommitResult
  }

  // Event i is of the kind that is waited for; `commit` says what is waited for at first.
  predicate Awaited(events: seq<Event>, i: nat, commit: bool)
    requires i < |events|
  {
    events[i].Answered? <==> if i == 0 then commit else CommitFollows(events[i - 1])
  }

  // withTransaction goes on after each of the first n events, and event n, also awaited, ends it.
  predicate EndsAt(events: seq<Event>, n: nat, commit: bool)
  {
    && n < |events| && Awaited(events, n, commit) && !GoesOn(events[n])
    && (forall i :: 0 <= i < n ==> Awaited(events, i, commit) && GoesOn(events[i]))
  }

  // A commit that succeeded, or a function that ended its transaction itself or never used it.
  predicate Succeeds(e: Event)
  {
    match e
    case Body(settled, state, _) => settled.Resolved? && state != TRANSACTION_IN_PROGRESS
    case Answered(error, _) => error.None?
  }

  function ErrorOf(e: Event): Option<Error>
  {
    match e
    case Body(Rejected(error), _, _) => Some(error)
    case Body(_, _, _) => None
    case Answered(error, _) => error
  }

  function Verdict(e: Event): Outcome
  {
    if Succeeds(e) then Returned
    else if ErrorOf(e).Some? then Threw(ErrorOf(e).value)
    else InvalidFunction
  }

  // The state of the transaction after the last event.
  function Left(e: Event): TxnState
  {
    match e
    case Answered(_, _) => TRANSACTION_COMMITTED
    case Body(Resolved, state, _) => if state == STARTING_TRANSACTION then TRANSACTION_COMMITTED_EMPTY else state
    case Body(Rejected(_), state, _) => if Active(state) then TRANSACTION_ABORTED else state
    case Body(NotAPromise, state, _) => if state == STARTING_TRANSACTION then TRANSACTION_ABORTED else state
  }

  // What was started over: every event that does not come before a first commit.
  function Retried(events: seq<Event>): nat
  {
    if events == [] then 0
    else (if events[0].Body? && events[0].settled.Resolved? then 0 else 1) + Retried(events[1..])
  }

  // What the commit begins with.
  predicate Committing(state: TxnState)
  {
    state == TRANSACTION_IN_PROGRESS || state == TRANSACTION_COMMITTED
  }

  lemma EndsLater(events: seq<Event>, n: nat, commit: bool)
    requires events != [] && GoesOn(events[0]) && Awaited(events, 0, commit)
    ensures EndsAt(events, n + 1, commit) <==> EndsAt(events[1..], n, CommitFollows(events[0]))
    ensures !EndsAt(events, 0, commit)
  {
    var rest := events[1..];
    forall i | 0 <= i < |rest|
      ensures Awaited(rest, i, CommitFollows(events[0])) <==> Awaited(events, i + 1, commit)
    {
    }
    if EndsAt(rest, n, CommitFollows(events[0])) {
      forall i | 0 <= i < n + 1
        ensures Awaited(events, i, commit) && GoesOn(events[i])
      {
        assert i > 0 ==> events[i] == rest[i - 1] && Awaited(rest, i - 1, CommitFollows(events[0]));
      }
    }
    if EndsAt(events, n + 1, commit) {
      forall i | 0 <= i < n
        ensures Awaited(rest, i, CommitFollows(events[0])) && GoesOn(rest[i])
      {
        assert Awaited(events, i + 1, commit) && GoesOn(events[i + 1]);
      }
    }
  }

  // From any point on, for the function or for the commit: event n ends it, or nothing does.
  lemma {:induction false} Ended(state: TxnState, events: seq<Event>, retries: nat, n: nat, commit: bool)
    requires EndsAt(events, n, commit) && (if commit then Committing(state) else !Active(state))
    ensures
      var e := if commit then AttemptCommit(state, Sessions.Supported, events, retries)
               else Attempt(state, Sessions.Supported, events, retries);
      e == Ending(Verdict(events[n]), Left(events[n]), retries + Retried(events[..n]))
    decreases n
  {
    if n == 0 {
      assert events[..0] == [];
      if !commit && events[0].settled.Resolved? {
        NothingToCommit(events[0].state, events[1..], retries);
      }
    } else {
      var first, follows := events[0], CommitFollows(events[0]);
      assert Awaited(events, 0, commit) && GoesOn(first);
      EndsLater(events, n - 1, commit);
      assert events[..n][1..] == events[1..][..n - 1];
      var next := if first.Answered? then TRANSACTION_COMMITTED
                  else if first.settled.Resolved? then first.state else Aborted(first.state);
      Ended(next, events[1..], if first.Body? && first.settled.Resolved? then retries else retries + 1, n - 1, follows);
    }
  }

  lemma NothingToCommit(state: TxnState, events: seq<Event>, retries: nat)
    ensures state == STARTING_TRANSACTION || state == TRANSACTION_COMMITTED_EMPTY ==>
      AttemptCommit(state, Sessions.Supported, events, retries)
        == Ending(Returned, TRANSACTION_COMMITTED_EMPTY, retries)
  {
  }

  lemma {:induction false} NotEnded(state: TxnState, events: seq<Event>, retries: nat, commit: bool)
    requires forall n: nat :: !EndsAt(events, n, commit)
    requires if commit then Committing(state) else !Active(state)
    ensures
      var e := if commit then AttemptCommit(state, Sessions.Supported, events, retries)
               else Attempt(state, Sessions.Supported, events, retries);
      e.outcome == Waiting
    decreases |events|
  {
    if events != [] && Awaited(events, 0, commit) {
      assert !EndsAt(events, 0, commit);
      var first, follows := events[0], CommitFollows(events[0]);
      forall n: nat
        ensures !EndsAt(events[1..], n, follows)
      {
        EndsLater(events, n, commit);
        assert !EndsAt(events, n + 1, commit);
      }
      var next := if first.Answered? then TRANSACTION_COMMITTED
                  else if first.settled.Resolved? then first.state else Aborted(first.state);
      NotEnded(next, events[1..], if first.Body? && first.settled.Resolved? then retries else retries + 1, follows);
    }
  }

  // ----- Main results -----

  // The outcome, the state left and the retries are those of the one event that ends it.
  lemma LastEventDecides(state: TxnState, events: seq<Event>, n: nat)
    requires !Active(state) && EndsAt(events, n, false)
    ensures Attempt(state, Sessions.Supported, events, 0)
      == Ending(Verdict(events[n]), Left(events[n]), Retried(events[..n]))
  {
    Ended(state, events, 0, n, false);
  }

  // withTransaction succeeds exactly when the event that ends it is a successful commit or a
  // function that ended its transaction or never used it; it throws exactly the error of that
  // event; it refuses exactly a function without a promise; and it goes on waiting exactly when
  // no event has ended it. A commit is never refused, and nothing is started without support.
  lemma OutcomeExactly(state: TxnState, support: Sessions.Support, events: seq<Event>, error: Error)
    requires !Active(state)
    ensures var outcome := Attempt(state, support, events, 0).outcome;
      if support != Sessions.Supported then outcome == NotStarted(Sessions.NotSupported)
      else
        && (outcome == Returned <==> exists n: nat :: EndsAt(events, n, false) && Succeeds(events[n]))
        && (outcome == Threw(error) <==> exists n: nat :: EndsAt(events, n, false) && ErrorOf(events[n]) == Some(error))
        && (outcome == InvalidFunction <==> exists n: nat :: EndsAt(events, n, false) && NoPromise(events[n]))
        && (outcome == Waiting <==> forall n: nat :: !EndsAt(events, n, false))
        && (outcome.Returned? || outcome.Threw? || outcome.InvalidFunction? || outcome.Waiting?)
  {
    hide Attempt, GoesOn, EndsAt, Awaited;
    if support != Sessions.Supported {
      NothingStarted(state, support, events);
    } else if n: nat :| EndsAt(events, n, false) {
      LastEventDecides(state, events, n);
      forall k: nat | EndsAt(events, k, false)
        ensures k == n
      {
        OneEnd(events, n, k);
      }
      Verdicts(events, n);
    } else {
      NotEnded(state, events, 0, false);
    }
  }

  lemma NothingStarted(state: TxnState, support: Sessions.Support, events: seq<Event>)
    requires !Active(state) && support != Sessions.Supported
    ensures Attempt(state, support, events, 0) == Ending(NotStarted(Sessions.NotSupported), state, 0)
  {
  }

  lemma OneEnd(events: seq<Event>, n: nat, k: nat)
    requires EndsAt(events, n, false) && EndsAt(events, k, false)
    ensures n == k
  {
  }

  lemma Verdicts(events: seq<Event>, n: nat)
    requires EndsAt(events, n, false)
    ensures n < |events|
    ensures var v := Verdict(events[n]);
      && (v == Returned <==> Succeeds(events[n]))
      && (forall error :: v == Threw(error) <==> ErrorOf(events[n]) == Some(error))
      && (v == InvalidFunction <==> NoPromise(events[n]))
  {
  }
}
