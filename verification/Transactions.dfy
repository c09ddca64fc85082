/**
 The states of a client session's transaction (src/transactions.ts).
 */
module Transactions {
  import opened Wrappers

  datatype TxnState =
    | NO_TRANSACTION
    | STARTING_TRANSACTION
    | TRANSACTION_IN_PROGRESS
    | TRANSACTION_COMMITTED
    | TRANSACTION_COMMITTED_EMPTY
    | TRANSACTION_ABORTED

  function NextStates(state: TxnState): set<TxnState>
  {
    match state
    case NO_TRANSACTION => {NO_TRANSACTION, STARTING_TRANSACTION}
    case STARTING_TRANSACTION =>
      {TRANSACTION_IN_PROGRESS, TRANSACTION_COMMITTED, TRANSACTION_COMMITTED_EMPTY, TRANSACTION_ABORTED}
    case TRANSACTION_IN_PROGRESS => {TRANSACTION_IN_PROGRESS, TRANSACTION_COMMITTED, TRANSACTION_ABORTED}
    case TRANSACTION_COMMITTED =>
      {TRANSACTION_COMMITTED, TRANSACTION_COMMITTED_EMPTY, STARTING_TRANSACTION, NO_TRANSACTION}
    case TRANSACTION_ABORTED => {STARTING_TRANSACTION, NO_TRANSACTION}
    case TRANSACTION_COMMITTED_EMPTY => {TRANSACTION_COMMITTED_EMPTY, NO_TRANSACTION}
  }

  predicate Active(state: TxnState)
  {
    state == STARTING_TRANSACTION || state == TRANSACTION_IN_PROGRESS
  }

  // None where the transition is illegal and throws.
  function Transition(state: TxnState, next: TxnState): Option<TxnState>
  {
    if next in NextStates(state) then Some(next) else None
  }

  // Only an active transaction runs, is aborted or commits for the first time, and it is never
  // started over or forgotten while it is active.
  lemma ActiveRuns(from: TxnState, to: TxnState)
    requires to in NextStates(from)
    ensures to == TRANSACTION_IN_PROGRESS || to == TRANSACTION_ABORTED ==> Active(from)
    ensures to == TRANSACTION_COMMITTED ==> Active(from) || from == TRANSACTION_COMMITTED
    ensures to == STARTING_TRANSACTION || to == NO_TRANSACTION ==> !Active(from)
    ensures to == TRANSACTION_COMMITTED_EMPTY ==>
      from == STARTING_TRANSACTION || from == TRANSACTION_COMMITTED || from == TRANSACTION_COMMITTED_EMPTY
  {
  }

  class Transaction {
    var state: TxnState

    constructor ()
      ensures state == NO_TRANSACTION
    {
      state := NO_TRANSACTION;
    }

    method TransitionTo(next: TxnState) returns (legal: bool)
      modifies this
      ensures match Transition(old(state), next)
              case Some(s) => legal && state == s
              case None => !legal && state == old(state)
    {
      legal := next in NextStates(state);
      if legal {
        state := next;
      }
    }
  }
}
