/**
 All client sessions of a client, their server sessions and the commands they send, as a state
 machine. A turn is one step of one session; the turns of different sessions interleave freely,
 while each session does one thing at a time.
 */
module SessionRuns {
  import opened Wrappers
  import opened Transactions
  import opened Sessions

  datatype After = Answer | Commit | Abort(ending: bool)

  // What a session is in the middle of: a command with so many attempts left.
  datatype Op = Idle | Running(command: Command, left: nat, after: After)

  // A session numbers its transactions and retryable writes: txn and write are the latest of
  // each, made counts both.
  datatype Session = Session(client: Client, op: Op, txn: nat, write: nat, made: nat)

  // A command that carried a transaction number, and the transaction or write it belongs to.
  datatype Sent = Sent(session: nat, ordinal: nat, lsid: nat, number: nat, inTransaction: bool, starts: bool)

  // created counts the server sessions; numbers are their transaction numbers.
  datatype World = World(
    pool: seq<nat>, created: nat, numbers: map<nat, nat>, sessions: seq<Session>, log: seq<Sent>, threw: bool)

  const START := World([], 0, map[], [], [], false)

  function NumberOf(numbers: map<nat, nat>, id: nat): nat
  {
    if id in numbers then numbers[id] else 0
  }

  datatype Turn =
    | OpenSession(explicit: bool, conditions: Conditions<nat>)
    | StartTxn(i: nat, support: Support)
    | Begin(i: nat, request: Request)
    | EndTxn(i: nat, commit: bool)
    | Attempted(i: nat, reached: bool, again: bool, conditions: Conditions<nat>)
    | EndSessionTurn(i: nat, conditions: Conditions<nat>)
    | EndAllPooled

  // One operation at a time per session.
  predicate Enabled(w: World, t: Turn)
  {
    match t
    case OpenSession(_, _) => true
    case EndAllPooled => true
    case Attempted(i, _, _, _) => i < |w.sessions| && w.sessions[i].op.Running?
    case _ => t.i < |w.sessions| && w.sessions[t.i].op.Idle?
  }

  // ----- The turns -----

  function SetSession(w: World, i: nat, x: Session): World
    requires i < |w.sessions|
  {
    w.(sessions := w.sessions[i := x])
  }

  // Acquire a server session if there is none.
  function Hold(w: World, i: nat, k: Conditions<nat>): (h: World)
    requires i < |w.sessions|
    ensures i < |h.sessions| && h.sessions[i].client.server.Some? && h.sessions[i].op == w.sessions[i].op
  {
    var x := w.sessions[i];
    if x.client.server.Some? then w
    else
      var (found, rest) := Acquire(w.pool, k);
      if found.Some? then SetSession(w, i, Holding(x, found.value)).(pool := rest)
      else
        SetSession(w, i, Holding(x, w.created))
          .(pool := rest, created := w.created + 1, numbers := w.numbers[w.created := 0])
  }

  function Holding(x: Session, id: nat): Session
  {
    x.(client := x.client.(server := Some(id)))
  }

  function NewSession(explicit: bool): Session
  {
    Session(Client(explicit, false, None, 0, NO_TRANSACTION), Idle, 0, 0, 0)
  }

  // A new session holds a server session from the start when it is explicit.
  function OpenNew(w: World, explicit: bool, k: Conditions<nat>): World
  {
    var added := w.(sessions := w.sessions + [NewSession(explicit)]);
    if explicit then Hold(added, |w.sessions|, k) else added
  }

  function StartOne(w: World, i: nat, support: Support): World
    requires i < |w.sessions|
  {
    var x := w.sessions[i];
    match StartTransaction(x.client, support)
    case Err(e) => if e == IllegalTransition then w.(threw := true) else w
    case Ok(c) => SetSession(w, i, x.(client := c, txn := x.made, made := x.made + 1))
  }

  function BeginOne(w: World, i: nat, q: Request): World
    requires i < |w.sessions|
  {
    var x := w.sessions[i];
    match Open(x.client, q)
    case Failed => w
    case Opening(c, command, attempts) =>
      var y := x.(client := c, op := Running(command, attempts, Answer));
      SetSession(w, i, if command.kind.RetryableWrite? then y.(write := x.made, made := x.made + 1) else y)
  }

  function EndOne(w: World, i: nat, commit: bool): World
    requires i < |w.sessions|
  {
    var x := w.sessions[i];
    match EndTransaction(x.client.state, commit)
    case Refused(e) => if e == IllegalTransition then w.(threw := true) else w
    case AtOnce(state) => SetSession(w, i, x.(client := x.client.(state := state)))
    case NeedsCommand(command) =>
      if x.client.hasEnded then Close(w, i, commit)
      else SetSession(w, i, x.(op := Running(command, 2, if commit then Commit else Abort(false))))
  }

  function Close(w: World, i: nat, commit: bool): World
    requires i < |w.sessions|
  {
    var x := w.sessions[i];
    var closed := Closed(x.client, commit);
    if closed.None? then SetSession(w, i, x.(op := Idle)).(threw := true)
    else SetSession(w, i, x.(client := closed.value, op := Idle))
  }

  function Applying(w: World, i: nat): Applied
    requires i < |w.sessions| && w.sessions[i].op.Running? && w.sessions[i].client.server.Some?
  {
    var x := w.sessions[i];
    Apply(x.client, Held(x.client.server.value, NumberOf(w.numbers, x.client.server.value)), x.op.command)
  }

  // The transaction or write a command counts for.
  function Entry(i: nat, x: Session, id: nat, number: nat): Sent
    requires x.op.Running?
  {
    var inTxn := InTransactionOrEndingIt(x.client, x.op.command);
    Sent(i, if inTxn then x.txn else x.write, id, number, inTxn, Starts(x.client, x.op.command))
  }

  // The command reaches a connection and gets the session's fields.
  function Send(w: World, i: nat): (s: World)
    requires i < |w.sessions| && w.sessions[i].op.Running? && w.sessions[i].client.server.Some?
    ensures i < |s.sessions| && s.sessions[i].op == w.sessions[i].op
  {
    var x, applied := w.sessions[i], Applying(w, i);
    var id := x.client.server.value;
    var w' := SetSession(w, i, x.(client := applied.client)).(numbers := w.numbers[id := applied.number]);
    match applied.fields
    case Err(e) => if e == IllegalTransition then w'.(threw := true) else w'
    case Ok(f) =>
      if f.Fields? && f.txnNumber.Some? then w'.(log := w.log + [Entry(i, x, f.lsid, f.txnNumber.value)]) else w'
  }

  // The last attempt is answered.
  function Finish(w: World, i: nat, k: Conditions<nat>): World
    requires i < |w.sessions| && w.sessions[i].op.Running?
  {
    match w.sessions[i].op.after
    case Answer => SetSession(w, i, w.sessions[i].(op := Idle))
    case Commit => Close(w, i, true)
    case Abort(ending) => if ending then Leave(Close(w, i, false), i, k) else Close(w, i, false)
  }

  function Leave(w: World, i: nat, k: Conditions<nat>): World
    requires i < |w.sessions|
  {
    var x := w.sessions[i];
    SetSession(w, i, x.(client := x.client.(hasEnded := true)))
      .(pool := if x.client.server.Some? then Release(w.pool, x.client.server.value, k) else w.pool)
  }

  function EndOneSession(w: World, i: nat, k: Conditions<nat>): World
    requires i < |w.sessions|
  {
    var x := w.sessions[i];
    if x.client.hasEnded then w
    else if !Active(x.client.state) then Leave(w, i, k)
    else
      match EndTransaction(x.client.state, false)
      case Refused(e) => if e == IllegalTransition then w.(threw := true) else w
      case AtOnce(state) => Leave(SetSession(w, i, x.(client := x.client.(state := state))), i, k)
      case NeedsCommand(command) => SetSession(w, i, x.(op := Running(command, 2, Abort(true))))
  }

  // Another attempt follows a failure that allows it while any is left.
  function AttemptOne(w: World, i: nat, reached: bool, again: bool, k: Conditions<nat>): World
    requires i < |w.sessions| && w.sessions[i].op.Running?
  {
    var held := Hold(w, i, k);
    var failed := reached && Applying(held, i).fields.Err?;
    var w' := if reached then Send(held, i) else w;
    var x := w'.sessions[i];
    if again && x.op.left > 1 && !failed then SetSession(w', i, x.(op := x.op.(left := x.op.left - 1)))
    else Finish(w', i, k)
  }

  function Step(w: World, t: Turn): World
    requires Enabled(w, t)
  {
    match t
    case OpenSession(explicit, k) => OpenNew(w, explicit, k)
    case StartTxn(i, support) => StartOne(w, i, support)
    case Begin(i, request) => BeginOne(w, i, request)
    case EndTxn(i, commit) => EndOne(w, i, commit)
    case Attempted(i, reached, again, k) => AttemptOne(w, i, reached, again, k)
    case EndSessionTurn(i, k) => EndOneSession(w, i, k)
    case EndAllPooled => w.(pool := [])
  }

  // ----- The invariant -----

  // The server has heard of the transaction.
  predicate Known(state: TxnState)
  {
    state == TRANSACTION_IN_PROGRESS || state == TRANSACTION_COMMITTED
  }

  predicate Writing(x: Session)
  {
    x.op.Running? && x.op.command.kind.RetryableWrite?
  }

  predicate FitsOp(x: Session)
    requires x.op.Running?
  {
    var c, command := x.client, x.op.command;
    && !c.hasEnded
    && match x.op.after
       case Answer =>
         || command.kind.Plain?
         || (command.kind.RetryableWrite? && !Active(c.state) && x.write < x.made
             && (c.increment == 0 ==> c.state == NO_TRANSACTION && c.server.Some?))
       case Commit => command == Command(CommitTransaction, false) && Known(c.state)
       case Abort(_) => command == Command(AbortTransaction, false) && c.state == TRANSACTION_IN_PROGRESS
  }

  predicate Fits(x: Session)
  {
    var c := x.client;
    && (c.state == STARTING_TRANSACTION ==> c.increment > 0)
    && (c.state == TRANSACTION_IN_PROGRESS ==> c.increment == 0 && !c.hasEnded)
    && (Known(c.state) ==> c.server.Some?)
    && (c.state != NO_TRANSACTION ==> x.txn < x.made)
    && (x.op.Running? ==> FitsOp(x))
  }

  predicate Live(x: Session)
  {
    !x.client.hasEnded && x.client.server.Some?
  }

  // Every server session is in the pool once, or held by one live session, or neither.
  predicate Exclusive(pool: seq<nat>, created: nat, sessions: seq<Session>)
  {
    && (forall a, b :: 0 <= a < b < |pool| ==> pool[a] != pool[b])
    && (forall id :: id in pool ==> id < created)
    && (forall i :: 0 <= i < |sessions| && Live(sessions[i]) ==>
          sessions[i].client.server.value < created && sessions[i].client.server.value !in pool)
    && (forall i, j :: 0 <= i < j < |sessions| && Live(sessions[i]) && Live(sessions[j]) ==>
          sessions[i].client.server.value != sessions[j].client.server.value)
  }

  predicate Logged(log: seq<Sent>, created: nat, numbers: map<nat, nat>, sessions: seq<Session>)
  {
    forall k :: 0 <= k < |log| ==>
      && log[k].session < |sessions| && log[k].ordinal < sessions[log[k].session].made
      && log[k].lsid < created && log[k].number <= NumberOf(numbers, log[k].lsid)
  }

  predicate Of(e: Sent, i: nat, ordinal: nat)
  {
    e.session == i && e.ordinal == ordinal
  }

  predicate NoneOf(log: seq<Sent>, i: nat, ordinal: nat)
  {
    forall k :: 0 <= k < |log| ==> !Of(log[k], i, ordinal)
  }

  predicate Under(e: Sent, lsid: nat, number: nat)
  {
    e.lsid == lsid && e.number == number
  }

  // What went out under this number belongs to this transaction or write.
  predicate OnlyUnder(log: seq<Sent>, lsid: nat, number: nat, i: nat, ordinal: nat)
  {
    forall k :: 0 <= k < |log| && Under(log[k], lsid, number) ==> Of(log[k], i, ordinal)
  }

  // While a session can still send for a transaction or write without a new number, the
  // current number is used by nothing else.
  predicate Tracks(i: nat, x: Session, numbers: map<nat, nat>, log: seq<Sent>)
  {
    var c := x.client;
    !c.hasEnded ==>
      && (c.state == STARTING_TRANSACTION ==> NoneOf(log, i, x.txn))
      && (Known(c.state) ==> !NoneOf(log, i, x.txn))
      && (c.server.Some? && c.increment == 0 ==>
            && (Known(c.state) ==> OnlyUnder(log, c.server.value, NumberOf(numbers, c.server.value), i, x.txn))
            && (Writing(x) ==> OnlyUnder(log, c.server.value, NumberOf(numbers, c.server.value), i, x.write)))
  }

  predicate Unique(log: seq<Sent>)
  {
    forall j, k :: 0 <= j < |log| && 0 <= k < |log| && Under(log[j], log[k].lsid, log[k].number) ==>
      Of(log[j], log[k].session, log[k].ordinal)
  }

  // Exactly the first command of a transaction starts it.
  predicate StartsOnce(log: seq<Sent>)
  {
    forall k :: 0 <= k < |log| ==>
      (log[k].starts <==> log[k].inTransaction && NoneOf(log[..k], log[k].session, log[k].ordinal))
  }

  ghost predicate Inv(w: World)
  {
    && !w.threw
    && (forall i :: 0 <= i < |w.sessions| ==> Fits(w.sessions[i]))
    && Exclusive(w.pool, w.created, w.sessions)
    && Logged(w.log, w.created, w.numbers, w.sessions)
    && (forall i :: 0 <= i < |w.sessions| ==> Tracks(i, w.sessions[i], w.numbers, w.log))
    && Unique(w.log)
    && StartsOnce(w.log)
  }

  // ----- Turns that only change one session -----

  lemma SessionChanges(w: World, i: nat, y: Session)
    requires Inv(w) && i < |w.sessions| && Fits(y) && Tracks(i, y, w.numbers, w.log)
    requires y.client.server == w.sessions[i].client.server && y.client.hasEnded == w.sessions[i].client.hasEnded
    requires y.made >= w.sessions[i].made
    ensures Inv(SetSession(w, i, y))
  {
    hide Fits, Tracks, Unique, StartsOnce, NumberOf;
  }

  lemma NewOrdinal(w: World, i: nat)
    requires Inv(w) && i < |w.sessions|
    ensures NoneOf(w.log, i, w.sessions[i].made)
  {
    hide Fits, Tracks, Unique, StartsOnce, Exclusive;
  }

  lemma StartKeeps(w: World, i: nat, support: Support)
    requires Inv(w) && i < |w.sessions| && w.sessions[i].op.Idle?
    ensures Inv(StartOne(w, i, support))
  {
    hide Unique, StartsOnce, Exclusive, Logged, NoneOf, OnlyUnder;
    var x := w.sessions[i];
    assert Fits(x) && Tracks(i, x, w.numbers, w.log);
    match StartTransaction(x.client, support) {
      case Err(_) =>
      case Ok(c) =>
        NewOrdinal(w, i);
        SessionChanges(w, i, x.(client := c, txn := x.made, made := x.made + 1));
    }
  }

  lemma BeginKeeps(w: World, i: nat, q: Request)
    requires Inv(w) && i < |w.sessions| && w.sessions[i].op.Idle?
    ensures Inv(BeginOne(w, i, q))
  {
    hide Unique, StartsOnce, Exclusive, Logged, NoneOf, OnlyUnder;
    var x := w.sessions[i];
    assert Fits(x) && Tracks(i, x, w.numbers, w.log);
    if Open(x.client, q).Opening? {
      SessionChanges(w, i, BeginOne(w, i, q).sessions[i]);
    }
  }

  lemma CloseKeeps(w: World, i: nat, commit: bool)
    requires Inv(w) && i < |w.sessions| && Known(w.sessions[i].client.state)
    requires !commit ==> w.sessions[i].client.state == TRANSACTION_IN_PROGRESS
    ensures Inv(Close(w, i, commit))
    ensures Close(w, i, commit).sessions[i].op.Idle?
    ensures !commit ==> Close(w, i, commit).sessions[i].client.state == TRANSACTION_ABORTED
  {
    hide Unique, StartsOnce, Exclusive, Logged, NoneOf, OnlyUnder;
    var x := w.sessions[i];
    assert Fits(x) && Tracks(i, x, w.numbers, w.log);
    SessionChanges(w, i, Close(w, i, commit).sessions[i]);
  }

  lemma EndKeeps(w: World, i: nat, commit: bool)
    requires Inv(w) && i < |w.sessions| && w.sessions[i].op.Idle?
    ensures Inv(EndOne(w, i, commit))
  {
    hide Unique, StartsOnce, Exclusive, Logged, NoneOf, OnlyUnder;
    var x := w.sessions[i];
    assert Fits(x) && Tracks(i, x, w.numbers, w.log);
    match EndTransaction(x.client.state, commit) {
      case Refused(_) =>
      case AtOnce(state) => SessionChanges(w, i, x.(client := x.client.(state := state)));
      case NeedsCommand(command) =>
        if x.client.hasEnded {
          CloseKeeps(w, i, commit);
        } else {
          SessionChanges(w, i, x.(op := Running(command, 2, if commit then Commit else Abort(false))));
        }
    }
  }

  // ----- Server sessions move -----

  predicate Distinct(pool: seq<nat>)
  {
    forall a, b :: 0 <= a < b < |pool| ==> pool[a] != pool[b]
  }

  // Acquiring takes one out of a pool without duplicates and may drop others.
  lemma {:induction false} AcquireTakes(pool: seq<nat>, k: Conditions<nat>)
    requires Distinct(pool)
    ensures var (found, rest) := Acquire(pool, k);
      && Distinct(rest) && (forall id :: id in rest ==> id in pool)
      && (found.Some? ==> found.value in pool && found.value !in rest)
    decreases |pool|
  {
    if pool != [] && !(k.loadBalanced || pool[0] !in k.timedOut) {
      AcquireTakes(pool[1..], k);
    }
  }

  // It is the first session that has not timed out, and only timed-out ones are dropped.
  lemma {:induction false} AcquireFindsFirst<T>(pool: seq<T>, k: Conditions<T>)
    ensures var (found, rest) := Acquire(pool, k);
      var dropped := |pool| - |rest| - (if found.Some? then 1 else 0);
      && 0 <= dropped <= |pool| && (found.None? ==> rest == [])
      && (forall j :: 0 <= j < dropped ==> !k.loadBalanced && pool[j] in k.timedOut)
      && (found.Some? ==>
            && dropped < |pool| && pool[dropped] == found.value && rest == pool[dropped + 1..]
            && (k.loadBalanced || found.value !in k.timedOut))
    decreases |pool|
  {
    if pool != [] && !(k.loadBalanced || pool[0] !in k.timedOut) {
      AcquireFindsFirst(pool[1..], k);
    }
  }

  // What is given back is pooled unless it timed out or is dirty, and what stays ends with a
  // session that has not timed out. Without a known timeout only a load balancer's client pools
  // it, and then even a dirty one.
  lemma ReleaseDecides(pool: seq<nat>, session: nat, k: Conditions<nat>)
    requires session !in pool
    ensures session in Release(pool, session, k) <==>
      if k.timeoutKnown then session !in k.timedOut && !k.dirty else k.loadBalanced
    ensures var after := Release(pool, session, k);
      k.timeoutKnown && after != [] ==> after[|after| - 1] !in k.timedOut
  {
    PrunedIsPrefix(pool, k.timedOut);
    PrunedEnds(pool, k.timedOut);
  }

  // The session given back last is the first to be taken again; the others keep their order.
  lemma ReleasedIsNext(pool: seq<nat>, session: nat, k: Conditions<nat>, next: Conditions<nat>)
    requires session in Release(pool, session, k) && session !in pool
    ensures var (found, rest) := Acquire(Release(pool, session, k), next);
      next.loadBalanced || session !in next.timedOut ==> found == Some(session) && rest <= pool
  {
    PrunedIsPrefix(pool, k.timedOut);
  }

  lemma {:induction false} PrunedEnds(pool: seq<nat>, timedOut: set<nat>)
    ensures var kept := Pruned(pool, timedOut);
      kept != [] ==> kept[|kept| - 1] !in timedOut
    decreases |pool|
  {
    if pool != [] && pool[|pool| - 1] in timedOut {
      PrunedEnds(pool[..|pool| - 1], timedOut);
    }
  }

  lemma {:induction false} PrunedIsPrefix(pool: seq<nat>, timedOut: set<nat>)
    ensures Pruned(pool, timedOut) <= pool
    decreases |pool|
  {
    if pool != [] && pool[|pool| - 1] in timedOut {
      PrunedIsPrefix(pool[..|pool| - 1], timedOut);
    }
  }

  // A release adds at most the one session, and keeps the pool free of duplicates.
  lemma ReleaseAdds(pool: seq<nat>, session: nat, k: Conditions<nat>)
    requires Distinct(pool) && session !in pool
    ensures Distinct(Release(pool, session, k))
    ensures forall id :: id in Release(pool, session, k) ==> id in pool || id == session
  {
    PrunedIsPrefix(pool, k.timedOut);
  }

  lemma HoldExclusive(w: World, i: nat, k: Conditions<nat>)
    requires Exclusive(w.pool, w.created, w.sessions) && i < |w.sessions|
    ensures var h := Hold(w, i, k); Exclusive(h.pool, h.created, h.sessions)
  {
    hide Acquire;
    AcquireTakes(w.pool, k);
  }

  // A session without a server session has nothing under way that a number could mix up.
  lemma HoldTracks(i: nat, x: Session, id: nat, numbers: map<nat, nat>, log: seq<Sent>)
    requires Fits(x) && x.client.server.None? && Tracks(i, x, numbers, log)
    ensures Fits(Holding(x, id)) && Tracks(i, Holding(x, id), numbers, log)
  {
    hide NoneOf, OnlyUnder;
  }

  lemma FreshNumber(w: World, id: nat)
    requires Inv(w) && id == w.created
    ensures Logged(w.log, w.created + 1, w.numbers[id := 0], w.sessions)
    ensures forall j :: 0 <= j < |w.sessions| ==> Tracks(j, w.sessions[j], w.numbers[id := 0], w.log)
  {
    hide Unique, StartsOnce, NoneOf, OnlyUnder, Fits;
    forall j | 0 <= j < |w.sessions|
      ensures Tracks(j, w.sessions[j], w.numbers[id := 0], w.log)
    {
      assert Tracks(j, w.sessions[j], w.numbers, w.log);
      assert Live(w.sessions[j]) ==> w.sessions[j].client.server.value < w.created;
    }
  }

  lemma HoldKeeps(w: World, i: nat, k: Conditions<nat>)
    requires Inv(w) && i < |w.sessions|
    ensures Inv(Hold(w, i, k))
  {
    hide Unique, StartsOnce, NoneOf, OnlyUnder, Fits, Tracks, Logged, Exclusive, Acquire;
    var x, h := w.sessions[i], Hold(w, i, k);
    if x.client.server.None? {
      HoldExclusive(w, i, k);
      FreshNumber(w, w.created);
      var id := h.sessions[i].client.server.value;
      HoldTracks(i, x, id, h.numbers, w.log);
      SameOwners(w.log, h.created, h.numbers, w.sessions, h.sessions);
    }
  }

  lemma SameOwners(log: seq<Sent>, created: nat, numbers: map<nat, nat>, before: seq<Session>, after: seq<Session>)
    requires Logged(log, created, numbers, before) && |after| >= |before|
    requires forall i :: 0 <= i < |before| ==> after[i].made >= before[i].made
    ensures Logged(log, created, numbers, after)
  {
  }

  lemma LeaveExclusive(w: World, i: nat, k: Conditions<nat>)
    requires Exclusive(w.pool, w.created, w.sessions) && i < |w.sessions| && !w.sessions[i].client.hasEnded
    ensures var l := Leave(w, i, k); Exclusive(l.pool, l.created, l.sessions)
  {
    hide Release;
    if w.sessions[i].client.server.Some? {
      ReleaseAdds(w.pool, w.sessions[i].client.server.value, k);
    }
  }

  lemma LeaveKeeps(w: World, i: nat, k: Conditions<nat>)
    requires Inv(w) && i < |w.sessions| && w.sessions[i].op.Idle? && !w.sessions[i].client.hasEnded
    requires !Active(w.sessions[i].client.state)
    ensures Inv(Leave(w, i, k))
  {
    hide Unique, StartsOnce, NoneOf, OnlyUnder, Logged, Exclusive, Release;
    var l := Leave(w, i, k);
    LeaveExclusive(w, i, k);
    SameOwners(w.log, w.created, w.numbers, w.sessions, l.sessions);
    assert Fits(w.sessions[i]);
  }

  lemma AddKeeps(w: World, explicit: bool)
    requires Inv(w)
    ensures Inv(w.(sessions := w.sessions + [NewSession(explicit)]))
  {
    hide Unique, StartsOnce, NoneOf, OnlyUnder, Logged;
    var x := NewSession(explicit);
    var added := w.(sessions := w.sessions + [x]);
    SameOwners(w.log, w.created, w.numbers, w.sessions, added.sessions);
    assert Fits(x) && Tracks(|w.sessions|, x, w.numbers, w.log);
  }

  lemma OpenKeeps(w: World, explicit: bool, k: Conditions<nat>)
    requires Inv(w)
    ensures Inv(OpenNew(w, explicit, k))
  {
    hide Inv, Hold;
    AddKeeps(w, explicit);
    HoldKeeps(w.(sessions := w.sessions + [NewSession(explicit)]), |w.sessions|, k);
  }

  // ----- Sending -----

  // Nothing illegal is attempted, and the session stays in shape.
  lemma SendFits(x: Session, held: Held)
    requires Fits(x) && x.op.Running? && x.client.server == Some(held.id)
    ensures var applied := Apply(x.client, held, x.op.command);
      && applied.fields != Err(IllegalTransition) && applied.fields != Err(ExpiredSession)
      && Fits(x.(client := applied.client))
      && applied.client.server == x.client.server && !applied.client.hasEnded
      && applied.number >= held.txnNumber
  {
  }

  predicate Writes(x: Session)
    requires x.op.Running?
  {
    !x.op.command.unacknowledged && Numbered(x.client, x.op.command)
  }

  lemma SendWrites(x: Session, held: Held)
    requires Fits(x) && x.op.Running? && x.client.server == Some(held.id)
    ensures var applied := Apply(x.client, held, x.op.command);
      if Writes(x) then
        && applied.number == held.txnNumber + x.client.increment && applied.client.increment == 0
        && applied.fields == Ok(Fields(held.id, Some(applied.number), Starts(x.client, x.op.command)))
      else
        && applied.number == held.txnNumber && applied.client.increment == x.client.increment
        && (applied.fields.Err? || applied.fields.value.NoFields? || applied.fields.value.txnNumber.None?)
        && (applied.client.state == x.client.state || applied.client.state == NO_TRANSACTION)
  {
  }

  // A number is free for a transaction or write: it is new, or only that one uses it.
  lemma MayUse(w: World, i: nat)
    requires Inv(w) && i < |w.sessions| && w.sessions[i].op.Running? && Writes(w.sessions[i])
    requires w.sessions[i].client.server.Some?
    ensures var x := w.sessions[i];
      var id := x.client.server.value;
      var e := Entry(i, x, id, NumberOf(w.numbers, id) + x.client.increment);
      && OnlyUnder(w.log, id, e.number, i, e.ordinal) && e.ordinal < x.made
      && (e.starts ==> NoneOf(w.log, i, e.ordinal)) && (!e.starts && e.inTransaction ==> !NoneOf(w.log, i, e.ordinal))
  {
    hide Unique, StartsOnce, Exclusive, NoneOf;
    var x := w.sessions[i];
    assert Fits(x) && Tracks(i, x, w.numbers, w.log);
    if x.client.increment > 0 {
      assert forall k :: 0 <= k < |w.log| && w.log[k].lsid == x.client.server.value ==>
        w.log[k].number <= NumberOf(w.numbers, x.client.server.value);
    }
  }

  lemma AppendUnique(log: seq<Sent>, e: Sent)
    requires Unique(log) && OnlyUnder(log, e.lsid, e.number, e.session, e.ordinal)
    ensures Unique(log + [e])
  {
  }

  lemma AppendStarts(log: seq<Sent>, e: Sent)
    requires StartsOnce(log)
    requires e.starts <==> e.inTransaction && NoneOf(log, e.session, e.ordinal)
    ensures StartsOnce(log + [e])
  {
    hide NoneOf;
    var all := log + [e];
    assert all[..|log|] == log;
    forall k | 0 <= k < |log|
      ensures all[k] == log[k] && all[..k] == log[..k]
    {
    }
  }

  lemma AppendLogged(
    log: seq<Sent>, created: nat, numbers: map<nat, nat>, after: map<nat, nat>, sessions: seq<Session>, e: Sent)
    requires Logged(log, created, numbers, sessions)
    requires forall id :: NumberOf(after, id) >= NumberOf(numbers, id)
    requires e.session < |sessions| && e.ordinal < sessions[e.session].made && e.lsid < created
    requires e.number <= NumberOf(after, e.lsid)
    ensures Logged(log + [e], created, after, sessions)
  {
    hide NumberOf;
  }

  // Other sessions hold other server sessions and own other transactions.
  lemma OthersTrack(j: nat, x: Session, numbers: map<nat, nat>, after: map<nat, nat>, log: seq<Sent>, e: Sent)
    requires Tracks(j, x, numbers, log) && e.session != j
    requires Live(x) ==>
      x.client.server.value != e.lsid
        && NumberOf(after, x.client.server.value) == NumberOf(numbers, x.client.server.value)
    ensures Tracks(j, x, after, log + [e])
  {
    hide NumberOf;
    if !NoneOf(log, j, x.txn) {
      var k :| 0 <= k < |log| && Of(log[k], j, x.txn);
      assert (log + [e])[k] == log[k];
    }
  }

  lemma OwnTracks(i: nat, x: Session, y: Session, numbers: map<nat, nat>, after: map<nat, nat>, log: seq<Sent>, e: Sent)
    requires Fits(x) && x.op.Running? && Writes(x) && x.client.server == Some(e.lsid)
    requires y == x.(client := Apply(x.client, Held(e.lsid, NumberOf(numbers, e.lsid)), x.op.command).client)
    requires e == Entry(i, x, e.lsid, e.number) && NumberOf(after, e.lsid) == e.number
    requires OnlyUnder(log, e.lsid, e.number, i, e.ordinal)
    ensures Tracks(i, y, after, log + [e])
  {
    hide NumberOf;
    assert (log + [e])[|log|] == e && Of(e, i, e.ordinal);
    assert OnlyUnder(log + [e], e.lsid, e.number, i, e.ordinal);
  }

  lemma SendKeeps(w: World, i: nat)
    requires Inv(w) && i < |w.sessions| && w.sessions[i].op.Running? && w.sessions[i].client.server.Some?
    ensures Inv(Send(w, i))
  {
    hide Unique, StartsOnce, NoneOf, OnlyUnder, Logged, Exclusive, Fits, Tracks, Apply, NumberOf, Writes;
    var x, s, id := w.sessions[i], Send(w, i), w.sessions[i].client.server.value;
    var held := Held(id, NumberOf(w.numbers, id));
    assert Fits(x);
    SendFits(x, held);
    SendWrites(x, held);
    SendExclusive(w, i);
    if Writes(x) {
      SendNumbered(w, i);
    } else {
      SendPlain(w, i);
    }
  }

  lemma SentNumbers(numbers: map<nat, nat>, id: nat, number: nat)
    requires number >= NumberOf(numbers, id)
    ensures var after := numbers[id := number];
      && NumberOf(after, id) == number
      && (forall other :: NumberOf(after, other) >= NumberOf(numbers, other))
      && (forall other :: other != id ==> NumberOf(after, other) == NumberOf(numbers, other))
  {
  }

  lemma RunningLives(x: Session)
    requires Fits(x) && x.op.Running?
    ensures !x.client.hasEnded
  {
  }

  lemma SendExclusive(w: World, i: nat)
    requires Exclusive(w.pool, w.created, w.sessions) && i < |w.sessions| && w.sessions[i].op.Running?
    requires Fits(w.sessions[i]) && w.sessions[i].client.server.Some?
    ensures Exclusive(w.pool, w.created, Send(w, i).sessions)
    ensures !w.sessions[i].client.hasEnded && w.sessions[i].client.server.value < w.created
    ensures forall j :: 0 <= j < |w.sessions| && j != i && Live(w.sessions[j]) ==>
      w.sessions[j].client.server.Some? && w.sessions[j].client.server != w.sessions[i].client.server
  {
    hide Fits, Apply, NumberOf;
    SendFits(w.sessions[i],
             Held(w.sessions[i].client.server.value, NumberOf(w.numbers, w.sessions[i].client.server.value)));
    RunningLives(w.sessions[i]);
  }

  lemma SendNumbered(w: World, i: nat)
    requires Inv(w) && i < |w.sessions| && w.sessions[i].op.Running? && w.sessions[i].client.server.Some?
    requires Writes(w.sessions[i])
    requires Exclusive(w.pool, w.created, Send(w, i).sessions)
    ensures Inv(Send(w, i))
  {
    hide Unique, StartsOnce, NoneOf, OnlyUnder, Logged, Exclusive, Fits, Tracks, Apply, NumberOf, Writes, Live;
    var x, s, id := w.sessions[i], Send(w, i), w.sessions[i].client.server.value;
    var held := Held(id, NumberOf(w.numbers, id));
    var e := Entry(i, x, id, held.txnNumber + x.client.increment);
    assert Fits(x);
    SendFits(x, held);
    SendWrites(x, held);
    SentNumbers(w.numbers, id, e.number);
    SendExclusive(w, i);
    MayUse(w, i);
    assert s.log == w.log + [e] && s.numbers == w.numbers[id := e.number];
    AppendUnique(w.log, e);
    AppendStarts(w.log, e);
    AppendLogged(w.log, w.created, w.numbers, s.numbers, w.sessions, e);
    SameOwners(s.log, w.created, s.numbers, w.sessions, s.sessions);
    OwnTracks(i, x, s.sessions[i], w.numbers, s.numbers, w.log, e);
    forall j | 0 <= j < |w.sessions| && j != i
      ensures Tracks(j, s.sessions[j], s.numbers, s.log)
    {
      assert Tracks(j, w.sessions[j], w.numbers, w.log);
      OthersTrack(j, w.sessions[j], w.numbers, s.numbers, w.log, e);
    }
  }

  lemma SameTracks(j: nat, x: Session, y: Session, numbers: map<nat, nat>, after: map<nat, nat>, log: seq<Sent>)
    requires Tracks(j, x, numbers, log) && y.txn == x.txn && y.write == x.write && y.op == x.op
    requires y == x || (y.client.state == x.client.state || y.client.state == NO_TRANSACTION)
    requires y.client.server == x.client.server && y.client.increment == x.client.increment
      && y.client.hasEnded == x.client.hasEnded
    requires forall id :: NumberOf(after, id) == NumberOf(numbers, id)
    ensures Tracks(j, y, after, log)
  {
    hide NumberOf, NoneOf, OnlyUnder;
  }

  lemma SameLogged(log: seq<Sent>, created: nat, numbers: map<nat, nat>, after: map<nat, nat>, sessions: seq<Session>)
    requires Logged(log, created, numbers, sessions) && forall id :: NumberOf(after, id) == NumberOf(numbers, id)
    ensures Logged(log, created, after, sessions)
  {
    hide NumberOf;
  }

  lemma SendPlain(w: World, i: nat)
    requires Inv(w) && i < |w.sessions| && w.sessions[i].op.Running? && w.sessions[i].client.server.Some?
    requires !Writes(w.sessions[i])
    requires Exclusive(w.pool, w.created, Send(w, i).sessions)
    ensures Inv(Send(w, i))
  {
    hide Unique, StartsOnce, NoneOf, OnlyUnder, Logged, Exclusive, Fits, Tracks, Apply, NumberOf, Writes;
    var x, s, id := w.sessions[i], Send(w, i), w.sessions[i].client.server.value;
    var held := Held(id, NumberOf(w.numbers, id));
    assert Fits(x);
    SendFits(x, held);
    SendWrites(x, held);
    SentNumbers(w.numbers, id, held.txnNumber);
    SendExclusive(w, i);
    SameLogged(w.log, w.created, w.numbers, s.numbers, w.sessions);
    SameOwners(w.log, w.created, s.numbers, w.sessions, s.sessions);
    forall j | 0 <= j < |w.sessions|
      ensures Tracks(j, s.sessions[j], s.numbers, s.log)
    {
      assert Tracks(j, w.sessions[j], w.numbers, w.log);
      SameTracks(j, w.sessions[j], s.sessions[j], w.numbers, s.numbers, w.log);
    }
  }

  // ----- Answers -----

  lemma FinishKeeps(w: World, i: nat, k: Conditions<nat>)
    requires Inv(w) && i < |w.sessions| && w.sessions[i].op.Running?
    ensures Inv(Finish(w, i, k))
  {
    hide Unique, StartsOnce, Exclusive, Logged, NoneOf, OnlyUnder, Close, Leave;
    var x := w.sessions[i];
    assert Fits(x) && Tracks(i, x, w.numbers, w.log);
    match x.op.after {
      case Answer => SessionChanges(w, i, x.(op := Idle));
      case Commit => CloseKeeps(w, i, true);
      case Abort(ending) =>
        CloseKeeps(w, i, false);
        if ending {
          StillOpen(w, i);
          LeaveKeeps(Close(w, i, false), i, k);
        }
    }
  }

  lemma StillOpen(w: World, i: nat)
    requires i < |w.sessions|
    ensures i < |Close(w, i, false).sessions|
    ensures Close(w, i, false).sessions[i].client.hasEnded == w.sessions[i].client.hasEnded
  {
  }

  lemma AttemptKeeps(w: World, i: nat, reached: bool, again: bool, k: Conditions<nat>)
    requires Inv(w) && i < |w.sessions| && w.sessions[i].op.Running?
    ensures Inv(AttemptOne(w, i, reached, again, k))
  {
    hide Unique, StartsOnce, Exclusive, Logged, NoneOf, OnlyUnder, Hold, Send, Finish, Applying;
    HoldKeeps(w, i, k);
    var held := Hold(w, i, k);
    SendKeeps(held, i);
    var w' := if reached then Send(held, i) else w;
    var x := w'.sessions[i];
    FinishKeeps(w', i, k);
    if x.op.left > 1 {
      assert Fits(x) && Tracks(i, x, w'.numbers, w'.log);
      SessionChanges(w', i, x.(op := x.op.(left := x.op.left - 1)));
    }
  }

  lemma EndSessionKeeps(w: World, i: nat, k: Conditions<nat>)
    requires Inv(w) && i < |w.sessions| && w.sessions[i].op.Idle?
    ensures Inv(EndOneSession(w, i, k))
  {
    hide Unique, StartsOnce, Exclusive, Logged, NoneOf, OnlyUnder, Leave;
    var x := w.sessions[i];
    assert Fits(x) && Tracks(i, x, w.numbers, w.log);
    if !x.client.hasEnded {
      if !Active(x.client.state) {
        LeaveKeeps(w, i, k);
      } else if x.client.state == STARTING_TRANSACTION {
        var y := x.(client := x.client.(state := TRANSACTION_ABORTED));
        SessionChanges(w, i, y);
        LeaveKeeps(SetSession(w, i, y), i, k);
      } else {
        SessionChanges(w, i, x.(op := Running(Command(AbortTransaction, false), 2, Abort(true))));
      }
    }
  }

  lemma StepKeeps(w: World, t: Turn)
    requires Inv(w) && Enabled(w, t)
    ensures Inv(Step(w, t))
  {
    hide Unique, StartsOnce, Logged, NoneOf, OnlyUnder, Fits, Tracks, OpenNew, StartOne, BeginOne, EndOne, AttemptOne,
      EndOneSession;
    match t {
      case OpenSession(explicit, k) => OpenKeeps(w, explicit, k);
      case StartTxn(i, support) => StartKeeps(w, i, support);
      case Begin(i, request) => BeginKeeps(w, i, request);
      case EndTxn(i, commit) => EndKeeps(w, i, commit);
      case Attempted(i, reached, again, k) => AttemptKeeps(w, i, reached, again, k);
      case EndSessionTurn(i, k) => EndSessionKeeps(w, i, k);
      case EndAllPooled =>
    }
  }
}
