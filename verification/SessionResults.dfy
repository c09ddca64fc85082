/**
 What holds in every run of the client's sessions, above all that a transaction number on a
 server session stands for one transaction or one retryable write.
 */
module SessionResults {
  import opened Wrappers
  import opened Transactions
  import opened Sessions
  import opened SessionRuns

  predicate Legal(w: World, turns: seq<Turn>)
    decreases |turns|
  {
    turns == [] || (Enabled(w, turns[0]) && Legal(Step(w, turns[0]), turns[1..]))
  }

  function Run(w: World, turns: seq<Turn>): World
    requires Legal(w, turns)
    decreases |turns|
  {
    if turns == [] then w else Run(Step(w, turns[0]), turns[1..])
  }

  lemma {:induction false} RunKeeps(w: World, turns: seq<Turn>)
    requires Inv(w) && Legal(w, turns)
    ensures Inv(Run(w, turns))
    decreases |turns|
  {
    if turns != [] {
      hide Inv, Step, Enabled;
      StepKeeps(w, turns[0]);
      RunKeeps(Step(w, turns[0]), turns[1..]);
    }
  }

  lemma EmptyFits(w: World)
    requires w.pool == [] && w.sessions == [] && w.log == [] && !w.threw
    ensures Inv(w)
  {
    hide Fits, Tracks, Of, Under, NoneOf, NumberOf;
  }

  lemma Reached(turns: seq<Turn>)
    requires Legal(START, turns)
    ensures Inv(Run(START, turns))
  {
    hide Step, Enabled, Run, Legal, Inv;
    EmptyFits(START);
    RunKeeps(START, turns);
  }

  // ----- Main results -----

  // However the sessions interleave and whatever fails, no transition is illegal.
  lemma NoIllegalTransition(turns: seq<Turn>)
    requires Legal(START, turns)
    ensures !Run(START, turns).threw
  {
    hide Step, Enabled, Run, Legal, Logged, Tracks, Fits, Unique, StartsOnce;
    Reached(turns);
  }

  // Over the life of a server session, whoever borrows it: commands with the same number
  // belong to the same transaction or retryable write of the same client session.
  lemma NumbersIdentify(turns: seq<Turn>, j: nat, k: nat)
    requires Legal(START, turns) && j < |Run(START, turns).log| && k < |Run(START, turns).log|
    ensures var a, b := Run(START, turns).log[j], Run(START, turns).log[k];
      a.lsid == b.lsid && a.number == b.number ==> a.session == b.session && a.ordinal == b.ordinal
  {
    hide Step, Enabled, Run, Legal, Logged, Tracks, Fits, Exclusive, StartsOnce;
    Reached(turns);
    assert Unique(Run(START, turns).log);
  }

  // Of the commands of a transaction exactly the first starts it; a retryable write never does.
  lemma FirstCommandStarts(turns: seq<Turn>, k: nat)
    requires Legal(START, turns) && k < |Run(START, turns).log|
    ensures var log := Run(START, turns).log;
      log[k].starts <==>
        (&& log[k].inTransaction
         && forall j :: 0 <= j < k ==> !(log[j].session == log[k].session && log[j].ordinal == log[k].ordinal))
  {
    hide Step, Enabled, Run, Legal, Unique, Logged, Tracks, Fits, Exclusive;
    Reached(turns);
    var log := Run(START, turns).log;
    assert StartsOnce(log);
    assert forall j :: 0 <= j < k ==> log[..k][j] == log[j];
  }

  // A server session is in the pool at most once, is held by at most one live session, and is
  // never both.
  lemma OneHolder(turns: seq<Turn>)
    requires Legal(START, turns)
    ensures var w := Run(START, turns);
      && (forall a, b :: 0 <= a < b < |w.pool| ==> w.pool[a] != w.pool[b])
      && (forall i :: 0 <= i < |w.sessions| && Live(w.sessions[i]) ==> w.sessions[i].client.server.value !in w.pool)
      && (forall i, j :: 0 <= i < j < |w.sessions| && Live(w.sessions[i]) && Live(w.sessions[j]) ==>
            w.sessions[i].client.server.value != w.sessions[j].client.server.value)
  {
    hide Step, Enabled, Run, Legal, Logged, Tracks, Fits, Unique, StartsOnce;
    Reached(turns);
  }

  // ----- The number of a transaction -----

  // All commands of one transaction or write go to one server session under one number.
  predicate OneNumber(log: seq<Sent>)
  {
    forall j, k :: 0 <= j < |log| && 0 <= k < |log| && Of(log[j], log[k].session, log[k].ordinal) ==>
      Under(log[j], log[k].lsid, log[k].number)
  }

  // The exception: a commit repeated after a retryable write reserved a number and then never
  // reached a connection. Its number moves.
  predicate Steady(w: World, t: Turn)
    requires Enabled(w, t)
  {
    t.Attempted? && t.reached && w.sessions[t.i].client.state == TRANSACTION_COMMITTED
    && w.sessions[t.i].op.command.kind.CommitTransaction? ==>
      w.sessions[t.i].client.increment == 0
  }

  predicate AllSteady(w: World, turns: seq<Turn>)
    requires Legal(w, turns)
    decreases |turns|
  {
    turns == [] || (Steady(w, turns[0]) && AllSteady(Step(w, turns[0]), turns[1..]))
  }

  predicate AllUnder(log: seq<Sent>, i: nat, ordinal: nat, server: Option<nat>, numbers: map<nat, nat>)
  {
    forall k :: 0 <= k < |log| && Of(log[k], i, ordinal) ==>
      server == Some(log[k].lsid) && log[k].number == NumberOf(numbers, log[k].lsid)
  }

  // What a session may still add to went out under the current number of its server session.
  predicate Settled(i: nat, x: Session, numbers: map<nat, nat>, log: seq<Sent>)
  {
    !x.client.hasEnded ==>
      && (Known(x.client.state) ==> AllUnder(log, i, x.txn, x.client.server, numbers))
      && (Writing(x) ==>
            && AllUnder(log, i, x.write, x.client.server, numbers)
            && (x.client.increment > 0 ==> NoneOf(log, i, x.write)))
  }

  ghost predicate SteadyInv(w: World)
  {
    && Inv(w) && OneNumber(w.log)
    && (forall i :: 0 <= i < |w.sessions| ==> Settled(i, w.sessions[i], w.numbers, w.log))
  }

  lemma SessionSettles(w: World, i: nat, y: Session)
    requires SteadyInv(w) && i < |w.sessions| && Settled(i, y, w.numbers, w.log)
    requires Inv(SetSession(w, i, y))
    ensures SteadyInv(SetSession(w, i, y))
  {
    hide Inv, OneNumber, Settled;
  }

  lemma NoneAllUnder(log: seq<Sent>, i: nat, ordinal: nat, server: Option<nat>, numbers: map<nat, nat>)
    requires NoneOf(log, i, ordinal)
    ensures AllUnder(log, i, ordinal, server, numbers)
  {
  }

  lemma IdleTurnSettles(w: World, t: Turn)
    requires SteadyInv(w) && Enabled(w, t) && (t.StartTxn? || t.Begin? || t.EndTxn?)
    ensures SteadyInv(Step(w, t))
  {
    hide Inv, OneNumber, AllUnder, NoneOf;
    var x := w.sessions[t.i];
    StepKeeps(w, t);
    NewOrdinal(w, t.i);
    NoneAllUnder(w.log, t.i, x.made, x.client.server, w.numbers);
    IdleFits(w, t.i);
    assert Settled(t.i, x, w.numbers, w.log);
    var y := Step(w, t).sessions[t.i];
    assert Step(w, t) == SetSession(w, t.i, y) by { IdleTurnShape(w, t); }
    assert Settled(t.i, y, w.numbers, w.log);
    SessionSettles(w, t.i, y);
  }

  lemma IdleFits(w: World, i: nat)
    requires Inv(w) && i < |w.sessions|
    ensures Fits(w.sessions[i])
  {
  }

  lemma IdleTurnShape(w: World, t: Turn)
    requires Inv(w) && Enabled(w, t) && (t.StartTxn? || t.Begin? || t.EndTxn?)
    ensures t.i < |Step(w, t).sessions| && Step(w, t) == SetSession(w, t.i, Step(w, t).sessions[t.i])
  {
    StepKeeps(w, t);
    var x := w.sessions[t.i];
    assert w.sessions[t.i := x] == w.sessions;
  }

  // ----- Commands sent by a steady turn -----

  lemma AppendOneNumber(log: seq<Sent>, e: Sent)
    requires OneNumber(log)
    requires forall k :: 0 <= k < |log| && Of(log[k], e.session, e.ordinal) ==> Under(log[k], e.lsid, e.number)
    ensures OneNumber(log + [e])
  {
  }

  // Steady: the number does not move under a transaction the server knows.
  predicate SteadySend(x: Session)
    requires x.op.Running?
  {
    x.client.state == TRANSACTION_COMMITTED && x.op.command.kind.CommitTransaction? ==> x.client.increment == 0
  }

  lemma EntrySettled(w: World, i: nat)
    requires SteadyInv(w) && i < |w.sessions| && w.sessions[i].op.Running? && Writes(w.sessions[i])
    requires SteadySend(w.sessions[i]) && w.sessions[i].client.server.Some?
    ensures var x := w.sessions[i];
      var id := x.client.server.value;
      var e := Entry(i, x, id, NumberOf(w.numbers, id) + x.client.increment);
      forall k :: 0 <= k < |w.log| && Of(w.log[k], i, e.ordinal) ==> Under(w.log[k], id, e.number)
  {
    hide Unique, StartsOnce, Exclusive, Logged, OneNumber, NumberOf;
    var x := w.sessions[i];
    assert Fits(x) && Tracks(i, x, w.numbers, w.log) && Settled(i, x, w.numbers, w.log);
  }

  lemma OwnSettles(
    i: nat, x: Session, y: Session, numbers: map<nat, nat>, after: map<nat, nat>, log: seq<Sent>, e: Sent)
    requires Fits(x) && x.op.Running? && Writes(x) && x.client.server == Some(e.lsid)
    requires y == x.(client := Apply(x.client, Held(e.lsid, NumberOf(numbers, e.lsid)), x.op.command).client)
    requires e == Entry(i, x, e.lsid, e.number) && NumberOf(after, e.lsid) == e.number
    requires forall k :: 0 <= k < |log| && Of(log[k], i, e.ordinal) ==> Under(log[k], e.lsid, e.number)
    ensures Settled(i, y, after, log + [e])
  {
    hide NumberOf;
    assert AllUnder(log + [e], i, e.ordinal, x.client.server, after);
  }

  lemma OthersSettle(j: nat, x: Session, numbers: map<nat, nat>, after: map<nat, nat>, log: seq<Sent>, e: Sent)
    requires Settled(j, x, numbers, log) && e.session != j
    requires Live(x) ==>
      x.client.server.value != e.lsid
        && NumberOf(after, x.client.server.value) == NumberOf(numbers, x.client.server.value)
    ensures Settled(j, x, after, log + [e])
  {
    hide NumberOf;
  }

  lemma SendNumberedSettles(w: World, i: nat)
    requires SteadyInv(w) && i < |w.sessions| && w.sessions[i].op.Running? && w.sessions[i].client.server.Some?
    requires Writes(w.sessions[i]) && SteadySend(w.sessions[i])
    ensures SteadyInv(Send(w, i))
  {
    hide Inv, OneNumber, NoneOf, Fits, Settled, Apply, NumberOf, Writes, SteadySend, Live;
    var x, s, id := w.sessions[i], Send(w, i), w.sessions[i].client.server.value;
    var held := Held(id, NumberOf(w.numbers, id));
    var e := Entry(i, x, id, held.txnNumber + x.client.increment);
    SendKeeps(w, i);
    IdleFits(w, i);
    SendFits(x, held);
    SendWrites(x, held);
    SentNumbers(w.numbers, id, e.number);
    Apart(w, i);
    EntrySettled(w, i);
    assert s.log == w.log + [e] && s.numbers == w.numbers[id := e.number];
    AppendOneNumber(w.log, e);
    OwnSettles(i, x, s.sessions[i], w.numbers, s.numbers, w.log, e);
    forall j | 0 <= j < |w.sessions| && j != i
      ensures Settled(j, s.sessions[j], s.numbers, s.log)
    {
      OthersSettle(j, w.sessions[j], w.numbers, s.numbers, w.log, e);
    }
  }

  lemma Apart(w: World, i: nat)
    requires Inv(w) && i < |w.sessions| && w.sessions[i].op.Running? && w.sessions[i].client.server.Some?
    ensures forall j :: 0 <= j < |w.sessions| && j != i && Live(w.sessions[j]) ==>
      w.sessions[j].client.server.Some? && w.sessions[j].client.server != w.sessions[i].client.server
  {
    hide Tracks, Unique, StartsOnce, Logged, Fits;
    assert Fits(w.sessions[i]);
    SendExclusive(w, i);
  }

  lemma SamePlainSettles(i: nat, x: Session, y: Session, numbers: map<nat, nat>, after: map<nat, nat>, log: seq<Sent>)
    requires Settled(i, x, numbers, log) && y.txn == x.txn && y.write == x.write && y.op == x.op
    requires y.client.state == x.client.state || y.client.state == NO_TRANSACTION
    requires y.client.server == x.client.server && y.client.increment == x.client.increment
      && y.client.hasEnded == x.client.hasEnded
    requires forall id :: NumberOf(after, id) == NumberOf(numbers, id)
    ensures Settled(i, y, after, log)
  {
    hide NumberOf;
  }

  lemma SendPlainSettles(w: World, i: nat)
    requires SteadyInv(w) && i < |w.sessions| && w.sessions[i].op.Running? && w.sessions[i].client.server.Some?
    requires !Writes(w.sessions[i])
    ensures SteadyInv(Send(w, i))
  {
    hide Inv, OneNumber, NoneOf, Fits, Settled, Apply, NumberOf, Writes;
    var x, s, id := w.sessions[i], Send(w, i), w.sessions[i].client.server.value;
    var held := Held(id, NumberOf(w.numbers, id));
    SendKeeps(w, i);
    IdleFits(w, i);
    SendFits(x, held);
    SendWrites(x, held);
    SentNumbers(w.numbers, id, held.txnNumber);
    RunningLives(x);
    forall j | 0 <= j < |w.sessions|
      ensures Settled(j, s.sessions[j], s.numbers, s.log)
    {
      SamePlainSettles(j, w.sessions[j], s.sessions[j], w.numbers, s.numbers, w.log);
    }
  }

  // ----- The other turns -----

  lemma HoldSettles(w: World, i: nat, k: Conditions<nat>)
    requires SteadyInv(w) && i < |w.sessions|
    ensures SteadyInv(Hold(w, i, k))
  {
    hide Inv, OneNumber, Fits, Settled, Acquire, NumberOf;
    var h := Hold(w, i, k);
    HoldKeeps(w, i, k);
    forall j | 0 <= j < |w.sessions|
      ensures Settled(j, h.sessions[j], h.numbers, h.log)
    {
      HeldSettles(w, j, h.sessions[j], h.numbers);
    }
  }

  lemma HeldSettles(w: World, j: nat, y: Session, numbers: map<nat, nat>)
    requires SteadyInv(w) && j < |w.sessions| && Settled(j, w.sessions[j], w.numbers, w.log)
    requires numbers == w.numbers || numbers == w.numbers[w.created := 0]
    requires
      || y == w.sessions[j]
      || (&& w.sessions[j].client.server.None? && y.client.server.Some?
          && y == Holding(w.sessions[j], y.client.server.value))
    ensures Settled(j, y, numbers, w.log)
  {
    hide Unique, StartsOnce, Exclusive, Tracks, OneNumber;
    assert Fits(w.sessions[j]);
  }

  lemma CloseSettles(w: World, i: nat, commit: bool)
    requires SteadyInv(w) && i < |w.sessions| && Inv(Close(w, i, commit)) && Known(w.sessions[i].client.state)
    requires !commit ==> w.sessions[i].client.state == TRANSACTION_IN_PROGRESS
    ensures SteadyInv(Close(w, i, commit))
  {
    hide Inv, OneNumber, AllUnder, NoneOf;
    assert Settled(i, w.sessions[i], w.numbers, w.log);
    SessionSettles(w, i, Close(w, i, commit).sessions[i]);
  }

  lemma LeaveSettles(w: World, i: nat, k: Conditions<nat>)
    requires SteadyInv(w) && i < |w.sessions| && Inv(Leave(w, i, k))
    ensures SteadyInv(Leave(w, i, k))
  {
    hide Inv, OneNumber, AllUnder, NoneOf, Release;
  }

  lemma FinishSettles(w: World, i: nat, k: Conditions<nat>)
    requires SteadyInv(w) && i < |w.sessions| && w.sessions[i].op.Running?
    ensures SteadyInv(Finish(w, i, k))
  {
    hide Inv, OneNumber, AllUnder, NoneOf, Close, Leave;
    var x := w.sessions[i];
    IdleFits(w, i);
    FinishKeeps(w, i, k);
    match x.op.after {
      case Answer =>
        assert Settled(i, x, w.numbers, w.log);
        SessionSettles(w, i, x.(op := Idle));
      case Commit => CloseSettles(w, i, true);
      case Abort(ending) =>
        CloseKeeps(w, i, false);
        CloseSettles(w, i, false);
        if ending {
          StillOpen(w, i);
          LeaveSettles(Close(w, i, false), i, k);
        }
    }
  }

  lemma AttemptSettles(w: World, i: nat, reached: bool, again: bool, k: Conditions<nat>)
    requires SteadyInv(w) && i < |w.sessions| && w.sessions[i].op.Running? && (reached ==> SteadySend(w.sessions[i]))
    ensures SteadyInv(AttemptOne(w, i, reached, again, k))
  {
    hide Inv, OneNumber, Settled, Hold, Send, Finish, Applying, Writes;
    var held := Hold(w, i, k);
    HoldSettles(w, i, k);
    HoldIsSame(w, i, k);
    if reached {
      if Writes(held.sessions[i]) {
        SendNumberedSettles(held, i);
      } else {
        SendPlainSettles(held, i);
      }
    }
    var w' := if reached then Send(held, i) else w;
    var x := w'.sessions[i];
    FinishSettles(w', i, k);
    if x.op.left > 1 {
      var y := x.(op := x.op.(left := x.op.left - 1));
      FewerLeft(w', i);
      SessionSettles(w', i, y);
    }
  }

  lemma HoldIsSame(w: World, i: nat, k: Conditions<nat>)
    requires i < |w.sessions| && w.sessions[i].op.Running?
    ensures var x, y := w.sessions[i], Hold(w, i, k).sessions[i];
      y.op.Running? && (SteadySend(y) <==> SteadySend(x))
  {
    hide Acquire;
  }

  lemma FewerLeft(w: World, i: nat)
    requires SteadyInv(w) && i < |w.sessions| && w.sessions[i].op.Running? && w.sessions[i].op.left > 1
    ensures var x := w.sessions[i];
      var y := x.(op := x.op.(left := x.op.left - 1));
      Settled(i, y, w.numbers, w.log) && Inv(SetSession(w, i, y))
  {
    hide Unique, StartsOnce, Exclusive, Logged, NoneOf, OnlyUnder, OneNumber;
    var x := w.sessions[i];
    assert Fits(x) && Tracks(i, x, w.numbers, w.log) && Settled(i, x, w.numbers, w.log);
    SessionChanges(w, i, x.(op := x.op.(left := x.op.left - 1)));
  }

  lemma EndSessionSettles(w: World, i: nat, k: Conditions<nat>)
    requires SteadyInv(w) && i < |w.sessions| && w.sessions[i].op.Idle?
    ensures SteadyInv(EndOneSession(w, i, k))
  {
    hide Inv, OneNumber, AllUnder, NoneOf, Leave;
    var x := w.sessions[i];
    EndSessionKeeps(w, i, k);
    assert Settled(i, x, w.numbers, w.log);
    if !x.client.hasEnded {
      if !Active(x.client.state) {
        LeaveSettles(w, i, k);
      } else if x.client.state == STARTING_TRANSACTION {
        EndKeeps(w, i, false);
        var y := x.(client := x.client.(state := TRANSACTION_ABORTED));
        SessionSettles(w, i, y);
        LeaveSettles(SetSession(w, i, y), i, k);
      } else {
        SessionSettles(w, i, x.(op := Running(Command(AbortTransaction, false), 2, Abort(true))));
      }
    }
  }

  lemma OpenSettles(w: World, explicit: bool, k: Conditions<nat>)
    requires SteadyInv(w)
    ensures SteadyInv(OpenNew(w, explicit, k))
  {
    hide Inv, OneNumber, AllUnder, NoneOf, Acquire;
    var x := NewSession(explicit);
    var added := w.(sessions := w.sessions + [x]);
    AddKeeps(w, explicit);
    assert Settled(|w.sessions|, x, w.numbers, w.log);
    forall i | 0 <= i < |added.sessions|
      ensures Settled(i, added.sessions[i], w.numbers, w.log)
    {
      if i < |w.sessions| {
        assert Settled(i, w.sessions[i], w.numbers, w.log);
      }
    }
    if explicit {
      HoldSettles(added, |w.sessions|, k);
    }
  }

  lemma StepSettles(w: World, t: Turn)
    requires SteadyInv(w) && Enabled(w, t) && Steady(w, t)
    ensures SteadyInv(Step(w, t))
  {
    hide OneNumber, Settled, OpenNew, StartOne, BeginOne, EndOne, AttemptOne, EndOneSession, Unique, StartsOnce,
      Logged, Fits, Tracks;
    match t {
      case OpenSession(explicit, k) => OpenSettles(w, explicit, k);
      case Attempted(i, reached, again, k) => AttemptSettles(w, i, reached, again, k);
      case EndSessionTurn(i, k) => EndSessionSettles(w, i, k);
      case EndAllPooled => StepKeeps(w, t);
      case _ => IdleTurnSettles(w, t);
    }
  }

  // ----- The exact condition -----

  lemma AttemptLog(w: World, i: nat, reached: bool, again: bool, k: Conditions<nat>)
    requires i < |w.sessions| && w.sessions[i].op.Running?
    ensures AttemptOne(w, i, reached, again, k).log == if reached then Send(Hold(w, i, k), i).log else w.log
  {
    hide Apply, Acquire, Hold, Send, Applying;
  }

  lemma LogGrows(w: World, t: Turn)
    requires Enabled(w, t)
    ensures w.log <= Step(w, t).log
  {
    hide Apply, Acquire, Release, AttemptOne, StartTransaction, Open, EndTransaction, Closed;
    if t.Attempted? {
      AttemptLog(w, t.i, t.reached, t.again, t.conditions);
    }
  }

  lemma OneNumberPrefix(log: seq<Sent>, longer: seq<Sent>)
    requires log <= longer && OneNumber(longer)
    ensures OneNumber(log)
  {
    forall j, k | 0 <= j < |log| && 0 <= k < |log| && Of(log[j], log[k].session, log[k].ordinal)
      ensures Under(log[j], log[k].lsid, log[k].number)
    {
      assert longer[j] == log[j] && longer[k] == log[k];
    }
  }

  // The repeated commit goes out under a number its transaction never had.
  lemma UnsteadyMoves(w: World, t: Turn)
    requires Inv(w) && Enabled(w, t) && !Steady(w, t)
    ensures !OneNumber(Step(w, t).log)
  {
    hide Inv, NumberOf, Step, Entry, Under;
    UnsteadyEntry(w, t);
    UnsteadySends(w, t);
    var i, x := t.i, w.sessions[t.i];
    var id := x.client.server.value;
    var e := Entry(i, x, id, NumberOf(w.numbers, id) + x.client.increment);
    var k :| 0 <= k < |w.log| && Of(w.log[k], i, x.txn);
    assert (w.log + [e])[k] == w.log[k] && (w.log + [e])[|w.log|] == e;
    assert !Under((w.log + [e])[k], e.lsid, e.number);
  }

  lemma UnsteadyEntry(w: World, t: Turn)
    requires Inv(w) && Enabled(w, t) && !Steady(w, t)
    ensures var i, x := t.i, w.sessions[t.i];
      && x.client.server.Some?
      && (exists k :: 0 <= k < |w.log| && Of(w.log[k], i, x.txn))
      && var id := x.client.server.value;
      var e := Entry(i, x, id, NumberOf(w.numbers, id) + x.client.increment);
      Of(e, i, x.txn) && forall k :: 0 <= k < |w.log| ==> !Under(w.log[k], e.lsid, e.number)
  {
    hide Unique, StartsOnce, Exclusive, NumberOf;
    assert Fits(w.sessions[t.i]) && Tracks(t.i, w.sessions[t.i], w.numbers, w.log);
  }

  // The command of the turn is added to the log.
  lemma UnsteadySends(w: World, t: Turn)
    requires Inv(w) && Enabled(w, t) && !Steady(w, t)
    ensures var x := w.sessions[t.i];
      && x.client.server.Some?
      && var id := x.client.server.value;
      Step(w, t).log == w.log + [Entry(t.i, x, id, NumberOf(w.numbers, id) + x.client.increment)]
  {
    hide Unique, StartsOnce, Exclusive, Tracks, Logged, Apply, NumberOf, Step;
    var i, x := t.i, w.sessions[t.i];
    assert Fits(x);
    assert Hold(w, i, t.conditions) == w;
    AttemptLog(w, i, t.reached, t.again, t.conditions);
    SendWrites(x, Held(x.client.server.value, NumberOf(w.numbers, x.client.server.value)));
    StepAttempts(w, t);
  }

  lemma StepAttempts(w: World, t: Turn)
    requires Enabled(w, t) && t.Attempted?
    ensures Step(w, t) == AttemptOne(w, t.i, t.reached, t.again, t.conditions)
  {
    hide AttemptOne;
  }

  lemma {:induction false} RunLogGrows(w: World, turns: seq<Turn>)
    requires Legal(w, turns)
    ensures w.log <= Run(w, turns).log
    decreases |turns|
  {
    if turns != [] {
      hide Step, Enabled;
      LogGrows(w, turns[0]);
      RunLogGrows(Step(w, turns[0]), turns[1..]);
    }
  }

  lemma {:induction false} RunExactly(w: World, turns: seq<Turn>)
    requires SteadyInv(w) && Legal(w, turns)
    ensures OneNumber(Run(w, turns).log) <==> AllSteady(w, turns)
    decreases |turns|
  {
    if turns != [] {
      hide Step, Enabled, OneNumber, Inv, Settled, Steady;
      var next := Step(w, turns[0]);
      if Steady(w, turns[0]) {
        StepSettles(w, turns[0]);
        RunExactly(next, turns[1..]);
      } else {
        UnsteadyMoves(w, turns[0]);
        RunLogGrows(next, turns[1..]);
        if OneNumber(Run(next, turns[1..]).log) {
          OneNumberPrefix(next.log, Run(next, turns[1..]).log);
        }
      }
    }
  }

  // Both attempts of a retryable write, and all commands of a transaction, carry the same
  // server session and number in a run exactly when no commit is repeated while a reserved
  // number is still unused.
  lemma OneNumberExactly(turns: seq<Turn>)
    requires Legal(START, turns)
    ensures OneNumber(Run(START, turns).log) <==> AllSteady(START, turns)
  {
    hide Step, Enabled, Run, Legal, Inv, AllSteady;
    EmptyFits(START);
    RunExactly(START, turns);
  }

  // Both attempts of a retryable write, in one look: at most two go out, under one new number.
  lemma RetriesKeepTheirNumber(c: Client, held: Held, q: Request, first: Attempt, next: Reselection, second: Attempt)
    requires c.server.Some? ==> c.server.value == held.id
    ensures var sent := Execute(c, held, q, first, next, second).sent;
      && |sent| <= 2
      && (|sent| == 2 ==> WillRetryRead(c, q) || WillRetryWrite(c, q))
      && (!c.hasEnded && WillRetryWrite(c, q) && !q.unacknowledged ==>
            forall f :: f in sent ==> f == Fields(held.id, Some(held.txnNumber + c.increment + 1), false))
  {
  }

  // ----- The condition can fail -----

  const CALM: Conditions<nat> := Conditions({}, false, true, false)

  const READ: Request :=
    Request(false, true, true, true, false, true, true, true, true, false, false)

  const WRITE: Request :=
    Request(false, true, true, false, true, true, true, true, false, true, false)

  // A transaction of one read, its commit, a retryable write that reaches no connection, and
  // the commit again.
  const REPEATED_COMMIT: seq<Turn> :=
    [OpenSession(true, CALM), StartTxn(0, Supported), Begin(0, READ), Attempted(0, true, false, CALM),
     EndTxn(0, true), Attempted(0, true, false, CALM),
     Begin(0, WRITE), Attempted(0, false, false, CALM),
     EndTxn(0, true), Attempted(0, true, false, CALM)]

  function Out(number: nat, starts: bool): Sent
  {
    Sent(0, 0, 0, number, true, starts)
  }

  // The world with its one session after k turns.
  function Stage(k: nat): World
    requires 0 < k <= 10
  {
    var commit := Running(Command(CommitTransaction, false), 2, Commit);
    var state :=
      if k == 1 then NO_TRANSACTION else if k <= 3 then STARTING_TRANSACTION
      else if k <= 5 then TRANSACTION_IN_PROGRESS else TRANSACTION_COMMITTED;
    var increment := if k == 2 || k == 3 || (7 <= k <= 9) then 1 else 0;
    var op :=
      if k == 3 then Running(Command(Plain, false), 1, Answer) else if k == 5 || k == 9 then commit
      else if k == 7 then Running(Command(RetryableWrite, false), 2, Answer) else Idle;
    var write, made := if k >= 7 then 1 else 0, if k == 1 then 0 else if k < 7 then 1 else 2;
    var log :=
      if k <= 3 then [] else if k <= 5 then [Out(1, true)] else if k <= 9 then [Out(1, true), Out(1, false)]
      else [Out(1, true), Out(1, false), Out(2, false)];
    World([], 1, map[0 := |log| - if k >= 6 then 1 else 0],
          [Session(Client(true, false, Some(0), increment, state), op, 0, write, made)], log, false)
  }

  lemma FirstTurns()
    ensures Enabled(START, REPEATED_COMMIT[0]) && Step(START, REPEATED_COMMIT[0]) == Stage(1)
    ensures Enabled(Stage(1), REPEATED_COMMIT[1]) && Step(Stage(1), REPEATED_COMMIT[1]) == Stage(2)
    ensures Enabled(Stage(2), REPEATED_COMMIT[2]) && Step(Stage(2), REPEATED_COMMIT[2]) == Stage(3)
  {
  }

  lemma ReadTurn()
    ensures Enabled(Stage(3), REPEATED_COMMIT[3]) && Step(Stage(3), REPEATED_COMMIT[3]) == Stage(4)
  {
  }

  lemma CommitTurns()
    ensures Enabled(Stage(4), REPEATED_COMMIT[4]) && Step(Stage(4), REPEATED_COMMIT[4]) == Stage(5)
    ensures Enabled(Stage(5), REPEATED_COMMIT[5]) && Step(Stage(5), REPEATED_COMMIT[5]) == Stage(6)
  {
  }

  lemma LastTurns()
    ensures Enabled(Stage(6), REPEATED_COMMIT[6]) && Step(Stage(6), REPEATED_COMMIT[6]) == Stage(7)
    ensures Enabled(Stage(7), REPEATED_COMMIT[7]) && Step(Stage(7), REPEATED_COMMIT[7]) == Stage(8)
    ensures Enabled(Stage(8), REPEATED_COMMIT[8]) && Step(Stage(8), REPEATED_COMMIT[8]) == Stage(9)
    ensures Enabled(Stage(9), REPEATED_COMMIT[9]) && Step(Stage(9), REPEATED_COMMIT[9]) == Stage(10)
  {
  }

  lemma {:induction false} FromStage(k: nat)
    requires 0 < k <= 10
    ensures Legal(Stage(k), REPEATED_COMMIT[k..]) && Run(Stage(k), REPEATED_COMMIT[k..]) == Stage(10)
    decreases 10 - k
  {
    hide Step, Enabled, Stage;
    if k < 10 {
      FirstTurns();
      ReadTurn();
      CommitTurns();
      LastTurns();
      FromStage(k + 1);
      var rest := REPEATED_COMMIT[k..];
      assert rest[0] == REPEATED_COMMIT[k] && rest[1..] == REPEATED_COMMIT[k + 1..];
    }
  }

  // The second commit of the one transaction carries another number than the first.
  lemma CommitMoves()
    ensures Legal(START, REPEATED_COMMIT)
    ensures Run(START, REPEATED_COMMIT).log == [Out(1, true), Out(1, false), Out(2, false)]
  {
    hide Step, Enabled;
    FirstTurns();
    FromStage(1);
    assert REPEATED_COMMIT[1..] == REPEATED_COMMIT[0..][1..];
  }
}
