/**
 What the caller of a bulk learns: which batches went out, what the totals add up to, and which
 of its operations an error or an upserted id belongs to.
 */
module BulkResults {
  import opened Wrappers
  import opened BulkBatches
  import opened BulkExecution
  import BulkOrdered
  import BulkUnordered

  // The response a reply is merged with.
  function ResponseOf(reply: Reply): Option<Response>
  {
    match reply
    case Answered(response) => Some(response)
    case ConcernFailure(response) => Some(response)
    case SendThrew(code) => Some(FailedSend(code))
    case DriverError => None
  }

  function MergeReply(batch: Batch, r: BulkResult, reply: Reply): (merged: BulkResult)
    requires Clean(r)
    ensures Clean(merged)
  {
    var response := ResponseOf(reply);
    if response.None? then r else Merge(batch, r, response.value)
  }

  // All replies merged in turn.
  function MergeAll(batches: seq<Batch>, replies: seq<Reply>): (r: BulkResult)
    requires |replies| == |batches|
    ensures Clean(r)
    decreases |batches|
  {
    if batches == [] then NO_RESULT
    else
      var last := |batches| - 1;
      MergeReply(batches[last], MergeAll(batches[..last], replies[..last]), replies[last])
  }

  // A reply that leaves an error with the result.
  predicate Fails(reply: Reply)
  {
    reply.Answered? ==>
      !reply.response.ok || reply.response.writeErrors != [] || reply.response.writeConcernError
  }

  predicate NoErrors(r: BulkResult)
  {
    r.ok && r.writeErrors == [] && r.writeConcernErrors == 0
  }

  // A failed response always leaves an error behind.
  predicate Blamed(r: BulkResult)
  {
    r.ok || r.writeErrors != []
  }

  lemma MergeBlames(batch: Batch, r: BulkResult, reply: Reply)
    requires Clean(r) && Blamed(r) && reply.Answered?
    ensures Blamed(MergeReply(batch, r, reply))
    ensures NoErrors(MergeReply(batch, r, reply)) <==> NoErrors(r) && !Fails(reply)
  {
    hide MergeOpTime, MergeCounts;
    var timed := MergeOpTime(r, reply.response);
    TimeOnly(r, reply.response);
    CountsOnly(batch, timed, reply.response);
  }

  lemma TimeOnly(r: BulkResult, response: Response)
    requires Clean(r)
    ensures MergeOpTime(r, response).(opTime := r.opTime) == r
  {
  }

  lemma CountsOnly(batch: Batch, r: BulkResult, response: Response)
    ensures var m := MergeCounts(batch, r, response);
      m.ok == r.ok && m.writeErrors == r.writeErrors && m.writeConcernErrors == r.writeConcernErrors
        && m.opTime == r.opTime
  {
  }

  // ----- What is sent -----

  // The execution from the k-th batch on, when the ones before it went well enough.
  ghost predicate Ran(ordered: bool, batches: seq<Batch>, replies: seq<Reply>, k: nat, x: Execution)
    requires |replies| == |batches| && k <= |batches|
  {
    && x.taken <= batches[k..]
    && var taken := k + |x.taken|;
    && x.result == MergeAll(batches[..taken], replies[..taken])
    && (forall i :: k <= i < taken - 1 ==> replies[i].Answered? && (ordered ==> !Fails(replies[i])))
    && (taken < |batches| ==> taken > k && (!replies[taken - 1].Answered? || (ordered && Fails(replies[taken - 1]))))
    && (x.callback.Returned? <==> forall i :: 0 <= i < taken ==> !Fails(replies[i]))
  }

  lemma MergeNext(batches: seq<Batch>, replies: seq<Reply>, k: nat)
    requires |replies| == |batches| && k < |batches|
    ensures MergeAll(batches[..k + 1], replies[..k + 1])
      == MergeReply(batches[k], MergeAll(batches[..k], replies[..k]), replies[k])
  {
    assert batches[..k + 1][..k] == batches[..k] && replies[..k + 1][..k] == replies[..k];
  }

  // One step of the execution: the batch is sent and its reply merged.
  lemma Unrolled(ordered: bool, batches: seq<Batch>, replies: seq<Reply>, k: nat, r: BulkResult)
    requires |replies| == |batches| && k < |batches| && Clean(r)
    ensures var x, merged := Execute(ordered, batches[k..], r, replies[k..]), MergeReply(batches[k], r, replies[k]);
      var stop := HandleWriteError(ordered, |batches| - k - 1, merged);
      if replies[k].Answered? && stop.None? then
        var rest := Execute(ordered, batches[k + 1..], merged, replies[k + 1..]);
        x == rest.(taken := [batches[k]] + rest.taken, sent := [batches[k]] + rest.sent)
      else
        x.taken == [batches[k]] && x.result == merged && !x.callback.Returned?
  {
    hide Merge;
    assert batches[k..][1..] == batches[k + 1..] && replies[k..][1..] == replies[k + 1..];
  }

  lemma NothingToReport(ordered: bool, left: nat, r: BulkResult)
    requires Blamed(r) && (ordered || left == 0)
    ensures HandleWriteError(ordered, left, r).None? <==> NoErrors(r)
  {
  }

  // The merged replies know whether one failed.
  lemma {:induction false} ErrorsKept(batches: seq<Batch>, replies: seq<Reply>)
    requires |replies| == |batches| && forall i :: 0 <= i < |replies| ==> replies[i].Answered?
    ensures Blamed(MergeAll(batches, replies))
    ensures NoErrors(MergeAll(batches, replies)) <==> forall i :: 0 <= i < |replies| ==> !Fails(replies[i])
    decreases |batches|
  {
    if batches != [] {
      hide MergeReply, Fails;
      var last := |batches| - 1;
      ErrorsKept(batches[..last], replies[..last]);
      MergeBlames(batches[last], MergeAll(batches[..last], replies[..last]), replies[last]);
    }
  }

  predicate WentOn(ordered: bool, replies: seq<Reply>, k: nat)
    requires k <= |replies|
  {
    forall i :: 0 <= i < k ==> replies[i].Answered? && (ordered || k == |replies| ==> !Fails(replies[i]))
  }

  lemma FailsUnanswered(reply: Reply)
    requires !reply.Answered?
    ensures Fails(reply)
  {
  }

  lemma RanStops(ordered: bool, batches: seq<Batch>, replies: seq<Reply>, k: nat, x: Execution)
    requires |replies| == |batches| && k < |batches| && WentOn(ordered, replies, k) && !WentOn(ordered, replies, k + 1)
    requires x.taken == [batches[k]] && x.result == MergeAll(batches[..k + 1], replies[..k + 1])
      && !x.callback.Returned?
    ensures Ran(ordered, batches, replies, k, x)
  {
    hide MergeAll, Fails;
    if replies[k].Answered? {
      var i :| 0 <= i < k + 1 && !(replies[i].Answered? && (ordered || k + 1 == |replies| ==> !Fails(replies[i])));
      assert Fails(replies[i]);
    } else {
      FailsUnanswered(replies[k]);
    }
  }

  lemma RanGoesOn(ordered: bool, batches: seq<Batch>, replies: seq<Reply>, k: nat, rest: Execution)
    requires |replies| == |batches| && k < |batches| && WentOn(ordered, replies, k + 1)
    requires Ran(ordered, batches, replies, k + 1, rest)
    ensures Ran(ordered, batches, replies, k,
      rest.(taken := [batches[k]] + rest.taken, sent := [batches[k]] + rest.sent))
  {
    hide MergeAll, Fails;
  }

  // The errors among the replies so far decide whether the bulk goes on.
  lemma GoesOn(ordered: bool, batches: seq<Batch>, replies: seq<Reply>, k: nat)
    requires |replies| == |batches| && k < |batches| && WentOn(ordered, replies, k)
    ensures var merged := MergeAll(batches[..k + 1], replies[..k + 1]);
      replies[k].Answered? && HandleWriteError(ordered, |batches| - k - 1, merged).None? <==>
        WentOn(ordered, replies, k + 1)
  {
    hide MergeAll, NoErrors, Blamed, Fails, HandleWriteError;
    var merged := MergeAll(batches[..k + 1], replies[..k + 1]);
    if replies[k].Answered? {
      ErrorsKept(batches[..k + 1], replies[..k + 1]);
      assert forall i :: 0 <= i <= k ==> replies[..k + 1][i] == replies[i];
      if ordered || k + 1 == |batches| {
        NothingToReport(ordered, |batches| - k - 1, merged);
      } else {
        StillLeft(|batches| - k - 1, merged);
      }
    }
  }

  lemma {:induction false} RunsFrom(ordered: bool, batches: seq<Batch>, replies: seq<Reply>, k: nat)
    requires |replies| == |batches| && k <= |batches| && WentOn(ordered, replies, k)
    ensures Ran(ordered, batches, replies, k,
      Execute(ordered, batches[k..], MergeAll(batches[..k], replies[..k]), replies[k..]))
    decreases |batches| - k
  {
    hide MergeReply, HandleWriteError, MergeAll, WentOn, Ran, Execute;
    if k == |batches| {
      RanDone(ordered, batches, replies, MergeAll(batches[..k], replies[..k]));
    } else {
      Unrolled(ordered, batches, replies, k, MergeAll(batches[..k], replies[..k]));
      MergeNext(batches, replies, k);
      GoesOn(ordered, batches, replies, k);
      if WentOn(ordered, replies, k + 1) {
        RunsFrom(ordered, batches, replies, k + 1);
        RanGoesOn(ordered, batches, replies, k,
          Execute(ordered, batches[k + 1..], MergeAll(batches[..k + 1], replies[..k + 1]), replies[k + 1..]));
      } else {
        RanStops(ordered, batches, replies, k,
          Execute(ordered, batches[k..], MergeAll(batches[..k], replies[..k]), replies[k..]));
      }
    }
  }

  lemma RanDone(ordered: bool, batches: seq<Batch>, replies: seq<Reply>, r: BulkResult)
    requires |replies| == |batches| && WentOn(ordered, replies, |batches|)
    requires r == MergeAll(batches[..|batches|], replies[..|batches|])
    ensures Ran(ordered, batches, replies, |batches|, Execute(ordered, batches[|batches|..], r, replies[|batches|..]))
  {
    hide MergeAll, Fails;
  }

  lemma StillLeft(left: nat, r: BulkResult)
    requires left > 0
    ensures HandleWriteError(false, left, r).None?
  {
  }

  // What the callback is called with, from the last reply and what was merged.
  function CallbackOf(reply: Reply, r: BulkResult): Callback
  {
    match reply
    case DriverError => Failed(DriverFailed)
    case ConcernFailure(_) => Failed(ConcernFailed)
    case SendThrew(_) => Nothing
    case Answered(_) =>
      if r.writeErrors != [] then Failed(WriteFailed)
      else if r.writeConcernErrors > 0 then Failed(ConcernFailed)
      else Returned(r)
  }

  // Sending the batch at the end of the list threw.
  predicate SendingThrew(taken: seq<Batch>, replies: seq<Reply>)
    requires |taken| <= |replies|
  {
    taken != [] && replies[|taken| - 1].SendThrew?
  }

  // The last reply decides what the caller hears and whether its batch went out.
  lemma {:induction false} LastDecides(ordered: bool, batches: seq<Batch>, r: BulkResult, replies: seq<Reply>)
    requires |replies| == |batches| && Clean(r)
    ensures var x := Execute(ordered, batches, r, replies);
      && |x.taken| <= |replies|
      && x.sent == (if SendingThrew(x.taken, replies) then x.taken[..|x.taken| - 1] else x.taken)
      && (batches != [] ==> x.taken != [])
      && x.callback == if x.taken == [] then Returned(r) else CallbackOf(replies[|x.taken| - 1], x.result)
    decreases |batches|
  {
    hide Merge;
    if batches != [] && replies[0].Answered? {
      var merged := Merge(batches[0], r, replies[0].response);
      if HandleWriteError(ordered, |batches| - 1, merged).None? {
        LastDecides(ordered, batches[1..], merged, replies[1..]);
        var x, rest := Execute(ordered, batches, r, replies), Execute(ordered, batches[1..], merged, replies[1..]);
        assert x.taken == [batches[0]] + rest.taken;
        if rest.taken != [] {
          assert replies[1..][|rest.taken| - 1] == replies[|x.taken| - 1];
        }
        if SendingThrew(x.taken, replies) {
          assert x.sent == x.taken[..|x.taken| - 1];
        }
      }
    }
  }

  // The batches go out in order, each at most once. The run ends early only after a batch with
  // no plain answer, or, when ordered, after the first one with an error; otherwise everything
  // is sent. The caller is told of no error exactly when no reply failed or sending threw; then
  // it is told nothing at all, and the batch whose sending threw did not go out.
  lemma WhatIsSent(ordered: bool, batches: seq<Batch>, replies: seq<Reply>)
    requires |replies| == |batches|
    ensures var x := Execute(ordered, batches, NO_RESULT, replies);
      var count := |x.taken|;
      && x.taken <= batches
      && var threw := SendingThrew(x.taken, replies);
      && x.sent == (if threw then x.taken[..count - 1] else x.taken)
      && x.result == MergeAll(x.taken, replies[..count])
      && (forall i :: 0 <= i < count - 1 ==> replies[i].Answered? && (ordered ==> !Fails(replies[i])))
      && (count < |batches| ==> count > 0 && (!replies[count - 1].Answered? || (ordered && Fails(replies[count - 1]))))
      && (!x.callback.Failed? <==> threw || forall i :: 0 <= i < count ==> !Fails(replies[i]))
      && (x.callback == Nothing <==> threw)
      && (x.callback.Returned? ==> x.callback.result == x.result)
  {
    hide MergeReply, Execute, Fails;
    RunsFrom(ordered, batches, replies, 0);
    LastDecides(ordered, batches, NO_RESULT, replies);
    assert batches[0..] == batches && replies[0..] == replies;
    assert batches[..0] == [] && MergeAll(batches[..0], replies[..0]) == NO_RESULT;
    var taken := Execute(ordered, batches, NO_RESULT, replies).taken;
    assert taken == batches[..|taken|];
  }

  // With an option that every batch's operation refuses, as `explain`, nothing goes out and
  // the caller is told neither of an error nor of a result, whatever there was to write.
  lemma NothingSentNothingSaid(ordered: bool, batches: seq<Batch>, replies: seq<Reply>)
    requires |replies| == |batches| && batches != [] && replies[0].SendThrew?
    ensures var x := Execute(ordered, batches, NO_RESULT, replies);
      && x.sent == [] && x.taken == [batches[0]] && x.callback == Nothing
      && x.result == NO_RESULT.(ok := false, writeErrors := [TopLevelError(batches[0], replies[0].code)])
  {
  }

  // ----- Totals -----

  // The response that is counted: one that came with ok.
  function Counted(reply: Reply): Option<Response>
  {
    var response := ResponseOf(reply);
    if response.Some? && response.value.ok then response else None
  }

  // The documents the servers acknowledged for the batches of one kind.
  function Total(batches: seq<Batch>, replies: seq<Reply>, kind: BatchType): nat
    requires |replies| == |batches|
    decreases |batches|
  {
    if batches == [] then 0
    else
      var last := |batches| - 1;
      Total(batches[..last], replies[..last], kind)
      + (if batches[last].batchType == kind && Counted(replies[last]).Some? then Counted(replies[last]).value.n else 0)
  }

  lemma MergeTotals(batch: Batch, r: BulkResult, reply: Reply)
    requires Clean(r)
    ensures var m, n := MergeReply(batch, r, reply), if Counted(reply).Some? then Counted(reply).value.n else 0;
      && m.nInserted == r.nInserted + (if batch.batchType == INSERT then n else 0)
      && m.nRemoved == r.nRemoved + (if batch.batchType == DELETE then n else 0)
      && m.nMatched + m.nUpserted == r.nMatched + r.nUpserted + (if batch.batchType == UPDATE then n else 0)
  {
    hide Upserts, NameErrors;
  }

  // Every acknowledged document is counted once: an update is matched or upserted.
  lemma {:induction false} Totals(batches: seq<Batch>, replies: seq<Reply>)
    requires |replies| == |batches|
    ensures var r := MergeAll(batches, replies);
      && r.nInserted == Total(batches, replies, INSERT)
      && r.nRemoved == Total(batches, replies, DELETE)
      && r.nMatched + r.nUpserted == Total(batches, replies, UPDATE)
    decreases |batches|
  {
    if batches != [] {
      hide MergeReply, Counted;
      var last := |batches| - 1;
      Totals(batches[..last], replies[..last]);
      MergeTotals(batches[last], MergeAll(batches[..last], replies[..last]), replies[last]);
    }
  }

  // A server upserts no more documents than it acknowledges, and only for updates.
  predicate SaneUpserts(batch: Batch, reply: Reply)
  {
    Counted(reply).Some? ==>
      var response := Counted(reply).value;
      |Upserts(batch, response.upserted)| <= if batch.batchType == UPDATE then response.n else 0
  }

  // Then the count of upserts is the length of their list and nothing is matched negatively.
  lemma {:induction false} UpsertsCounted(batches: seq<Batch>, replies: seq<Reply>)
    requires |replies| == |batches| && forall i :: 0 <= i < |batches| ==> SaneUpserts(batches[i], replies[i])
    ensures var r := MergeAll(batches, replies);
      r.nUpserted == |r.upserted| && r.nMatched >= 0
    decreases |batches|
  {
    if batches != [] {
      hide MergeReply, SaneUpserts;
      var last := |batches| - 1;
      UpsertsCounted(batches[..last], replies[..last]);
      assert SaneUpserts(batches[last], replies[last]);
      MergeUpserts(batches[last], MergeAll(batches[..last], replies[..last]), replies[last]);
    }
  }

  lemma MergeUpserts(batch: Batch, r: BulkResult, reply: Reply)
    requires Clean(r) && SaneUpserts(batch, reply)
    requires r.nUpserted == |r.upserted| && r.nMatched >= 0
    ensures var m := MergeReply(batch, r, reply); m.nUpserted == |m.upserted| && m.nMatched >= 0
  {
    hide NameErrors, Upserts;
  }

  // The modified documents the servers reported.
  function Modified(batches: seq<Batch>, replies: seq<Reply>): nat
    requires |replies| == |batches|
    decreases |batches|
  {
    if batches == [] then 0
    else
      var last := |batches| - 1;
      Modified(batches[..last], replies[..last])
      + (if Updated(batches[last], replies[last]) && Counted(replies[last]).value.nModified.Some?
         then Counted(replies[last]).value.nModified.value else 0)
  }

  predicate Updated(batch: Batch, reply: Reply)
  {
    batch.batchType == UPDATE && Counted(reply).Some? && Counted(reply).value.n != 0
  }

  predicate LeavesOutModified(batch: Batch, reply: Reply)
  {
    Updated(batch, reply) && Counted(reply).value.nModified.None?
  }

  // A response without nModified resets the total: it is the sum of what was reported exactly
  // when nothing had been reported before any such response.
  lemma {:induction false} ModifiedTotal(batches: seq<Batch>, replies: seq<Reply>)
    requires |replies| == |batches|
    ensures var r := MergeAll(batches, replies);
      && r.nModified <= Modified(batches, replies)
      && (r.nModified == Modified(batches, replies) <==> NoneLost(batches, replies))
    decreases |batches|
  {
    if batches != [] {
      hide MergeReply, LeavesOutModified, Updated, NoneLost;
      var last := |batches| - 1;
      var b, p := batches[..last], replies[..last];
      ModifiedTotal(b, p);
      MergeModified(batches[last], MergeAll(b, p), replies[last]);
      LeavingOut(batches[last], replies[last]);
      NoneLostBefore(batches, replies);
    }
  }

  // No modified document was reported before a response that leaves the number out.
  predicate NoneLost(batches: seq<Batch>, replies: seq<Reply>)
    requires |replies| == |batches|
  {
    forall i :: 0 <= i < |batches| && LeavesOutModified(batches[i], replies[i]) ==>
      Modified(batches[..i], replies[..i]) == 0
  }

  lemma LeavingOut(batch: Batch, reply: Reply)
    ensures LeavesOutModified(batch, reply) ==> Updated(batch, reply) && Counted(reply).value.nModified.None?
    ensures Updated(batch, reply) ==>
      Counted(reply).Some? && (!LeavesOutModified(batch, reply) ==> Counted(reply).value.nModified.Some?)
  {
  }

  lemma NoneLostBefore(batches: seq<Batch>, replies: seq<Reply>)
    requires |replies| == |batches| && batches != []
    ensures var last := |batches| - 1;
      NoneLost(batches, replies) <==>
        NoneLost(batches[..last], replies[..last])
        && (LeavesOutModified(batches[last], replies[last]) ==> Modified(batches[..last], replies[..last]) == 0)
  {
    hide Modified, LeavesOutModified;
    var last := |batches| - 1;
    forall i | 0 <= i < last
      ensures batches[..last][..i] == batches[..i] && replies[..last][..i] == replies[..i]
    {
    }
    if NoneLost(batches, replies) {
      forall i | 0 <= i < last && LeavesOutModified(batches[..last][i], replies[..last][i])
        ensures Modified(batches[..last][..i], replies[..last][..i]) == 0
      {
        assert LeavesOutModified(batches[i], replies[i]);
      }
    }
  }

  lemma MergeModified(batch: Batch, r: BulkResult, reply: Reply)
    requires Clean(r)
    ensures MergeReply(batch, r, reply).nModified ==
      if LeavesOutModified(batch, reply) then 0
      else if Updated(batch, reply) then r.nModified + Counted(reply).value.nModified.value
      else r.nModified
  {
    hide NameErrors, Upserts;
  }

  // The write concern errors that came with a response that is counted.
  function Concerns(replies: seq<Reply>): nat
    decreases |replies|
  {
    if replies == [] then 0
    else
      var last := |replies| - 1;
      Concerns(replies[..last])
      + (if Counted(replies[last]).Some? && Counted(replies[last]).value.writeConcernError then 1 else 0)
  }

  // Each of them is in the result once.
  lemma {:induction false} ConcernsCounted(batches: seq<Batch>, replies: seq<Reply>)
    requires |replies| == |batches|
    ensures MergeAll(batches, replies).writeConcernErrors == Concerns(replies)
    decreases |batches|
  {
    if batches != [] {
      hide MergeReply, Counted;
      var last := |batches| - 1;
      ConcernsCounted(batches[..last], replies[..last]);
      MergeConcern(batches[last], MergeAll(batches[..last], replies[..last]), replies[last]);
    }
  }

  lemma MergeConcern(batch: Batch, r: BulkResult, reply: Reply)
    requires Clean(r)
    ensures MergeReply(batch, r, reply).writeConcernErrors
         == r.writeConcernErrors + (if Counted(reply).Some? && Counted(reply).value.writeConcernError then 1 else 0)
  {
    hide NameErrors, Upserts;
  }

  // The first batch that fails as a whole leaves the one error about a whole batch; the result
  // is not ok from then on, and further ones add nothing.
  lemma {:induction false} FirstFailureOnly(batches: seq<Batch>, replies: seq<Reply>)
    requires |replies| == |batches|
    ensures MergeAll(batches, replies).ok <==> forall i :: 0 <= i < |replies| ==> !FailsWhole(replies[i])
    decreases |batches|
  {
    if batches != [] {
      hide MergeReply, FailsWhole;
      var last := |batches| - 1;
      FirstFailureOnly(batches[..last], replies[..last]);
      MergeFailure(batches[last], MergeAll(batches[..last], replies[..last]), replies[last]);
    }
  }

  predicate FailsWhole(reply: Reply)
  {
    ResponseOf(reply).Some? && !ResponseOf(reply).value.ok
  }

  lemma MergeFailure(batch: Batch, r: BulkResult, reply: Reply)
    requires Clean(r)
    ensures var m := MergeReply(batch, r, reply);
      && (m.ok <==> r.ok && !FailsWhole(reply))
      && (FailsWhole(reply) && !r.ok ==> m == r)
      && (FailsWhole(reply) && r.ok ==>
            m == r.(ok := false, writeErrors := r.writeErrors + [TopLevelError(batch, ResponseOf(reply).value.code)]))
  {
    hide NameErrors, Upserts;
  }

  // ----- The time of the last operation -----

  function TimeOf(reply: Reply): Option<OpTime>
  {
    if Counted(reply).None? || Counted(reply).value.opTime.None? then None
    else
      match Counted(reply).value.opTime.value
      case OpTime(ts, t) => Some(OpTime(ts, t))
      case Timestamp(ts) => Some(OpTime(ts, 0))
  }

  // The lexicographic order of (ts, t).
  predicate NotAfter(a: OpTime, b: OpTime)
    requires a.OpTime? && b.OpTime?
  {
    a.ts < b.ts || (a.ts == b.ts && a.t <= b.t)
  }

  ghost predicate Latest(time: Option<OpTime>, replies: seq<Reply>)
  {
    if time.None? then forall i :: 0 <= i < |replies| ==> TimeOf(replies[i]).None?
    else
      && time.value.OpTime?
      && (exists i :: 0 <= i < |replies| && TimeOf(replies[i]) == time)
      && (forall i :: 0 <= i < |replies| && TimeOf(replies[i]).Some? ==> NotAfter(TimeOf(replies[i]).value, time.value))
  }

  // The result's time is the latest one any counted response reported, in the order of (ts, t),
  // and there is none exactly when none reported one.
  lemma {:induction false} OpTimeIsLatest(batches: seq<Batch>, replies: seq<Reply>)
    requires |replies| == |batches|
    ensures Latest(MergeAll(batches, replies).opTime, replies)
    decreases |batches|
  {
    if batches != [] {
      hide MergeReply, TimeOf, NotAfter;
      var last := |batches| - 1;
      var r := MergeAll(batches[..last], replies[..last]);
      OpTimeIsLatest(batches[..last], replies[..last]);
      MergeLatest(batches[last], r, replies[last]);
      LatestExtends(replies[..last], replies[last], r.opTime, MergeAll(batches, replies).opTime);
      assert replies[..last] + [replies[last]] == replies;
    }
  }

  lemma MergeLatest(batch: Batch, r: BulkResult, reply: Reply)
    requires Clean(r)
    ensures var time := TimeOf(reply);
      MergeReply(batch, r, reply).opTime ==
      if time.None? then r.opTime else if r.opTime.None? then time else Some(Later(r.opTime.value, time.value))
  {
    hide NameErrors, Upserts, Later;
  }

  lemma LatestExtends(replies: seq<Reply>, reply: Reply, before: Option<OpTime>, after: Option<OpTime>)
    requires Latest(before, replies)
    requires after == if TimeOf(reply).None? then before
                      else if before.None? then TimeOf(reply) else Some(Later(before.value, TimeOf(reply).value))
    ensures Latest(after, replies + [reply])
  {
    hide Counted;
    var all := replies + [reply];
    assert all[|replies|] == reply && all[..|replies|] == replies;
    if before.Some? {
      var i :| 0 <= i < |replies| && TimeOf(replies[i]) == before;
      assert all[i] == replies[i];
    }
  }

  // ----- Whose error, whose upsert -----

  // What a server says of the index-th operation of a batch.
  datatype Report = Report(batch: Batch, index: nat, tag: int)

  function ErrorReports(batch: Batch, reply: Reply): seq<Report>
  {
    if Counted(reply).None? then []
    else
      var errors := Counted(reply).value.writeErrors;
      seq(|errors|, i requires 0 <= i < |errors| => Report(batch, errors[i].index, errors[i].code))
  }

  function UpsertReports(batch: Batch, reply: Reply): seq<Report>
  {
    if Counted(reply).None? then []
    else
      match Counted(reply).value.upserted
      case NoneUpserted => []
      case Many(upserts) =>
        seq(|upserts|, i requires 0 <= i < |upserts| => Report(batch, upserts[i].index, upserts[i].id))
      case One(id) => [Report(batch, 0, id)]
  }

  function AllErrors(batches: seq<Batch>, replies: seq<Reply>): seq<Report>
    requires |replies| == |batches|
    decreases |batches|
  {
    if batches == [] then []
    else
      var last := |batches| - 1;
      AllErrors(batches[..last], replies[..last]) + ErrorReports(batches[last], replies[last])
  }

  function AllUpserts(batches: seq<Batch>, replies: seq<Reply>): seq<Report>
    requires |replies| == |batches|
    decreases |batches|
  {
    if batches == [] then []
    else
      var last := |batches| - 1;
      AllUpserts(batches[..last], replies[..last]) + UpsertReports(batches[last], replies[last])
  }

  // The caller's index of the operation a report is about.
  predicate CallersIndex(report: Report, ops: seq<Operation>, k: nat)
  {
    && report.index < |report.batch.operations| == |report.batch.originalIndexes|
    && k == report.batch.originalIndexes[report.index]
    && k < |ops| && ops[k] == report.batch.operations[report.index]
  }

  ghost predicate AllBlame(errors: seq<WriteError>, reports: seq<Report>, ops: seq<Operation>)
  {
    |errors| == |reports| && forall p :: 0 <= p < |reports| ==> BlamesCaller(errors[p], reports[p], ops)
  }

  ghost predicate AllPlaced(upserts: seq<Upserted>, reports: seq<Report>, ops: seq<Operation>)
  {
    |upserts| == |reports| && forall p :: 0 <= p < |reports| ==> PlacesUpsert(upserts[p], reports[p], ops)
  }

  predicate BlamesCaller(e: WriteError, report: Report, ops: seq<Operation>)
  {
    e.index.Some? && CallersIndex(report, ops, e.index.value)
      && e == WriteError(e.index, report.tag, Some(ops[e.index.value]))
  }

  predicate InBatch(report: Report)
  {
    report.index < |report.batch.operations|
  }

  predicate AllIn(reports: seq<Report>)
  {
    forall p :: 0 <= p < |reports| ==> InBatch(reports[p])
  }

  lemma AllInBatch(before: seq<Report>, tail: seq<Report>)
    ensures AllIn(before + tail) <==> AllIn(before) && AllIn(tail)
  {
    hide InBatch;
    if AllIn(before + tail) {
      assert forall p :: 0 <= p < |before| ==> before[p] == (before + tail)[p];
      assert forall j :: 0 <= j < |tail| ==> tail[j] == (before + tail)[|before| + j];
    }
  }

  predicate NoneFailed(replies: seq<Reply>)
  {
    forall i :: 0 <= i < |replies| && ResponseOf(replies[i]).Some? ==> Counted(replies[i]).Some?
  }

  function NamedErrors(batch: Batch, reply: Reply): seq<WriteError>
  {
    if Counted(reply).None? then [] else NameErrors(batch, Counted(reply).value.writeErrors)
  }

  lemma ErrorsAppended(batch: Batch, r: BulkResult, reply: Reply)
    requires Clean(r) && (ResponseOf(reply).Some? ==> Counted(reply).Some?)
    ensures MergeReply(batch, r, reply).writeErrors == r.writeErrors + NamedErrors(batch, reply)
  {
    hide MergeCounts, MergeOpTime;
    if Counted(reply).Some? {
      var timed := MergeOpTime(r, Counted(reply).value);
      TimeOnly(r, Counted(reply).value);
      CountsOnly(batch, timed, Counted(reply).value);
    } else {
      assert r.writeErrors + [] == r.writeErrors;
    }
  }

  lemma NamesBlame(limits: Limits, ops: seq<Operation>, batch: Batch, e: ServerError)
    requires ValidLimits(limits) && Faithful(limits, batch, ops) && e.index < |batch.operations|
    ensures BlamesCaller(NameError(batch, e), Report(batch, e.index, e.code), ops)
  {
    hide SizeBytes;
  }

  lemma ErrorsBlame(limits: Limits, ops: seq<Operation>, batch: Batch, reply: Reply)
    requires ValidLimits(limits) && Faithful(limits, batch, ops) && AllIn(ErrorReports(batch, reply))
    ensures AllBlame(NamedErrors(batch, reply), ErrorReports(batch, reply), ops)
  {
    hide Faithful, BlamesCaller, NameError, Counted, ResponseOf;
    var reports := ErrorReports(batch, reply);
    if Counted(reply).Some? {
      var errors := Counted(reply).value.writeErrors;
      forall j | 0 <= j < |reports|
        ensures BlamesCaller(NameErrors(batch, errors)[j], reports[j], ops)
      {
        assert InBatch(reports[j]);
        NamesBlame(limits, ops, batch, errors[j]);
      }
    }
  }

  lemma BlameConcat(
    a: seq<WriteError>, b: seq<WriteError>, x: seq<Report>, y: seq<Report>, ops: seq<Operation>)
    requires AllBlame(a, x, ops) && AllBlame(b, y, ops)
    ensures AllBlame(a + b, x + y, ops)
  {
    hide BlamesCaller;
  }

  // While no batch fails as a whole, the write errors are the servers' errors in order, each
  // under the caller's index of the very operation the server got, and with that operation.
  lemma {:induction false} ErrorsNameOperations(
    limits: Limits, ops: seq<Operation>, batches: seq<Batch>, replies: seq<Reply>)
    requires |replies| == |batches| && ValidLimits(limits) && NoneFailed(replies)
    requires forall i :: 0 <= i < |batches| ==> Faithful(limits, batches[i], ops)
    requires AllIn(AllErrors(batches, replies))
    ensures AllBlame(MergeAll(batches, replies).writeErrors, AllErrors(batches, replies), ops)
    decreases |batches|
  {
    if batches != [] {
      hide MergeReply, ErrorReports, Faithful, AllBlame, AllIn, Counted, ResponseOf, NamedErrors;
      var last := |batches| - 1;
      var before, tail := AllErrors(batches[..last], replies[..last]), ErrorReports(batches[last], replies[last]);
      AllInBatch(before, tail);
      ErrorsNameOperations(limits, ops, batches[..last], replies[..last]);
      var r := MergeAll(batches[..last], replies[..last]);
      ErrorsAppended(batches[last], r, replies[last]);
      ErrorsBlame(limits, ops, batches[last], replies[last]);
      BlameConcat(r.writeErrors, NamedErrors(batches[last], replies[last]), before, tail, ops);
    }
  }

  // A batch that fails as a whole is reported with its first operation, but under index 0:
  // that is the caller's index exactly for the batch that starts with operation 0.
  lemma TopLevelIndex(limits: Limits, ops: seq<Operation>, batch: Batch, code: int)
    requires ValidLimits(limits) && Faithful(limits, batch, ops) && batch.operations != []
    ensures var e := TopLevelError(batch, code);
      && e.op == Some(ops[batch.originalIndexes[0]])
      && (e.index == Some(batch.originalIndexes[0]) <==> batch.originalZeroIndex == 0)
  {
  }

  predicate PlacesUpsert(u: Upserted, report: Report, ops: seq<Operation>)
  {
    CallersIndex(report, ops, u.index) && u.id == report.tag
  }

  function PlacedUpserts(batch: Batch, reply: Reply): seq<Upserted>
  {
    if Counted(reply).None? then [] else Upserts(batch, Counted(reply).value.upserted)
  }

  lemma UpsertsAppended(batch: Batch, r: BulkResult, reply: Reply)
    requires Clean(r)
    ensures MergeReply(batch, r, reply).upserted == r.upserted + PlacedUpserts(batch, reply)
  {
    hide NameErrors, Upserts;
    assert r.upserted + [] == r.upserted;
  }

  lemma UpsertsPlaced(limits: Limits, ops: seq<Operation>, batch: Batch, reply: Reply)
    requires ValidLimits(limits) && Faithful(limits, batch, ops) && BulkOrdered.Consecutive(batch)
    requires AllIn(UpsertReports(batch, reply))
    ensures AllPlaced(PlacedUpserts(batch, reply), UpsertReports(batch, reply), ops)
  {
    hide SizeBytes, Counted;
    var reports := UpsertReports(batch, reply);
    if Counted(reply).Some? {
      forall j | 0 <= j < |reports|
        ensures PlacesUpsert(Upserts(batch, Counted(reply).value.upserted)[j], reports[j], ops)
      {
        assert InBatch(reports[j]);
      }
    }
  }

  lemma PlacedConcat(a: seq<Upserted>, b: seq<Upserted>, x: seq<Report>, y: seq<Report>, ops: seq<Operation>)
    requires AllPlaced(a, x, ops) && AllPlaced(b, y, ops)
    ensures AllPlaced(a + b, x + y, ops)
  {
    hide PlacesUpsert;
  }

  // With batches of consecutive indexes, as an ordered bulk makes them, the upserted ids are
  // those of the servers in order, each under the caller's index of its operation.
  lemma {:induction false} UpsertsNameOperations(
    limits: Limits, ops: seq<Operation>, batches: seq<Batch>, replies: seq<Reply>)
    requires |replies| == |batches| && ValidLimits(limits)
    requires forall i :: 0 <= i < |batches| ==> Faithful(limits, batches[i], ops) && BulkOrdered.Consecutive(batches[i])
    requires AllIn(AllUpserts(batches, replies))
    ensures AllPlaced(MergeAll(batches, replies).upserted, AllUpserts(batches, replies), ops)
    decreases |batches|
  {
    if batches != [] {
      hide MergeReply, UpsertReports, Faithful, AllPlaced, AllIn, BulkOrdered.Consecutive, PlacedUpserts;
      var last := |batches| - 1;
      var before, tail := AllUpserts(batches[..last], replies[..last]), UpsertReports(batches[last], replies[last]);
      AllInBatch(before, tail);
      UpsertsNameOperations(limits, ops, batches[..last], replies[..last]);
      var r := MergeAll(batches[..last], replies[..last]);
      UpsertsAppended(batches[last], r, replies[last]);
      UpsertsPlaced(limits, ops, batches[last], replies[last]);
      PlacedConcat(r.upserted, PlacedUpserts(batches[last], replies[last]), before, tail, ops);
    }
  }

  // In any batch the upsert of the u-th operation is filed under the caller's index exactly
  // when the batch has no gap up to it, that is, no operation of another kind came in between.
  lemma UpsertIndexRight(limits: Limits, ops: seq<Operation>, batch: Batch, u: nat, id: nat)
    requires ValidLimits(limits) && Faithful(limits, batch, ops) && u < |batch.operations|
    ensures var upserts := Upserts(batch, Many([Upserted(u, id)]));
      && |upserts| == 1
      && (upserts[0] == Upserted(batch.originalIndexes[u], id) <==>
            forall j :: 0 <= j <= u ==> batch.originalIndexes[j] == batch.originalZeroIndex + j)
  {
    hide SizeBytes;
    Gaps(batch.originalIndexes, u);
  }

  // In an ascending list the distance to the first grows at least by one a step.
  lemma {:induction false} Gaps(s: seq<nat>, u: nat)
    requires u < |s| && forall j, k :: 0 <= j < k < |s| ==> s[j] < s[k]
    ensures s[u] >= s[0] + u
    ensures s[u] == s[0] + u ==> forall j :: 0 <= j <= u ==> s[j] == s[0] + j
  {
    if u > 0 {
      Gaps(s, u - 1);
    }
  }

  // The whole way for an ordered bulk: whatever the replies, each error and upsert the caller
  // sees is about the operation at that index of the calls it made.
  lemma OrderedReports(limits: Limits, calls: seq<Operation>, replies: seq<Reply>)
    requires ValidLimits(limits) && |replies| == |BulkOrdered.AllBatches(BulkOrdered.AddAll(limits, calls))|
    ensures var batches, ops := BulkOrdered.AllBatches(BulkOrdered.AddAll(limits, calls)), Accepted(limits, calls);
      var x := Execute(true, batches, NO_RESULT, replies);
      && x.taken <= batches
      && var answers := replies[..|x.taken|];
      var errors, upserts := AllErrors(x.taken, answers), AllUpserts(x.taken, answers);
      && (NoneFailed(answers) && AllIn(errors) ==> AllBlame(x.result.writeErrors, errors, ops))
      && (AllIn(upserts) ==> AllPlaced(x.result.upserted, upserts, ops))
  {
    hide Faithful, BulkOrdered.Consecutive, BulkOrdered.AddAll, BulkOrdered.AllBatches, Execute, MergeAll, Fails,
      AllErrors, AllUpserts, AllBlame, AllPlaced, AllIn, NoneFailed, BulkOrdered.OperationsOf,
      BulkOrdered.IndexesIn, BulkOrdered.IdsInPlace, BulkOrdered.Needed, Accepted;
    var batches, ops := BulkOrdered.AllBatches(BulkOrdered.AddAll(limits, calls)), Accepted(limits, calls);
    BulkOrdered.OrderedPartition(limits, calls);
    WhatIsSent(true, batches, replies);
    var taken := Execute(true, batches, NO_RESULT, replies).taken;
    var answers := replies[..|taken|];
    assert forall i :: 0 <= i < |taken| ==> taken[i] == batches[i] && batches[i] in batches;
    if NoneFailed(answers) && AllIn(AllErrors(taken, answers)) {
      ErrorsNameOperations(limits, ops, taken, answers);
    }
    if AllIn(AllUpserts(taken, answers)) {
      UpsertsNameOperations(limits, ops, taken, answers);
    }
  }

  // An unordered bulk sends its batches by kind and goes on after errors; still each error is
  // about the operation at that index of the calls.
  lemma UnorderedReports(limits: Limits, calls: seq<Operation>, replies: seq<Reply>)
    requires ValidLimits(limits) && |replies| == |BulkUnordered.AllBatches(BulkUnordered.AddAll(limits, calls))|
    ensures var batches, ops := BulkUnordered.AllBatches(BulkUnordered.AddAll(limits, calls)), Accepted(limits, calls);
      var x := Execute(false, batches, NO_RESULT, replies);
      && x.taken <= batches
      && var answers := replies[..|x.taken|];
      var errors := AllErrors(x.taken, answers);
      && ((forall i :: 0 <= i < |answers| ==> answers[i].Answered?) ==> x.sent == batches)
      && (NoneFailed(answers) && AllIn(errors) ==> AllBlame(x.result.writeErrors, errors, ops))
  {
    hide Faithful, BulkUnordered.AddAll, BulkUnordered.AllBatches, Execute, MergeAll, Fails, AllErrors,
      AllBlame, AllIn, NoneFailed, BulkUnordered.KindIndexes, IndexesOf, Accepted;
    var batches, ops := BulkUnordered.AllBatches(BulkUnordered.AddAll(limits, calls)), Accepted(limits, calls);
    BulkUnordered.UnorderedPartition(limits, calls);
    WhatIsSent(false, batches, replies);
    var taken := Execute(false, batches, NO_RESULT, replies).taken;
    var answers := replies[..|taken|];
    assert forall i :: 0 <= i < |taken| ==> taken[i] == batches[i] && batches[i] in batches;
    if NoneFailed(answers) && AllIn(AllErrors(taken, answers)) {
      ErrorsNameOperations(limits, ops, taken, answers);
    }
    if |taken| < |batches| {
      assert answers[|taken| - 1] == replies[|taken| - 1];
    }
  }

  // An unordered bulk of update, insert, update: the upsert of the second update is filed
  // under 1, the index of the insert.
  lemma UnorderedUpsertMisplaced(limits: Limits, id: nat)
    requires limits.maxWriteBatchSize > 3 && limits.maxBatchSizeBytes > 1000 && limits.maxBsonObjectSize > 100
    requires MaxKeySize(limits) < 100
    ensures var a, b, c := Operation(UPDATE, 0, 10), Operation(INSERT, 1, 10), Operation(UPDATE, 2, 10);
      var s := BulkUnordered.AddAll(limits, [a, b, c]);
      && s.currentUpdate.Some?
      && var batch := s.currentUpdate.value.batch;
      && batch.operations == [a, c] && batch.originalIndexes == [0, 2]
      && Upserts(batch, Many([Upserted(1, id)])) == [Upserted(1, id)]
  {
    hide MaxKeySize;
    var a, b, c := Operation(UPDATE, 0, 10), Operation(INSERT, 1, 10), Operation(UPDATE, 2, 10);
    assert [a][..0] == [] && [a, b][..1] == [a] && [a, b, c][..2] == [a, b];
    var s0 := BulkUnordered.AddAll(limits, []);
    var s1 := BulkUnordered.Add(s0, a).value;
    assert BulkUnordered.AddAll(limits, [a]) == s1;
    assert s1.currentUpdate.value.batch == Batch(UPDATE, 0, [0], [a]) && s1.currentUpdate.value.size == 1;
    var s2 := BulkUnordered.Add(s1, b).value;
    assert BulkUnordered.AddAll(limits, [a, b]) == s2 && s2.currentUpdate == s1.currentUpdate;
    var s3 := BulkUnordered.Add(s2, c).value;
    assert BulkUnordered.AddAll(limits, [a, b, c]) == s3;
    assert s3.currentUpdate.value.batch == Batch(UPDATE, 0, [0, 2], [a, c]);
  }
}
