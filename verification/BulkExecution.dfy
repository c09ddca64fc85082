/**
 Executing a bulk and merging the replies (src/bulk/common.ts).
 */
module BulkExecution {
  import opened Wrappers
  import opened BulkBatches

  // ----- Replies -----

  // The time of the last operation; a bare timestamp counts with t = 0.
  datatype OpTime = OpTime(ts: int, t: int) | Timestamp(ts: int)

  datatype Upserted = Upserted(index: nat, id: nat)

  // The upserted documents, as a list or as one bare id.
  datatype UpsertedField = NoneUpserted | Many(upserts: seq<Upserted>) | One(id: nat)

  datatype ServerError = ServerError(index: nat, code: int)

  datatype Response = Response(
    ok: bool, code: int, n: nat, nModified: Option<nat>, upserted: UpsertedField, opTime: Option<OpTime>,
    writeErrors: seq<ServerError>, writeConcernError: bool)

  // How a batch comes back: with the server's response, with a write concern failure that
  // carries one, with an error of the driver, or not at all: making or starting its operation
  // throws, as for every batch under the option `explain`, which the operations of a bulk refuse.
  datatype Reply =
    | Answered(response: Response) | ConcernFailure(response: Response) | DriverError | SendThrew(code: int)

  // An index or operation the batch does not have stays undefined.
  datatype WriteError = WriteError(index: Option<nat>, code: int, op: Option<Operation>)

  datatype BulkResult = BulkResult(
    ok: bool, writeErrors: seq<WriteError>, writeConcernErrors: nat,
    nInserted: nat, nUpserted: nat, nMatched: int, nModified: nat, nRemoved: nat,
    upserted: seq<Upserted>, opTime: Option<OpTime>)

  const NO_RESULT := BulkResult(true, [], 0, 0, 0, 0, 0, 0, [], None)

  // ----- Merging -----

  function Normalized(o: OpTime): OpTime
  {
    if o.Timestamp? then OpTime(o.ts, 0) else o
  }

  function Later(a: OpTime, b: OpTime): OpTime
    requires a.OpTime? && b.OpTime?
  {
    if b.ts > a.ts || (b.ts == a.ts && b.t > a.t) then b else a
  }

  predicate Clean(r: BulkResult)
  {
    r.opTime.Some? ==> r.opTime.value.OpTime?
  }

  function Upserts(batch: Batch, field: UpsertedField): seq<Upserted>
  {
    match field
    case NoneUpserted => []
    case Many(upserts) =>
      seq(|upserts|, i requires 0 <= i < |upserts| =>
        Upserted(upserts[i].index + batch.originalZeroIndex, upserts[i].id))
    case One(id) => [Upserted(batch.originalZeroIndex, id)]
  }

  function NameError(batch: Batch, e: ServerError): WriteError
  {
    WriteError(if e.index < |batch.originalIndexes| then Some(batch.originalIndexes[e.index]) else None, e.code,
               if e.index < |batch.operations| then Some(batch.operations[e.index]) else None)
  }

  function NameErrors(batch: Batch, errors: seq<ServerError>): (named: seq<WriteError>)
    ensures |named| == |errors| && forall i :: 0 <= i < |errors| ==> named[i] == NameError(batch, errors[i])
  {
    seq(|errors|, i requires 0 <= i < |errors| => NameError(batch, errors[i]))
  }

  // A whole batch that failed is reported under index 0, whatever the caller's index was.
  function TopLevelError(batch: Batch, code: int): WriteError
  {
    WriteError(Some(0), code, if batch.operations == [] then None else Some(batch.operations[0]))
  }

  function MergeOpTime(r: BulkResult, response: Response): (merged: BulkResult)
    requires Clean(r)
    ensures Clean(merged)
  {
    if response.opTime.None? then r
    else if r.opTime.None? then r.(opTime := Some(Normalized(response.opTime.value)))
    else r.(opTime := Some(Later(r.opTime.value, Normalized(response.opTime.value))))
  }

  function MergeCounts(batch: Batch, r: BulkResult, response: Response): BulkResult
  {
    var upserts := Upserts(batch, response.upserted);
    var updated := batch.batchType == UPDATE && response.n != 0;
    r.(nInserted := if batch.batchType == INSERT then r.nInserted + response.n else r.nInserted,
       nRemoved := if batch.batchType == DELETE then r.nRemoved + response.n else r.nRemoved,
       upserted := r.upserted + upserts,
       nUpserted := if updated then r.nUpserted + |upserts| else r.nUpserted,
       nMatched := if updated then r.nMatched + (response.n - |upserts|) else r.nMatched,
       nModified := if !updated then r.nModified
                    else if response.nModified.Some? then r.nModified + response.nModified.value else 0)
  }

  function MergeErrors(batch: Batch, r: BulkResult, response: Response): BulkResult
  {
    r.(writeErrors := r.writeErrors + NameErrors(batch, response.writeErrors),
       writeConcernErrors := if response.writeConcernError then r.writeConcernErrors + 1 else r.writeConcernErrors)
  }

  function Merge(batch: Batch, r: BulkResult, response: Response): (merged: BulkResult)
    requires Clean(r)
    ensures Clean(merged)
  {
    if !response.ok then
      if r.ok then r.(ok := false, writeErrors := r.writeErrors + [TopLevelError(batch, response.code)]) else r
    else
      MergeErrors(batch, MergeCounts(batch, MergeOpTime(r, response), response), response)
  }

  // ----- Execution -----

  datatype Failure = WriteFailed | ConcernFailed | DriverFailed

  // What the callback is called with: an error, a result, or neither.
  datatype Callback = Failed(failure: Failure) | Returned(result: BulkResult) | Nothing

  // The batches taken off the list and the ones of them that went out, in that order.
  datatype Execution = Execution(taken: seq<Batch>, sent: seq<Batch>, result: BulkResult, callback: Callback)

  // After a batch: an ordered bulk stops at any error, an unordered one only looks when
  // nothing is left to send.
  function HandleWriteError(ordered: bool, left: nat, r: BulkResult): Option<Failure>
  {
    if !ordered && left > 0 then None
    else if r.writeErrors != [] then Some(WriteFailed)
    else if r.writeConcernErrors > 0 then Some(ConcernFailed)
    else None
  }

  // An exception on sending is merged like a failed response.
  function FailedSend(code: int): Response
  {
    Response(false, code, 0, None, NoneUpserted, None, [], false)
  }

  // The reply to batches[i] is replies[i].
  function Execute(ordered: bool, batches: seq<Batch>, r: BulkResult, replies: seq<Reply>): (x: Execution)
    requires |replies| >= |batches| && Clean(r)
    decreases |batches|
  {
    if batches == [] then Execution([], [], r, Returned(r))
    else
      var batch := batches[0];
      match replies[0]
      case DriverError => Execution([batch], [batch], r, Failed(DriverFailed))
      case ConcernFailure(response) => Execution([batch], [batch], Merge(batch, r, response), Failed(ConcernFailed))
      case SendThrew(code) => Execution([batch], [], Merge(batch, r, FailedSend(code)), Nothing)
      case Answered(response) =>
        var merged := Merge(batch, r, response);
        var stop := HandleWriteError(ordered, |batches| - 1, merged);
        if stop.Some? then Execution([batch], [batch], merged, Failed(stop.value))
        else
          var rest := Execute(ordered, batches[1..], merged, replies[1..]);
          rest.(taken := [batch] + rest.taken, sent := [batch] + rest.sent)
  }

  datatype ExecuteError = BatchReExecution | EmptyBulk

  class BulkOperation {
    const ordered: bool
    var batches: seq<Batch>
    // The current batches, not yet in the list.
    var current: seq<Batch>
    var executed: bool
    var bulkResult: BulkResult
    var sent: seq<Batch>

    constructor (ordered: bool, batches: seq<Batch>, current: seq<Batch>)
      ensures this.ordered == ordered && this.batches == batches && this.current == current
      ensures !executed && bulkResult == NO_RESULT && sent == []
    {
      this.ordered, this.batches, this.current := ordered, batches, current;
      executed, bulkResult, sent := false, NO_RESULT, [];
    }

    method MergeBatchResults(batch: Batch, response: Response)
      requires Clean(bulkResult)
      modifies `bulkResult
      ensures bulkResult == Merge(batch, old(bulkResult), response)
    {
      hide MergeOpTime, MergeCounts, MergeErrors;
      if !response.ok {
        if bulkResult.ok {
          bulkResult := bulkResult.(ok := false,
            writeErrors := bulkResult.writeErrors + [TopLevelError(batch, response.code)]);
        }
        return;
      }
      MergeTime(response);
      AddCounts(batch, response);
      AddErrors(batch, response);
    }

    method MergeTime(response: Response)
      requires Clean(bulkResult)
      modifies `bulkResult
      ensures bulkResult == MergeOpTime(old(bulkResult), response)
    {
      if response.opTime.None? {
        return;
      }
      var opTime := Normalized(response.opTime.value);
      if bulkResult.opTime.None? {
        bulkResult := bulkResult.(opTime := Some(opTime));
      } else if opTime.ts > bulkResult.opTime.value.ts {
        bulkResult := bulkResult.(opTime := Some(opTime));
      } else if opTime.ts == bulkResult.opTime.value.ts {
        if opTime.t > bulkResult.opTime.value.t {
          bulkResult := bulkResult.(opTime := Some(opTime));
        }
      }
    }

    method AddCounts(batch: Batch, response: Response)
      modifies `bulkResult
      ensures bulkResult == MergeCounts(batch, old(bulkResult), response)
    {
      hide Upserts;
      if batch.batchType == INSERT && response.n != 0 {
        bulkResult := bulkResult.(nInserted := bulkResult.nInserted + response.n);
      }
      if batch.batchType == DELETE && response.n != 0 {
        bulkResult := bulkResult.(nRemoved := bulkResult.nRemoved + response.n);
      }
      var upserts := Upserts(batch, response.upserted);
      bulkResult := bulkResult.(upserted := bulkResult.upserted + upserts);
      if batch.batchType == UPDATE && response.n != 0 {
        bulkResult := bulkResult.(nUpserted := bulkResult.nUpserted + |upserts|,
                                  nMatched := bulkResult.nMatched + (response.n - |upserts|));
        bulkResult := bulkResult.(nModified :=
          if response.nModified.Some? then bulkResult.nModified + response.nModified.value else 0);
      }
    }

    // The errors of the response, one after the other, under the caller's indexes.
    method AddErrors(batch: Batch, response: Response)
      modifies `bulkResult
      ensures bulkResult == MergeErrors(batch, old(bulkResult), response)
    {
      var i := 0;
      ghost var named := NameErrors(batch, response.writeErrors);
      while i < |response.writeErrors|
        invariant 0 <= i <= |response.writeErrors|
        invariant bulkResult == old(bulkResult).(writeErrors := old(bulkResult).writeErrors + named[..i])
      {
        assert named[..i + 1] == named[..i] + [named[i]];
        assert old(bulkResult).writeErrors + named[..i + 1] == old(bulkResult).writeErrors + named[..i] + [named[i]];
        bulkResult := bulkResult.(writeErrors := bulkResult.writeErrors + [NameError(batch, response.writeErrors[i])]);
        i := i + 1;
      }
      assert named[..i] == named;
      if response.writeConcernError {
        bulkResult := bulkResult.(writeConcernErrors := bulkResult.writeConcernErrors + 1);
      }
    }

    // One batch after the other is shifted off the list and sent.
    method ExecuteCommands(replies: seq<Reply>) returns (callback: Callback)
      requires Clean(bulkResult) && |replies| >= |batches|
      modifies `batches, `bulkResult, `sent
      ensures var x := Execute(ordered, old(batches), old(bulkResult), replies);
        && callback == x.callback && bulkResult == x.result && sent == old(sent) + x.sent
        && old(batches) == x.taken + batches
      decreases |batches|
    {
      hide Merge;
      if |batches| == 0 {
        return Returned(bulkResult);
      }
      var batch := batches[0];
      batches := batches[1..];
      match replies[0] {
        case DriverError =>
          sent := sent + [batch];
          callback := Failed(DriverFailed);
        case ConcernFailure(response) =>
          sent := sent + [batch];
          MergeBatchResults(batch, response);
          callback := Failed(ConcernFailed);
        case SendThrew(code) =>
          MergeBatchResults(batch, FailedSend(code));
          callback := Nothing;
        case Answered(response) =>
          sent := sent + [batch];
          MergeBatchResults(batch, response);
          var stop := HandleWriteError(ordered, |batches|, bulkResult);
          if stop.Some? {
            callback := Failed(stop.value);
          } else {
            callback := ExecuteCommands(replies[1..]);
          }
      }
    }

    // A bulk runs at most once; one without operations is refused and stays open.
    method ExecuteBulk(replies: seq<Reply>) returns (r: Result<Callback, ExecuteError>)
      requires Clean(bulkResult) && |replies| >= |batches| + |current|
      modifies this
      ensures old(executed) ==> r == Err(BatchReExecution) && sent == old(sent) && executed
      ensures !old(executed) && old(batches + current) == [] ==> r == Err(EmptyBulk) && sent == old(sent) && !executed
      ensures !old(executed) && old(batches + current) != [] ==>
        var x := Execute(ordered, old(batches + current), old(bulkResult), replies);
        r == Ok(x.callback) && executed && sent == old(sent) + x.sent && bulkResult == x.result
    {
      hide Execute;
      if executed {
        return Err(BatchReExecution);
      }
      batches := batches + current;
      if |batches| == 0 {
        return Err(EmptyBulk);
      }
      executed := true;
      var callback := ExecuteCommands(replies);
      r := Ok(callback);
    }
  }
}
