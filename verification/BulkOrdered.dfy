/**
 The ordered bulk (src/bulk/ordered.ts): operations go into the current batch until it is full
 or the kind changes, so the batches one after the other are the operations in order.
 */
module BulkOrdered {
  import opened Wrappers
  import opened BulkBatches

  datatype Ordered = Ordered(
    limits: Limits, batches: seq<Batch>, currentBatch: Option<Batch>, currentBatchSize: nat, currentBatchSizeBytes: nat,
    currentIndex: nat, insertedIds: seq<InsertedId>)

  function Empty(limits: Limits): Ordered
  {
    Ordered(limits, [], None, 0, 0, 0, [])
  }

  // The current batch is finished and a new one begun when the operation does not fit it.
  function MakeRoom(s: Ordered, op: Operation): (next: Ordered)
    requires ValidLimits(s.limits)
    ensures next.currentBatch.Some?
  {
    var current := if s.currentBatch.Some? then s.currentBatch.value else NewBatch(op.kind, s.currentIndex);
    if Full(s.limits, s.currentBatchSize, s.currentBatchSizeBytes, op) || current.batchType != op.kind
    then s.(batches := s.batches + [current], currentBatch := Some(NewBatch(op.kind, s.currentIndex)),
            currentBatchSize := 0, currentBatchSizeBytes := 0)
    else s.(currentBatch := Some(current))
  }

  function Add(s: Ordered, op: Operation): Result<Ordered, AddError>
    requires ValidLimits(s.limits)
  {
    if op.size >= s.limits.maxBsonObjectSize then Err(DocumentTooLarge)
    else
      var next := MakeRoom(s, op);
      Ok(next.(
        currentBatch := Some(Append(next.currentBatch.value, op, s.currentIndex)),
        currentBatchSize := next.currentBatchSize + 1,
        currentBatchSizeBytes := next.currentBatchSizeBytes + MaxKeySize(s.limits) + op.size,
        currentIndex := s.currentIndex + 1,
        insertedIds := if op.kind == INSERT then s.insertedIds + [InsertedId(s.currentIndex, op.document)]
                       else s.insertedIds))
  }

  // A refused operation throws and leaves the bulk as it is.
  function AddAll(limits: Limits, calls: seq<Operation>): (s: Ordered)
    requires ValidLimits(limits)
    ensures s.limits == limits
    decreases |calls|
  {
    if calls == [] then Empty(limits)
    else
      var s := AddAll(limits, calls[..|calls| - 1]);
      match Add(s, calls[|calls| - 1])
      case Ok(next) => next
      case Err(_) => s
  }

  // The batches as executed: the current one is the last.
  function AllBatches(s: Ordered): seq<Batch>
  {
    if s.currentBatch.Some? then s.batches + [s.currentBatch.value] else s.batches
  }

  class OrderedBulkOperation {
    const limits: Limits
    var batches: seq<Batch>
    var currentBatch: Option<Batch>
    var currentBatchSize: nat
    var currentBatchSizeBytes: nat
    var currentIndex: nat
    var insertedIds: seq<InsertedId>

    ghost function State(): Ordered
      reads this
    {
      Ordered(limits, batches, currentBatch, currentBatchSize, currentBatchSizeBytes, currentIndex, insertedIds)
    }

    constructor (limits: Limits)
      requires ValidLimits(limits)
      ensures State() == Empty(limits)
    {
      this.limits := limits;
      batches, currentBatch, currentBatchSize, currentBatchSizeBytes, currentIndex, insertedIds :=
        [], None, 0, 0, 0, [];
    }

    method AddToOperationsList(op: Operation) returns (thrown: Option<AddError>)
      requires ValidLimits(limits)
      modifies this
      ensures match Add(old(State()), op)
              case Ok(next) => thrown == None && State() == next
              case Err(e) => thrown == Some(e) && State() == old(State())
    {
      hide Append, NewBatch, MaxKeySize, MakeRoom;
      if op.size >= limits.maxBsonObjectSize {
        return Some(DocumentTooLarge);
      }
      StartBatch(op);
      if op.kind == INSERT {
        insertedIds := insertedIds + [InsertedId(currentIndex, op.document)];
      }
      currentBatch := Some(Append(currentBatch.value, op, currentIndex));
      currentBatchSize := currentBatchSize + 1;
      currentBatchSizeBytes := currentBatchSizeBytes + MaxKeySize(limits) + op.size;
      currentIndex := currentIndex + 1;
      thrown := None;
    }

    method StartBatch(op: Operation)
      requires ValidLimits(limits)
      modifies `batches, `currentBatch, `currentBatchSize, `currentBatchSizeBytes
      ensures State() == MakeRoom(old(State()), op)
    {
      hide NewBatch, MaxKeySize;
      if currentBatch.None? {
        currentBatch := Some(NewBatch(op.kind, currentIndex));
      }
      var maxKeySize := MaxKeySize(limits);
      if currentBatchSize + 1 >= limits.maxWriteBatchSize
         || (currentBatchSize > 0 && currentBatchSizeBytes + maxKeySize + op.size >= limits.maxBatchSizeBytes)
         || currentBatch.value.batchType != op.kind
      {
        batches := batches + [currentBatch.value];
        currentBatch := Some(NewBatch(op.kind, currentIndex));
        currentBatchSize, currentBatchSizeBytes := 0, 0;
      }
    }
  }

  // ----- The invariant -----

  function OperationsOf(batches: seq<Batch>): seq<Operation>
  {
    if batches == [] then [] else batches[0].operations + OperationsOf(batches[1..])
  }

  function IndexesIn(batches: seq<Batch>): seq<nat>
  {
    if batches == [] then [] else batches[0].originalIndexes + IndexesIn(batches[1..])
  }

  lemma {:induction false} BatchesSnoc(batches: seq<Batch>, b: Batch)
    ensures OperationsOf(batches + [b]) == OperationsOf(batches) + b.operations
    ensures IndexesIn(batches + [b]) == IndexesIn(batches) + b.originalIndexes
  {
    if batches == [] {
      assert batches + [b] == [b] && [b][1..] == [];
      assert OperationsOf([b]) == b.operations + OperationsOf([])
        && IndexesIn([b]) == b.originalIndexes + IndexesIn([]);
    } else {
      assert (batches + [b])[1..] == batches[1..] + [b];
      BatchesSnoc(batches[1..], b);
    }
  }

  function UpTo(n: nat): (s: seq<nat>)
    ensures |s| == n && forall i :: 0 <= i < n ==> s[i] == i
  {
    seq(n, i => i)
  }

  // In a run of consecutive indexes the offset in the batch is the offset from its first.
  predicate Consecutive(b: Batch)
  {
    forall j :: 0 <= j < |b.originalIndexes| ==> b.originalIndexes[j] == b.originalZeroIndex + j
  }

  // A new batch is only started when the operation did not fit the one before.
  predicate Needed(limits: Limits, b: Batch, next: Batch)
    requires ValidLimits(limits)
  {
    next.operations != [] ==>
      b.batchType != next.batchType || Full(limits, |b.operations|, SizeBytes(limits, b.operations), next.operations[0])
  }

  // A list of batches that is the operations in order.
  predicate InOrder(limits: Limits, all: seq<Batch>, ops: seq<Operation>)
    requires ValidLimits(limits)
  {
    && OperationsOf(all) == ops
    && IndexesIn(all) == UpTo(|ops|)
    && (forall i :: 0 <= i < |all| ==> Faithful(limits, all[i], ops) && Consecutive(all[i]))
    && (forall i :: 0 <= i < |all| - 1 ==> Needed(limits, all[i], all[i + 1]))
  }

  lemma UpToSnoc(n: nat)
    ensures UpTo(n + 1) == UpTo(n) + [n]
  {
  }

  lemma NewFaithful(limits: Limits, ops: seq<Operation>, op: Operation)
    requires ValidLimits(limits)
    ensures var b := Append(NewBatch(op.kind, |ops|), op, |ops|);
      Faithful(limits, b, ops + [op]) && Consecutive(b) && b.operations == [op] && b.originalIndexes == [|ops|]
  {
  }

  lemma StartNew(limits: Limits, all: seq<Batch>, ops: seq<Operation>, op: Operation)
    requires ValidLimits(limits) && InOrder(limits, all, ops)
    requires all != [] ==> Needed(limits, all[|all| - 1], Append(NewBatch(op.kind, |ops|), op, |ops|))
    ensures InOrder(limits, all + [Append(NewBatch(op.kind, |ops|), op, |ops|)], ops + [op])
  {
    hide Faithful, Consecutive, Needed, OperationsOf, IndexesIn;
    var b := Append(NewBatch(op.kind, |ops|), op, |ops|);
    BatchesSnoc(all, b);
    NewFaithful(limits, ops, op);
    UpToSnoc(|ops|);
    forall i | 0 <= i < |all|
      ensures Faithful(limits, all[i], ops + [op])
    {
      MoreFaithful(limits, all[i], ops, op);
    }
  }

  lemma LastIndex(rest: seq<Batch>, last: Batch, n: nat)
    requires IndexesIn(rest + [last]) == UpTo(n) && last.originalIndexes != [] && Consecutive(last)
    ensures last.originalZeroIndex + |last.originalIndexes| == n
  {
    BatchesSnoc(rest, last);
    var k := |last.originalIndexes| - 1;
    assert (IndexesIn(rest) + last.originalIndexes)[n - 1] == last.originalIndexes[k];
  }

  lemma ExtendLast(limits: Limits, rest: seq<Batch>, last: Batch, ops: seq<Operation>, op: Operation)
    requires ValidLimits(limits) && InOrder(limits, rest + [last], ops)
    requires last.operations != [] && op.kind == last.batchType
    requires !Full(limits, |last.operations|, SizeBytes(limits, last.operations), op)
    ensures InOrder(limits, rest + [Append(last, op, |ops|)], ops + [op])
  {
    hide Needed, OperationsOf, IndexesIn, SizeBytes, Full, Faithful;
    var all, next := rest + [last], Append(last, op, |ops|);
    var after := rest + [next];
    assert all[|rest|] == last;
    LengthsAgree(limits, last, ops);
    BatchesSnoc(rest, last);
    BatchesSnoc(rest, next);
    LastIndex(rest, last, |ops|);
    AppendFaithful(limits, last, ops, op);
    UpToSnoc(|ops|);
    assert Consecutive(next);
    assert OperationsOf(rest) + (last.operations + [op]) == OperationsOf(rest) + last.operations + [op];
    assert IndexesIn(rest) + (last.originalIndexes + [|ops|]) == IndexesIn(rest) + last.originalIndexes + [|ops|];
    forall i | 0 <= i < |after|
      ensures Faithful(limits, after[i], ops + [op]) && Consecutive(after[i])
    {
      if i < |rest| {
        assert after[i] == all[i];
        MoreFaithful(limits, all[i], ops, op);
      }
    }
    forall i | 0 <= i < |after| - 1
      ensures Needed(limits, after[i], after[i + 1])
    {
      assert after[i] == all[i] && Needed(limits, all[i], all[i + 1]);
      if i + 1 == |rest| {
        SameStart(limits, all[i], last, next);
      }
    }
  }

  lemma LengthsAgree(limits: Limits, b: Batch, ops: seq<Operation>)
    requires ValidLimits(limits) && Faithful(limits, b, ops)
    ensures |b.originalIndexes| == |b.operations|
  {
  }

  lemma SameStart(limits: Limits, b: Batch, last: Batch, next: Batch)
    requires ValidLimits(limits) && Needed(limits, b, last) && last.operations != [] && next.operations != []
    requires next.batchType == last.batchType && next.operations[0] == last.operations[0]
    ensures Needed(limits, b, next)
  {
  }

  // The ids of the inserts, each under the index of its operation.
  predicate IdsInPlace(ids: seq<InsertedId>, ops: seq<Operation>)
  {
    && |ids| == |IndexesOf(ops, INSERT)|
    && (forall k :: 0 <= k < |ids| ==>
          ids[k] == InsertedId(IndexesOf(ops, INSERT)[k], ops[IndexesOf(ops, INSERT)[k]].document))
  }

  lemma IdsSnoc(ids: seq<InsertedId>, ops: seq<Operation>, op: Operation)
    requires IdsInPlace(ids, ops)
    ensures IdsInPlace(if op.kind == INSERT then ids + [InsertedId(|ops|, op.document)] else ids, ops + [op])
  {
    IndexesSnoc(ops, op, INSERT);
  }

  predicate Inv(s: Ordered, ops: seq<Operation>)
  {
    && ValidLimits(s.limits)
    && s.currentIndex == |ops|
    && InOrder(s.limits, AllBatches(s), ops)
    && IdsInPlace(s.insertedIds, ops)
    && Tracked(s) && NoEmptyBatch(s.limits, AllBatches(s))
  }

  // The counters of the current batch.
  predicate Tracked(s: Ordered)
    requires ValidLimits(s.limits)
  {
    if s.currentBatch.None? then s.batches == [] && s.currentBatchSize == 0 && s.currentBatchSizeBytes == 0
    else
      var current := s.currentBatch.value;
      && current.operations != []
      && s.currentBatchSize == |current.operations|
      && s.currentBatchSizeBytes == SizeBytes(s.limits, current.operations)
  }

  // With a count limit of 1 the first batch is empty; otherwise none is.
  predicate NoEmptyBatch(limits: Limits, all: seq<Batch>)
  {
    if limits.maxWriteBatchSize == 1 then all == [] || all[0].operations == []
    else forall i :: 0 <= i < |all| ==> all[i].operations != []
  }

  lemma AddKeeps(s: Ordered, ops: seq<Operation>, op: Operation)
    requires Inv(s, ops) && Add(s, op).Ok?
    ensures Inv(Add(s, op).value, ops + [op])
  {
    hide InOrder, IdsInPlace, SizeBytes;
    var limits, next := s.limits, Add(s, op).value;
    IdsSnoc(s.insertedIds, ops, op);
    var started := Append(NewBatch(op.kind, |ops|), op, |ops|);
    FreshBytes(limits, op, |ops|);
    if s.currentBatch.None? {
      EmptyList(limits, ops, op.kind, AllBatches(s));
      if limits.maxWriteBatchSize == 1 {
        StartNew(limits, [NewBatch(op.kind, 0)], ops, op);
        assert AllBatches(next) == [NewBatch(op.kind, 0)] + [started];
      } else {
        StartNew(limits, [], ops, op);
        assert AllBatches(next) == [] + [started];
      }
    } else {
      var current := s.currentBatch.value;
      if Full(limits, s.currentBatchSize, s.currentBatchSizeBytes, op) || current.batchType != op.kind {
        StartNew(limits, AllBatches(s), ops, op);
        assert AllBatches(next) == AllBatches(s) + [started];
      } else {
        ExtendLast(limits, s.batches, current, ops, op);
        SizeBytesSnoc(limits, current.operations, op);
        assert AllBatches(next) == s.batches + [Append(current, op, |ops|)];
        assert forall i :: 0 <= i < |s.batches| ==> AllBatches(next)[i] == AllBatches(s)[i];
      }
    }
  }

  lemma FreshBytes(limits: Limits, op: Operation, index: nat)
    requires ValidLimits(limits)
    ensures SizeBytes(limits, Append(NewBatch(op.kind, index), op, index).operations) == MaxKeySize(limits) + op.size
    ensures Append(NewBatch(op.kind, index), op, index).operations == [op]
  {
    SizeBytesSnoc(limits, [], op);
    assert [] + [op] == [op];
  }

  lemma EmptyList(limits: Limits, ops: seq<Operation>, kind: BatchType, all: seq<Batch>)
    requires ValidLimits(limits) && InOrder(limits, all, ops) && all == []
    ensures ops == [] && InOrder(limits, [NewBatch(kind, 0)], ops) && InOrder(limits, [], ops)
  {
    BatchesSnoc([], NewBatch(kind, 0));
    assert [] + [NewBatch(kind, 0)] == [NewBatch(kind, 0)];
  }

  lemma {:induction false} AddAllKeeps(limits: Limits, calls: seq<Operation>)
    requires ValidLimits(limits)
    ensures Inv(AddAll(limits, calls), Accepted(limits, calls))
    decreases |calls|
  {
    if calls != [] {
      hide Add;
      var before, last := calls[..|calls| - 1], calls[|calls| - 1];
      AddAllKeeps(limits, before);
      AddRefuses(AddAll(limits, before), last);
      if last.size < limits.maxBsonObjectSize {
        AddKeeps(AddAll(limits, before), Accepted(limits, before), last);
      } else {
        assert Accepted(limits, before) + [] == Accepted(limits, before);
      }
    }
  }

  lemma AddRefuses(s: Ordered, op: Operation)
    requires ValidLimits(s.limits)
    ensures Add(s, op).Err? <==> op.size >= s.limits.maxBsonObjectSize
  {
  }

  // ----- Main results -----

  // The batches of an ordered bulk, one after the other, are the accepted operations in order
  // under the indexes 0, 1, 2, ...; each batch has one kind, is within the limits, counts its
  // indexes up from its first, and is only followed by another because the next operation
  // did not fit. The ids of the inserts are filed under the caller's indexes.
  lemma OrderedPartition(limits: Limits, calls: seq<Operation>)
    requires ValidLimits(limits)
    ensures var s, ops := AddAll(limits, calls), Accepted(limits, calls);
      && OperationsOf(AllBatches(s)) == ops && IndexesIn(AllBatches(s)) == UpTo(|ops|)
      && (forall b :: b in AllBatches(s) ==> Faithful(limits, b, ops) && Consecutive(b))
      && (forall i :: 0 <= i < |AllBatches(s)| - 1 ==> Needed(limits, AllBatches(s)[i], AllBatches(s)[i + 1]))
      && IdsInPlace(s.insertedIds, ops)
  {
    hide Faithful, Consecutive, Needed, AddAll, Accepted, Tracked, IdsInPlace, AllBatches;
    AddAllKeeps(limits, calls);
  }

  // A bulk with operations sends no empty batch exactly when the count limit is at least 2.
  lemma EmptyBatchOnlyAtOne(limits: Limits, calls: seq<Operation>)
    requires ValidLimits(limits) && Accepted(limits, calls) != []
    ensures (forall b :: b in AllBatches(AddAll(limits, calls)) ==> b.operations != []) <==>
      limits.maxWriteBatchSize >= 2
  {
    hide Faithful, Consecutive, Needed, AddAll, Accepted, Tracked, IdsInPlace, AllBatches;
    AddAllKeeps(limits, calls);
    var all := AllBatches(AddAll(limits, calls));
    assert all != [];
    assert all[0] in all;
  }
}
