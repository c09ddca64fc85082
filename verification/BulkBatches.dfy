/**
 Bulk operations cut into batches (src/bulk/common.ts, src/bulk/ordered.ts,
 src/bulk/unordered.ts). An operation is its kind, an identity and its BSON size.
 */
module BulkBatches {

  datatype BatchType = INSERT | UPDATE | DELETE

  datatype Operation = Operation(kind: BatchType, document: nat, size: nat)

  datatype Batch = Batch(
    batchType: BatchType, originalZeroIndex: nat, originalIndexes: seq<nat>, operations: seq<Operation>)

  datatype Limits = Limits(maxBsonObjectSize: nat, maxBatchSizeBytes: nat, maxWriteBatchSize: nat)

  datatype InsertedId = InsertedId(index: nat, id: nat)

  datatype AddError = DocumentTooLarge

  // The length of a number in decimal.
  function Digits(n: nat): (d: nat)
    ensures d >= 1
  {
    if n < 10 then 1 else 1 + Digits(n / 10)
  }

  // The servers' limit is at least 1: a zero falls back to the default 1000.
  predicate ValidLimits(limits: Limits)
  {
    limits.maxWriteBatchSize >= 1
  }

  // Type byte, the largest array key, and its terminator.
  function MaxKeySize(limits: Limits): nat
    requires ValidLimits(limits)
  {
    Digits(limits.maxWriteBatchSize - 1) + 2
  }

  function NewBatch(kind: BatchType, index: nat): Batch
  {
    Batch(kind, index, [], [])
  }

  // The byte counter of some operations.
  function SizeBytes(limits: Limits, operations: seq<Operation>): nat
    requires ValidLimits(limits)
    decreases |operations|
  {
    if operations == [] then 0
    else SizeBytes(limits, operations[..|operations| - 1]) + MaxKeySize(limits) + operations[|operations| - 1].size
  }

  lemma SizeBytesSnoc(limits: Limits, operations: seq<Operation>, op: Operation)
    requires ValidLimits(limits)
    ensures SizeBytes(limits, operations + [op]) == SizeBytes(limits, operations) + MaxKeySize(limits) + op.size
  {
    assert (operations + [op])[..|operations|] == operations;
  }

  // A batch is full for an operation when its count or its bytes would reach the limit. An
  // empty batch takes an operation of any size, but not when the count limit is 1.
  predicate Full(limits: Limits, count: nat, bytes: nat, op: Operation)
    requires ValidLimits(limits)
  {
    || count + 1 >= limits.maxWriteBatchSize
    || (count > 0 && bytes + MaxKeySize(limits) + op.size >= limits.maxBatchSizeBytes)
  }

  function Append(b: Batch, op: Operation, index: nat): Batch
  {
    b.(originalIndexes := b.originalIndexes + [index], operations := b.operations + [op])
  }

  // ----- What batches say about the caller's operations -----

  // A batch of operations of one kind, each under the index the caller gave it, in order, and
  // within the limits.
  predicate Faithful(limits: Limits, b: Batch, ops: seq<Operation>)
    requires ValidLimits(limits)
  {
    && |b.originalIndexes| == |b.operations|
    && (forall j :: 0 <= j < |b.operations| ==>
          && b.originalIndexes[j] < |ops|
          && b.operations[j] == ops[b.originalIndexes[j]]
          && b.operations[j].kind == b.batchType)
    && (forall j, k :: 0 <= j < k < |b.operations| ==> b.originalIndexes[j] < b.originalIndexes[k])
    && (b.operations != [] ==> b.originalZeroIndex == b.originalIndexes[0])
    && (|b.operations| > 1 ==>
          |b.operations| < limits.maxWriteBatchSize && SizeBytes(limits, b.operations) < limits.maxBatchSizeBytes)
  }

  lemma AppendFaithful(limits: Limits, b: Batch, ops: seq<Operation>, op: Operation)
    requires ValidLimits(limits) && Faithful(limits, b, ops) && op.kind == b.batchType
    requires b.operations == [] ==> b.originalZeroIndex == |ops|
    requires b.operations != [] ==> !Full(limits, |b.operations|, SizeBytes(limits, b.operations), op)
    ensures Faithful(limits, Append(b, op, |ops|), ops + [op])
  {
    hide SizeBytes, Full;
    AppendWithin(limits, b, op);
  }

  lemma AppendWithin(limits: Limits, b: Batch, op: Operation)
    requires ValidLimits(limits)
    requires b.operations != [] ==> !Full(limits, |b.operations|, SizeBytes(limits, b.operations), op)
    ensures b.operations != [] ==>
      |b.operations| + 1 < limits.maxWriteBatchSize
      && SizeBytes(limits, b.operations + [op]) < limits.maxBatchSizeBytes
  {
    SizeBytesSnoc(limits, b.operations, op);
  }

  lemma MoreFaithful(limits: Limits, b: Batch, ops: seq<Operation>, op: Operation)
    requires ValidLimits(limits) && Faithful(limits, b, ops)
    ensures Faithful(limits, b, ops + [op])
  {
  }

  // ----- The bytes of a batch as an array -----

  // A BSON array: its length, an element (type byte, decimal key, terminator, document) per
  // operation, and a final zero byte.
  function ArraySize(operations: seq<Operation>): nat
    decreases |operations|
  {
    if operations == [] then 5
    else
      var last := |operations| - 1;
      ArraySize(operations[..last]) + 2 + Digits(last) + operations[last].size
  }

  lemma {:induction false} DigitsMonotone(a: nat, b: nat)
    requires a <= b
    ensures Digits(a) <= Digits(b)
    decreases b
  {
    if b >= 10 && a >= 10 {
      DigitsMonotone(a / 10, b / 10);
    }
  }

  // The counter bounds the encoding: every key is at most as long as the one it counts.
  lemma {:induction false} CounterBoundsArray(limits: Limits, operations: seq<Operation>)
    requires ValidLimits(limits) && |operations| <= limits.maxWriteBatchSize
    ensures ArraySize(operations) <= SizeBytes(limits, operations) + 5
    decreases |operations|
  {
    if operations != [] {
      DigitsMonotone(|operations| - 1, limits.maxWriteBatchSize - 1);
      CounterBoundsArray(limits, operations[..|operations| - 1]);
    }
  }

  // So a faithful batch of more than one operation encodes to less than the limit plus 5.
  lemma BatchFits(limits: Limits, b: Batch, ops: seq<Operation>)
    requires ValidLimits(limits) && Faithful(limits, b, ops)
    ensures |b.operations| > 1 ==> ArraySize(b.operations) < limits.maxBatchSizeBytes + 5
    ensures |b.operations| <= if limits.maxWriteBatchSize == 1 then 1 else limits.maxWriteBatchSize - 1
  {
    if |b.operations| > 1 {
      CounterBoundsArray(limits, b.operations);
    }
  }

  // ----- The operations of one kind -----

  function IndexesOf(ops: seq<Operation>, kind: BatchType): (indexes: seq<nat>)
    ensures forall i :: 0 <= i < |indexes| ==> indexes[i] < |ops| && ops[indexes[i]].kind == kind
    ensures forall i, j :: 0 <= i < j < |indexes| ==> indexes[i] < indexes[j]
    decreases |ops|
  {
    if ops == [] then []
    else
      var last := |ops| - 1;
      IndexesOf(ops[..last], kind) + (if ops[last].kind == kind then [last] else [])
  }

  lemma IndexesSnoc(ops: seq<Operation>, op: Operation, kind: BatchType)
    ensures IndexesOf(ops + [op], kind) == IndexesOf(ops, kind) + (if op.kind == kind then [|ops|] else [])
  {
    assert (ops + [op])[..|ops|] == ops;
  }

  lemma {:induction false} IndexesComplete(ops: seq<Operation>, i: nat)
    requires i < |ops|
    ensures i in IndexesOf(ops, ops[i].kind)
    ensures forall kind :: kind != ops[i].kind ==> i !in IndexesOf(ops, kind)
    decreases |ops|
  {
    if i < |ops| - 1 {
      IndexesComplete(ops[..|ops| - 1], i);
    }
  }

  // The operations a bulk takes: those below the document limit.
  function Accepted(limits: Limits, calls: seq<Operation>): seq<Operation>
    decreases |calls|
  {
    if calls == [] then []
    else
      var last := calls[|calls| - 1];
      Accepted(limits, calls[..|calls| - 1]) + (if last.size < limits.maxBsonObjectSize then [last] else [])
  }
}
