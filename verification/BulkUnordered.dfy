/**
 The unordered bulk (src/bulk/unordered.ts): one current batch per kind, so the operations are
 regrouped by kind and each batch remembers the caller's indexes.
 */
module BulkUnordered {
  import opened Wrappers
  import opened BulkBatches

  // A current batch with its counters.
  datatype Current = Current(batch: Batch, size: nat, sizeBytes: nat)

  datatype Unordered = Unordered(
    limits: Limits, batches: seq<Batch>,
    currentInsert: Option<Current>, currentUpdate: Option<Current>, currentRemove: Option<Current>,
    currentIndex: nat, insertedIds: seq<InsertedId>)

  function Empty(limits: Limits): Unordered
  {
    Unordered(limits, [], None, None, None, 0, [])
  }

  function CurrentOf(s: Unordered, kind: BatchType): Option<Current>
  {
    match kind
    case INSERT => s.currentInsert
    case UPDATE => s.currentUpdate
    case DELETE => s.currentRemove
  }

  function SaveCurrent(s: Unordered, kind: BatchType, current: Current): Unordered
  {
    match kind
    case INSERT => s.(currentInsert := Some(current))
    case UPDATE => s.(currentUpdate := Some(current))
    case DELETE => s.(currentRemove := Some(current))
  }

  function Add(s: Unordered, op: Operation): Result<Unordered, AddError>
    requires ValidLimits(s.limits)
  {
    if op.size >= s.limits.maxBsonObjectSize then Err(DocumentTooLarge)
    else
      var kept := CurrentOf(s, op.kind);
      var current := if kept.Some? then kept.value else Current(NewBatch(op.kind, s.currentIndex), 0, 0);
      var full := Full(s.limits, current.size, current.sizeBytes, op);
      var room := if full then Current(NewBatch(op.kind, s.currentIndex), 0, 0) else current;
      var next := SaveCurrent(
        s, op.kind, Current(Append(room.batch, op, s.currentIndex), room.size + 1,
                            room.sizeBytes + MaxKeySize(s.limits) + op.size));
      Ok(next.(
        batches := if full then s.batches + [current.batch] else s.batches,
        currentIndex := s.currentIndex + 1,
        insertedIds := if op.kind == INSERT then s.insertedIds + [InsertedId(|s.insertedIds|, op.document)]
                       else s.insertedIds))
  }

  function AddAll(limits: Limits, calls: seq<Operation>): (s: Unordered)
    requires ValidLimits(limits)
    ensures s.limits == limits
    decreases |calls|
  {
    if calls == [] then Empty(limits)
    else
      var s := AddAll(limits, calls[..|calls| - 1]);
      match Add(s, calls[|calls| - 1])
      case Ok(next) => next
      case Err(_) => s
  }

  function Pending(current: Option<Current>): seq<Batch>
  {
    if current.Some? then [current.value.batch] else []
  }

  // The batches as executed: the current ones are last, by kind.
  function AllBatches(s: Unordered): seq<Batch>
  {
    s.batches + Pending(s.currentInsert) + Pending(s.currentUpdate) + Pending(s.currentRemove)
  }

  class UnorderedBulkOperation {
    const limits: Limits
    var batches: seq<Batch>
    var currentInsertBatch: Option<Current>
    var currentUpdateBatch: Option<Current>
    var currentRemoveBatch: Option<Current>
    var currentIndex: nat
    var insertedIds: seq<InsertedId>

    ghost function State(): Unordered
      reads this
    {
      Unordered(limits, batches, currentInsertBatch, currentUpdateBatch, currentRemoveBatch, currentIndex, insertedIds)
    }

    constructor (limits: Limits)
      requires ValidLimits(limits)
      ensures State() == Empty(limits)
    {
      this.limits := limits;
      batches, currentIndex, insertedIds := [], 0, [];
      currentInsertBatch, currentUpdateBatch, currentRemoveBatch := None, None, None;
    }

    method AddToOperationsList(op: Operation) returns (thrown: Option<AddError>)
      requires ValidLimits(limits)
      modifies this
      ensures match Add(old(State()), op)
              case Ok(next) => thrown == None && State() == next
              case Err(e) => thrown == Some(e) && State() == old(State())
    {
      if op.size >= limits.maxBsonObjectSize {
        return Some(DocumentTooLarge);
      }
      var kept := match op.kind
        case INSERT => currentInsertBatch
        case UPDATE => currentUpdateBatch
        case DELETE => currentRemoveBatch;
      var maxKeySize := MaxKeySize(limits);
      var current := Current(NewBatch(op.kind, currentIndex), 0, 0);
      if kept.Some? {
        current := kept.value;
      }
      if current.size + 1 >= limits.maxWriteBatchSize
         || (current.size > 0 && current.sizeBytes + maxKeySize + op.size >= limits.maxBatchSizeBytes)
      {
        batches := batches + [current.batch];
        current := Current(NewBatch(op.kind, currentIndex), 0, 0);
      }
      current := Current(Append(current.batch, op, currentIndex), current.size + 1,
                         current.sizeBytes + maxKeySize + op.size);
      currentIndex := currentIndex + 1;
      match op.kind {
        case INSERT =>
          currentInsertBatch := Some(current);
          insertedIds := insertedIds + [InsertedId(|insertedIds|, op.document)];
        case UPDATE =>
          currentUpdateBatch := Some(current);
        case DELETE =>
          currentRemoveBatch := Some(current);
      }
      thrown := None;
    }
  }

  // ----- The invariant -----

  // The indexes in the batches of one kind, in the order of the batches.
  function KindIndexes(batches: seq<Batch>, kind: BatchType): seq<nat>
  {
    if batches == [] then []
    else (if batches[0].batchType == kind then batches[0].originalIndexes else []) + KindIndexes(batches[1..], kind)
  }

  lemma {:induction false} KindConcat(a: seq<Batch>, b: seq<Batch>, kind: BatchType)
    ensures KindIndexes(a + b, kind) == KindIndexes(a, kind) + KindIndexes(b, kind)
  {
    if a == [] {
      assert a + b == b;
    } else {
      assert (a + b)[1..] == a[1..] + b;
      KindConcat(a[1..], b, kind);
    }
  }

  lemma KindOne(b: Batch, kind: BatchType)
    ensures KindIndexes([b], kind) == if b.batchType == kind then b.originalIndexes else []
  {
    assert [b][1..] == [];
  }

  function PendingIndexes(current: Option<Current>): seq<nat>
  {
    if current.Some? then current.value.batch.originalIndexes else []
  }

  // A current batch of a kind: faithful, counted and not empty.
  predicate Tracked(limits: Limits, current: Option<Current>, kind: BatchType, ops: seq<Operation>)
    requires ValidLimits(limits)
  {
    current.Some? ==>
      var c := current.value;
      && c.batch.batchType == kind && Faithful(limits, c.batch, ops) && c.batch.operations != []
      && c.size == |c.batch.operations| && c.sizeBytes == SizeBytes(limits, c.batch.operations)
  }

  // The pushed batches and the current one of a kind hold that kind's operations in order.
  predicate Regrouped(s: Unordered, ops: seq<Operation>, kind: BatchType)
    requires ValidLimits(s.limits)
  {
    && KindIndexes(s.batches, kind) + PendingIndexes(CurrentOf(s, kind)) == IndexesOf(ops, kind)
    && Tracked(s.limits, CurrentOf(s, kind), kind, ops)
  }

  predicate Inv(s: Unordered, ops: seq<Operation>)
  {
    && ValidLimits(s.limits)
    && s.currentIndex == |ops|
    && (forall i :: 0 <= i < |s.batches| ==> Faithful(s.limits, s.batches[i], ops))
    && (s.limits.maxWriteBatchSize >= 2 ==> forall i :: 0 <= i < |s.batches| ==> s.batches[i].operations != [])
    && Regrouped(s, ops, INSERT) && Regrouped(s, ops, UPDATE) && Regrouped(s, ops, DELETE)
    && |s.insertedIds| == |IndexesOf(ops, INSERT)|
    && (forall k :: 0 <= k < |s.insertedIds| ==>
          s.insertedIds[k] == InsertedId(k, ops[IndexesOf(ops, INSERT)[k]].document))
  }

  lemma OtherKindKept(s: Unordered, next: Unordered, ops: seq<Operation>, op: Operation, kind: BatchType)
    requires ValidLimits(s.limits) && Regrouped(s, ops, kind) && kind != op.kind && next.limits == s.limits
    requires CurrentOf(next, kind) == CurrentOf(s, kind)
    requires next.batches == s.batches || exists b :: next.batches == s.batches + [b] && b.batchType == op.kind
    ensures Regrouped(next, ops + [op], kind)
  {
    hide KindIndexes, IndexesOf, SizeBytes, Faithful;
    IndexesSnoc(ops, op, kind);
    if next.batches != s.batches {
      var b :| next.batches == s.batches + [b] && b.batchType == op.kind;
      KindConcat(s.batches, [b], kind);
      KindOne(b, kind);
    }
    if CurrentOf(s, kind).Some? {
      MoreFaithful(s.limits, CurrentOf(s, kind).value.batch, ops, op);
    }
    assert IndexesOf(ops, kind) + [] == IndexesOf(ops, kind);
    assert KindIndexes(s.batches, kind) + [] == KindIndexes(s.batches, kind);
  }

  lemma NewFaithful(limits: Limits, ops: seq<Operation>, op: Operation)
    requires ValidLimits(limits)
    ensures var b := Append(NewBatch(op.kind, |ops|), op, |ops|);
      && Faithful(limits, b, ops + [op]) && b.operations == [op] && b.originalIndexes == [|ops|]
      && SizeBytes(limits, b.operations) == MaxKeySize(limits) + op.size
  {
    SizeBytesSnoc(limits, [], op);
    assert [] + [op] == [op];
  }

  // The three ways an operation joins its kind: a full batch is pushed, the current one grows,
  // or the first one starts.
  lemma PushGroups(limits: Limits, batches: seq<Batch>, current: Batch, ops: seq<Operation>, op: Operation)
    requires current.batchType == op.kind
    requires KindIndexes(batches, op.kind) + current.originalIndexes == IndexesOf(ops, op.kind)
    ensures KindIndexes(batches + [current], op.kind) + [|ops|] == IndexesOf(ops + [op], op.kind)
  {
    hide KindIndexes, IndexesOf;
    IndexesSnoc(ops, op, op.kind);
    KindConcat(batches, [current], op.kind);
    KindOne(current, op.kind);
  }

  lemma GrowGroups(batches: seq<Batch>, indexes: seq<nat>, ops: seq<Operation>, op: Operation)
    requires KindIndexes(batches, op.kind) + indexes == IndexesOf(ops, op.kind)
    ensures KindIndexes(batches, op.kind) + (indexes + [|ops|]) == IndexesOf(ops + [op], op.kind)
  {
    hide KindIndexes, IndexesOf;
    IndexesSnoc(ops, op, op.kind);
    assert KindIndexes(batches, op.kind) + (indexes + [|ops|]) == KindIndexes(batches, op.kind) + indexes + [|ops|];
  }

  function Started(limits: Limits, index: nat, op: Operation): Current
    requires ValidLimits(limits)
  {
    Current(Append(NewBatch(op.kind, index), op, index), 1, MaxKeySize(limits) + op.size)
  }

  function Grown(limits: Limits, current: Current, index: nat, op: Operation): Current
    requires ValidLimits(limits)
  {
    Current(Append(current.batch, op, index), current.size + 1, current.sizeBytes + MaxKeySize(limits) + op.size)
  }

  lemma TrackedStarts(limits: Limits, ops: seq<Operation>, op: Operation)
    requires ValidLimits(limits)
    ensures Tracked(limits, Some(Started(limits, |ops|, op)), op.kind, ops + [op])
    ensures Started(limits, |ops|, op).batch.originalIndexes == [|ops|]
  {
    hide SizeBytes, Faithful;
    NewFaithful(limits, ops, op);
  }

  lemma TrackedGrows(limits: Limits, current: Current, ops: seq<Operation>, op: Operation)
    requires ValidLimits(limits) && Tracked(limits, Some(current), op.kind, ops)
    requires !Full(limits, current.size, current.sizeBytes, op)
    ensures Tracked(limits, Some(Grown(limits, current, |ops|, op)), op.kind, ops + [op])
  {
    hide SizeBytes, Faithful, Full;
    AppendFaithful(limits, current.batch, ops, op);
    SizeBytesSnoc(limits, current.batch.operations, op);
  }

  lemma OwnKindKept(s: Unordered, ops: seq<Operation>, op: Operation)
    requires Inv(s, ops) && Add(s, op).Ok?
    ensures Regrouped(Add(s, op).value, ops + [op], op.kind)
  {
    hide KindIndexes, IndexesOf, Tracked, Full, Faithful;
    var limits, kind := s.limits, op.kind;
    assert Regrouped(s, ops, kind);
    var kept := CurrentOf(s, kind);
    TrackedStarts(limits, ops, op);
    if kept.None? {
      StartOwn(s, ops, op);
    } else {
      KeepsKind(limits, kept, kind, ops);
      var current := kept.value;
      if Full(limits, current.size, current.sizeBytes, op) {
        PushGroups(limits, s.batches, current.batch, ops, op);
        assert CurrentOf(Add(s, op).value, kind) == Some(Started(limits, |ops|, op));
      } else {
        GrowGroups(s.batches, current.batch.originalIndexes, ops, op);
        TrackedGrows(limits, current, ops, op);
        assert CurrentOf(Add(s, op).value, kind) == Some(Grown(limits, current, |ops|, op));
      }
    }
  }

  lemma KeepsKind(limits: Limits, current: Option<Current>, kind: BatchType, ops: seq<Operation>)
    requires ValidLimits(limits) && Tracked(limits, current, kind, ops)
    ensures current.Some? ==> current.value.batch.batchType == kind
  {
  }

  // The first operation of a kind; with a count limit of 1 an empty batch is pushed before it.
  lemma StartOwn(s: Unordered, ops: seq<Operation>, op: Operation)
    requires Inv(s, ops) && Add(s, op).Ok? && CurrentOf(s, op.kind).None?
    ensures Regrouped(Add(s, op).value, ops + [op], op.kind)
  {
    hide KindIndexes, IndexesOf, Tracked, Full, Faithful;
    assert Regrouped(s, ops, op.kind);
    TrackedStarts(s.limits, ops, op);
    PushGroups(s.limits, s.batches, NewBatch(op.kind, |ops|), ops, op);
    GrowGroups(s.batches, [], ops, op);
    assert [] + [|ops|] == [|ops|];
    assert CurrentOf(Add(s, op).value, op.kind) == Some(Started(s.limits, |ops|, op));
  }

  lemma PushedKept(s: Unordered, ops: seq<Operation>, op: Operation)
    requires Inv(s, ops) && Add(s, op).Ok?
    ensures var next := Add(s, op).value;
      && (forall i :: 0 <= i < |next.batches| ==> Faithful(s.limits, next.batches[i], ops + [op]))
      && (s.limits.maxWriteBatchSize >= 2 ==> forall i :: 0 <= i < |next.batches| ==> next.batches[i].operations != [])
  {
    hide KindIndexes, IndexesOf, SizeBytes, Faithful;
    var next, kept := Add(s, op).value, CurrentOf(s, op.kind);
    assert Regrouped(s, ops, op.kind);
    var current := if kept.Some? then kept.value.batch else NewBatch(op.kind, |ops|);
    if kept.None? {
      EmptyFaithful(s.limits, op.kind, |ops|, ops);
    }
    forall i | 0 <= i < |next.batches|
      ensures Faithful(s.limits, next.batches[i], ops + [op])
    {
      MoreFaithful(s.limits, if i < |s.batches| then s.batches[i] else current, ops, op);
    }
  }

  lemma EmptyFaithful(limits: Limits, kind: BatchType, index: nat, ops: seq<Operation>)
    requires ValidLimits(limits)
    ensures Faithful(limits, NewBatch(kind, index), ops)
  {
  }

  lemma AddKeeps(s: Unordered, ops: seq<Operation>, op: Operation)
    requires Inv(s, ops) && Add(s, op).Ok?
    ensures Inv(Add(s, op).value, ops + [op])
  {
    hide KindIndexes, IndexesOf, SizeBytes, Faithful, Regrouped;
    var next := Add(s, op).value;
    PushedKept(s, ops, op);
    OwnKindKept(s, ops, op);
    AddedBatch(s, ops, op);
    IndexesSnoc(ops, op, INSERT);
    if op.kind != INSERT { OtherKindKept(s, next, ops, op, INSERT); }
    if op.kind != UPDATE { OtherKindKept(s, next, ops, op, UPDATE); }
    if op.kind != DELETE { OtherKindKept(s, next, ops, op, DELETE); }
  }

  lemma AddedBatch(s: Unordered, ops: seq<Operation>, op: Operation)
    requires Inv(s, ops) && Add(s, op).Ok?
    ensures var next := Add(s, op).value;
      next.batches == s.batches || exists b :: next.batches == s.batches + [b] && b.batchType == op.kind
  {
    hide KindIndexes, IndexesOf, SizeBytes, Faithful, Full;
    assert Regrouped(s, ops, op.kind);
  }

  lemma AddRefuses(s: Unordered, op: Operation)
    requires ValidLimits(s.limits)
    ensures Add(s, op).Err? <==> op.size >= s.limits.maxBsonObjectSize
  {
  }

  lemma {:induction false} AddAllKeeps(limits: Limits, calls: seq<Operation>)
    requires ValidLimits(limits)
    ensures Inv(AddAll(limits, calls), Accepted(limits, calls))
    decreases |calls|
  {
    if calls != [] {
      hide Add;
      var before, last := calls[..|calls| - 1], calls[|calls| - 1];
      AddAllKeeps(limits, before);
      AddRefuses(AddAll(limits, before), last);
      if last.size < limits.maxBsonObjectSize {
        AddKeeps(AddAll(limits, before), Accepted(limits, before), last);
      } else {
        assert Accepted(limits, before) + [] == Accepted(limits, before);
      }
    }
  }

  // ----- Main results -----

  lemma AllKindIndexes(s: Unordered, ops: seq<Operation>, kind: BatchType)
    requires Inv(s, ops)
    ensures KindIndexes(AllBatches(s), kind) == IndexesOf(ops, kind)
  {
    hide KindIndexes, IndexesOf, SizeBytes, Faithful;
    assert Regrouped(s, ops, INSERT) && Regrouped(s, ops, UPDATE) && Regrouped(s, ops, DELETE);
    PendingKind(s.currentInsert, kind);
    PendingKind(s.currentUpdate, kind);
    PendingKind(s.currentRemove, kind);
    var a, b, c := Pending(s.currentInsert), Pending(s.currentUpdate), Pending(s.currentRemove);
    KindConcat(s.batches + a + b, c, kind);
    KindConcat(s.batches + a, b, kind);
    KindConcat(s.batches, a, kind);
    var all := KindIndexes(s.batches, kind);
    assert all + [] == all;
    match kind {
      case INSERT => assert all + PendingIndexes(s.currentInsert) + [] + [] == all + PendingIndexes(s.currentInsert);
      case UPDATE => assert all + [] + PendingIndexes(s.currentUpdate) + [] == all + PendingIndexes(s.currentUpdate);
      case DELETE => assert all + [] + [] + PendingIndexes(s.currentRemove) == all + PendingIndexes(s.currentRemove);
    }
  }

  lemma PendingKind(current: Option<Current>, kind: BatchType)
    ensures KindIndexes(Pending(current), kind)
         == if current.Some? && current.value.batch.batchType == kind then PendingIndexes(current) else []
  {
    if current.Some? {
      KindOne(current.value.batch, kind);
    }
  }

  // The batches of one kind, one after the other, hold exactly the indexes of the accepted
  // operations of that kind, ascending; and every batch is faithful and within the limits.
  lemma UnorderedPartition(limits: Limits, calls: seq<Operation>)
    requires ValidLimits(limits)
    ensures var s, ops := AddAll(limits, calls), Accepted(limits, calls);
      && (forall kind :: KindIndexes(AllBatches(s), kind) == IndexesOf(ops, kind))
      && (forall b :: b in AllBatches(s) ==> Faithful(limits, b, ops))
      && (limits.maxWriteBatchSize >= 2 ==> forall b :: b in AllBatches(s) ==> b.operations != [])
  {
    hide KindIndexes, IndexesOf, SizeBytes, Faithful, AddAll, Accepted;
    var s, ops := AddAll(limits, calls), Accepted(limits, calls);
    AddAllKeeps(limits, calls);
    forall kind
      ensures KindIndexes(AllBatches(s), kind) == IndexesOf(ops, kind)
    {
      AllKindIndexes(s, ops, kind);
    }
    assert Regrouped(s, ops, INSERT) && Regrouped(s, ops, UPDATE) && Regrouped(s, ops, DELETE);
  }

  // Without an accepted operation nothing happens; with one and a count limit of 1, the empty
  // first batch of its kind is found full.
  lemma {:induction false} NothingAccepted(limits: Limits, calls: seq<Operation>)
    requires ValidLimits(limits) && Accepted(limits, calls) == []
    ensures AddAll(limits, calls) == Empty(limits)
    decreases |calls|
  {
    if calls != [] {
      NothingAccepted(limits, calls[..|calls| - 1]);
      AddRefuses(AddAll(limits, calls[..|calls| - 1]), calls[|calls| - 1]);
    }
  }

  lemma {:induction false} EmptyAtOne(limits: Limits, calls: seq<Operation>)
    requires ValidLimits(limits) && Accepted(limits, calls) != [] && limits.maxWriteBatchSize == 1
    ensures var s := AddAll(limits, calls); s.batches != [] && s.batches[0].operations == []
    decreases |calls|
  {
    var before, last := calls[..|calls| - 1], calls[|calls| - 1];
    AddRefuses(AddAll(limits, before), last);
    if Accepted(limits, before) == [] {
      NothingAccepted(limits, before);
    } else {
      EmptyAtOne(limits, before);
    }
  }

  // A bulk with operations sends no empty batch exactly when the count limit is at least 2.
  lemma EmptyBatchOnlyAtOne(limits: Limits, calls: seq<Operation>)
    requires ValidLimits(limits) && Accepted(limits, calls) != []
    ensures (forall b :: b in AllBatches(AddAll(limits, calls)) ==> b.operations != []) <==>
      limits.maxWriteBatchSize >= 2
  {
    hide Faithful, KindIndexes, AddAll, Accepted;
    UnorderedPartition(limits, calls);
    var s := AddAll(limits, calls);
    if limits.maxWriteBatchSize < 2 {
      EmptyAtOne(limits, calls);
      assert s.batches[0] in AllBatches(s);
    }
  }

  // Every accepted operation is in a batch of its kind, under one position only, and in no
  // batch of another kind.
  lemma EveryIndexOnce(limits: Limits, calls: seq<Operation>, i: nat)
    requires ValidLimits(limits) && i < |Accepted(limits, calls)|
    ensures var all, ops := AllBatches(AddAll(limits, calls)), Accepted(limits, calls);
      && i in KindIndexes(all, ops[i].kind)
      && (forall kind :: kind != ops[i].kind ==> i !in KindIndexes(all, kind))
      && (forall j, k :: 0 <= j < k < |KindIndexes(all, ops[i].kind)| ==>
            KindIndexes(all, ops[i].kind)[j] < KindIndexes(all, ops[i].kind)[k])
  {
    hide KindIndexes, AddAll, Accepted, AllBatches;
    UnorderedPartition(limits, calls);
    IndexesComplete(Accepted(limits, calls), i);
  }

  // The ids of the inserts are filed under how many inserts came before, not under the
  // caller's index: the two agree exactly when no other operation came before.
  lemma InsertedIdsAreOrdinals(limits: Limits, calls: seq<Operation>, k: nat)
    requires ValidLimits(limits) && k < |AddAll(limits, calls).insertedIds|
    ensures var s, ops := AddAll(limits, calls), Accepted(limits, calls);
      && k < |IndexesOf(ops, INSERT)|
      && IndexesOf(ops, INSERT)[k] <= |ops|
      && s.insertedIds[k] == InsertedId(k, ops[IndexesOf(ops, INSERT)[k]].document)
      && (s.insertedIds[k].index == IndexesOf(ops, INSERT)[k] <==> AllInserts(ops[..IndexesOf(ops, INSERT)[k]]))
  {
    hide KindIndexes, SizeBytes, Faithful, AddAll, Accepted, Regrouped;
    AddAllKeeps(limits, calls);
    OrdinalIsIndex(Accepted(limits, calls), k);
  }

  lemma {:induction false} OrdinalIsIndex(ops: seq<Operation>, k: nat)
    requires k < |IndexesOf(ops, INSERT)|
    ensures var index := IndexesOf(ops, INSERT)[k];
      k <= index < |ops| && (index == k <==> AllInserts(ops[..index]))
    decreases |ops|
  {
    var rest := ops[..|ops| - 1];
    AllInsertsCount(rest);
    if k < |IndexesOf(rest, INSERT)| {
      OrdinalIsIndex(rest, k);
      assert rest[..IndexesOf(rest, INSERT)[k]] == ops[..IndexesOf(rest, INSERT)[k]];
    }
  }

  predicate AllInserts(ops: seq<Operation>)
  {
    forall i :: 0 <= i < |ops| ==> ops[i].kind == INSERT
  }

  lemma {:induction false} AllInsertsCount(ops: seq<Operation>)
    ensures |IndexesOf(ops, INSERT)| <= |ops|
    ensures |IndexesOf(ops, INSERT)| == |ops| <==> AllInserts(ops)
    decreases |ops|
  {
    if ops != [] {
      AllInsertsCount(ops[..|ops| - 1]);
    }
  }

  // ----- No batch without need -----

  function OfKind(batches: seq<Batch>, kind: BatchType): seq<Batch>
    decreases |batches|
  {
    if batches == [] then []
    else
      var last := batches[|batches| - 1];
      OfKind(batches[..|batches| - 1], kind) + (if last.batchType == kind then [last] else [])
  }

  lemma {:induction false} OfKindConcat(a: seq<Batch>, b: seq<Batch>, kind: BatchType)
    ensures OfKind(a + b, kind) == OfKind(a, kind) + OfKind(b, kind)
    decreases |b|
  {
    if b == [] {
      assert a + b == a;
    } else {
      assert (a + b)[..|a + b| - 1] == a + b[..|b| - 1] && (a + b)[|a + b| - 1] == b[|b| - 1];
      OfKindConcat(a, b[..|b| - 1], kind);
    }
  }

  // The batches of one kind in order, the current one last.
  function KindBatches(s: Unordered, kind: BatchType): seq<Batch>
  {
    OfKind(s.batches, kind) + Pending(CurrentOf(s, kind))
  }

  // A batch was ended because the first operation of the next one did not fit it.
  predicate Needed(limits: Limits, b: Batch, next: Batch)
    requires ValidLimits(limits)
  {
    next.operations != [] && Full(limits, |b.operations|, SizeBytes(limits, b.operations), next.operations[0])
  }

  predicate Chained(limits: Limits, batches: seq<Batch>)
    requires ValidLimits(limits)
  {
    && (batches != [] ==> batches[|batches| - 1].operations != [])
    && (forall i :: 0 <= i < |batches| - 1 ==> Needed(limits, batches[i], batches[i + 1]))
  }

  lemma ChainGrows(limits: Limits, batches: seq<Batch>, op: Operation, next: Batch)
    requires ValidLimits(limits) && Chained(limits, batches) && next.operations == [op]
    requires batches != [] ==>
      var last := batches[|batches| - 1].operations; Full(limits, |last|, SizeBytes(limits, last), op)
    ensures Chained(limits, batches + [next])
  {
    hide Full, SizeBytes;
  }

  lemma ChainFills(limits: Limits, batches: seq<Batch>, last: Batch, op: Operation, index: nat)
    requires ValidLimits(limits) && Chained(limits, batches + [last]) && last.operations != []
    ensures Chained(limits, batches + [Append(last, op, index)])
  {
    hide Full, SizeBytes;
    var was, now := batches + [last], batches + [Append(last, op, index)];
    forall i | 0 <= i < |now| - 1
      ensures Needed(limits, now[i], now[i + 1])
    {
      assert Needed(limits, was[i], was[i + 1]) && now[i] == was[i];
      assert now[i + 1] == was[i + 1] || (i + 1 == |batches| && was[i + 1] == last);
    }
  }

  // What every call keeps about the batches of one kind.
  predicate Linked(s: Unordered, kind: BatchType)
  {
    && ValidLimits(s.limits) && Chained(s.limits, KindBatches(s, kind))
    && (CurrentOf(s, kind).None? ==> OfKind(s.batches, kind) == [])
  }

  lemma OtherLinked(s: Unordered, ops: seq<Operation>, op: Operation, kind: BatchType)
    requires Inv(s, ops) && Add(s, op).Ok? && Linked(s, kind) && op.kind != kind
    ensures Linked(Add(s, op).value, kind)
  {
    hide OfKind, Chained, KindIndexes, IndexesOf, SizeBytes, Faithful, Full;
    var next := Add(s, op).value;
    AddedBatch(s, ops, op);
    if next.batches != s.batches {
      var b :| next.batches == s.batches + [b] && b.batchType == op.kind;
      OfKindConcat(s.batches, [b], kind);
      OfKindOne(b, kind);
      assert OfKind(s.batches, kind) + [] == OfKind(s.batches, kind);
    }
  }

  lemma OfKindOne(b: Batch, kind: BatchType)
    ensures OfKind([b], kind) == if b.batchType == kind then [b] else []
  {
    assert [b][..0] == [];
  }

  lemma OwnLinked(s: Unordered, ops: seq<Operation>, op: Operation)
    requires Inv(s, ops) && Add(s, op).Ok? && Linked(s, op.kind)
    ensures Linked(Add(s, op).value, op.kind)
  {
    hide OfKind, Chained, KindIndexes, IndexesOf, SizeBytes, Faithful, Full;
    var limits, kind, before := s.limits, op.kind, OfKind(s.batches, op.kind);
    var next := Add(s, op).value;
    assert Regrouped(s, ops, kind);
    var kept := CurrentOf(s, kind);
    var empty := NewBatch(kind, |ops|);
    var started := Append(empty, op, |ops|);
    assert started.operations == [op];
    if kept.None? {
      assert before + [] == [] && [] + [started] == [started] && [] + [empty] == [empty];
      FirstChained(limits, empty, started, op);
      if Full(limits, 0, 0, op) {
        OfKindConcat(s.batches, [empty], kind);
        OfKindOne(empty, kind);
        assert KindBatches(next, kind) == [empty] + [started];
      } else {
        assert KindBatches(next, kind) == [started];
      }
    } else {
      var current := kept.value;
      if Full(limits, current.size, current.sizeBytes, op) {
        OfKindConcat(s.batches, [current.batch], kind);
        OfKindOne(current.batch, kind);
        ChainGrows(limits, before + [current.batch], op, started);
        assert KindBatches(next, kind) == before + [current.batch] + [started];
      } else {
        ChainFills(limits, before, current.batch, op, |ops|);
        assert KindBatches(next, kind) == before + [Append(current.batch, op, |ops|)];
      }
    }
  }

  lemma FirstChained(limits: Limits, empty: Batch, started: Batch, op: Operation)
    requires ValidLimits(limits) && empty.operations == [] && started.operations == [op]
    ensures Chained(limits, [started]) && (Full(limits, 0, 0, op) ==> Chained(limits, [empty] + [started]))
  {
    hide Full;
    assert SizeBytes(limits, empty.operations) == 0;
  }

  lemma {:induction false} AllLinked(limits: Limits, calls: seq<Operation>, kind: BatchType)
    requires ValidLimits(limits)
    ensures Linked(AddAll(limits, calls), kind)
    decreases |calls|
  {
    hide Add, Linked;
    if calls == [] {
      EmptyLinked(limits, kind);
    } else {
      var before, last := calls[..|calls| - 1], calls[|calls| - 1];
      AllLinked(limits, before, kind);
      AddAllKeeps(limits, before);
      if Add(AddAll(limits, before), last).Ok? {
        if last.kind == kind {
          OwnLinked(AddAll(limits, before), Accepted(limits, before), last);
        } else {
          OtherLinked(AddAll(limits, before), Accepted(limits, before), last, kind);
        }
      }
    }
  }

  lemma EmptyLinked(limits: Limits, kind: BatchType)
    requires ValidLimits(limits)
    ensures Linked(Empty(limits), kind)
  {
  }

  // A batch of some kind is ended only because the next operation of that kind did not fit it.
  lemma NoneWithoutNeed(limits: Limits, calls: seq<Operation>, kind: BatchType)
    requires ValidLimits(limits)
    ensures Chained(limits, OfKind(AllBatches(AddAll(limits, calls)), kind))
  {
    hide OfKind, Chained, AddAll, Accepted, KindIndexes, IndexesOf, Faithful, SizeBytes;
    AllLinked(limits, calls, kind);
    AddAllKeeps(limits, calls);
    var s, ops := AddAll(limits, calls), Accepted(limits, calls);
    assert Regrouped(s, ops, INSERT) && Regrouped(s, ops, UPDATE) && Regrouped(s, ops, DELETE);
    var a, b, c := Pending(s.currentInsert), Pending(s.currentUpdate), Pending(s.currentRemove);
    OfKindConcat(s.batches + a + b, c, kind);
    OfKindConcat(s.batches + a, b, kind);
    OfKindConcat(s.batches, a, kind);
    PendingOfKind(s.currentInsert, INSERT, kind);
    PendingOfKind(s.currentUpdate, UPDATE, kind);
    PendingOfKind(s.currentRemove, DELETE, kind);
    var all := OfKind(s.batches, kind);
    assert all + a + [] + [] == all + a && all + [] + b + [] == all + b && all + [] + [] + c == all + c;
  }

  lemma PendingOfKind(current: Option<Current>, own: BatchType, kind: BatchType)
    requires current.Some? ==> current.value.batch.batchType == own
    ensures OfKind(Pending(current), kind) == if own == kind then Pending(current) else []
  {
    if current.Some? {
      OfKindOne(current.value.batch, kind);
    }
  }
}
