# Verified model of the MongoDB driver's protocols

This project models the parts of the driver that keep state across callbacks and proves what
they promise over every run: wire framing, GridFS, change streams, the connection pool, client
sessions and transactions, bulk writes, cursors and the shuffle.

Each part is built in the same way. A datatype holds the state, functions describe one turn
each (a call, a reply, a timer, an acknowledgement), and a class with the source's fields does
the same step by step. The contract of every method of the class gives the whole new state as
the function's value at the old state. The guarantees are lemmas about every sequence of turns,
so every interleaving of callbacks that the environment can produce is covered.

`dafny verify dfyconfig.toml` checks the whole project.

| files | part |
|---|---|
| `BufferPool`, `Commands`, `MessageStream`, `MessageSending`, `MessageReplies` | the rope of buffers, OP_MSG printing and parsing, OP_COMPRESSED, frames out of chunks, commands sent while others are being compressed, what replies are received as |
| `GridFSUpload`, `GridFSUploadRuns`, `GridFSDownload`, `GridFSRoundTrip`, `GridFSRefusals` | chunking with a carry buffer, acknowledgements in any order, ranged reading, aborts and refusals |
| `ChangeStreamCursor`, `ChangeStream`, `ChangeStreamRuns`, `ChangeStreamCalls`, `ChangeStreamAnswers` | resume tokens, `next` across resumes, the resume queue and its callbacks, why each was called |
| `ConnectionPool` and the six `ConnectionPool...` files | permits, wait queue, generations, the dispatch loop, waiters left without service |
| `Transactions`, `Sessions`, `SessionRuns`, `SessionResults`, `SessionCommands`, `WithTransaction`, `WithTransactionResults` | the state table, transaction numbers, the server session pool, retries, what is reported |
| `BulkBatches`, `BulkOrdered`, `BulkUnordered`, `BulkExecution`, `BulkResults` | splitting, executing and merging a bulk |
| `Cursor`, `CursorResults`, `CursorReplies` | `next`, `toArray` over any replies, the client-side limit |
| `Shuffle` | the Fisher-Yates shuffle |
| `Wrappers`, `Sequences`, `Bytes` | options and results, concatenation, little-endian integers |

## What the environment may do

- Sockets deliver any bytes in any chunks. A BSON document is a byte string that starts with its
  own length, or just its size where only the size matters. Compressions finish in any order, each
  with bytes that inflate back to the message or with an error.
- GridFS: the chunk inserts are answered in any order, each once, with success or an error. The
  index check is over when the stream is written to. A download's query returns the stored chunks
  it asks for, in ascending order, up to its limit.
- Change streams: the server's log is any sequence of entries, each matching the pipeline or not.
  A reply scans some further part of it. Once a cursor has been sent a token after a batch, it
  keeps getting them (`StaleTokenRepeats` shows why), and a resume of a stream that has a position
  happens with a token or a start time on a server of wire version 7 or more (`StartTimeLost` shows
  why). The results on callbacks need neither. Only `next` is used, one call at a time.
- Connection pool: a connect succeeds or fails at any later time, timers fire at any time, idle
  connections may be found perished at any time, and a connection is checked in while it is on
  loan. Callbacks do not throw.
- Sessions: each session does one thing at a time, sessions interleave freely, any attempt may or
  may not reach a connection, and which server sessions have timed out is arbitrary at each moment.
- Bulk: any reply for any batch, or an exception in place of one. Operations are single documents.
- Cursors: any replies, errors and responses without a cursor included; what is delivered in full is a
  finite result in any batches, empty ones included. A transform is any function.

## Where the code does not keep the promise

For each of these the project has a lemma with the input that fails and, where there is one, the
exact condition.

- GridFS: an empty range at a chunk boundary inside the file returns the rest of the file
  (`DownloadIsRange`); missing chunks are noticed exactly when one of them lies in front of one that
  is left (`MissingNoticedExactly`, `TruncationUnnoticed`); a write after `end` spoils the file
  exactly when it comes after the remnant was sent or the files document issued, or leaves bytes in
  the buffer for which no chunk is ever made (`FileIntactExactly`, with the runs `LateWriteCorrupts`
  and `LateWriteIsLost`).
- Framing: a command overtakes an earlier one that is still being compressed, which can happen after
  unacknowledged writes; the order of the calls is kept exactly when that never happens
  (`CallOrderExactly`, `PlainOvertakes`).
- Change streams: a callback passed to `next` is called twice exactly when the cursor of a resume
  turns out dead and empty (`CalledBackOnceExactly`, `CalledBackTwice`; a promise keeps the first
  outcome); a server that stops sending tokens brings back an old one, and a delivered change comes
  again exactly when the whole batch had been delivered (`StaleTokenRepeats`, `DeliveredTwice`); a
  start time is forgotten when the first aggregate fails (`StartTimeForgotten`, `StartTimeLost`).
- Connection pool: a waiter is left with an idle connection or room for one and no run of the wait
  queue going on or scheduled exactly when the queue's connect comes back to a cancelled waiter in front of it, or a connect for the
  minimum size fails (`StrandedExactly`, with the runs `WaiterLeftBehind` and `FailedConnectStrands`);
  the checked-out counter never comes down for waiters that left without a
  connection (`CheckedOutCount`); idle connections count twice in the total (`WithinCapacity`).
- Transactions: a function given to `withTransaction` that returns no promise leaves its transaction
  in progress while the call fails (`RetriesStart`).
- Sessions: a commit repeated while a reserved transaction number is unused carries another number
  than its transaction (`OneNumberExactly`, `CommitMoves`).
- Bulk: the callback gets no error although a batch failed exactly when sending a batch throws, and
  then no result either (`WhatIsSent`); with the option `explain` sending always throws
  (src/operations/command.ts:108-112), and nothing is written (`NothingSentNothingSaid`). With a count
  limit of 1 an empty batch is sent, by ordered and unordered bulks (`EmptyBatchOnlyAtOne`); inserted
  ids and upserts of unordered bulks and errors of whole batches may name another operation
  (`InsertedIdsAreOrdinals`, `UpsertIndexRight`, `UnorderedUpsertMisplaced`, `TopLevelIndex`); a reply
  without nModified resets the total (`ModifiedTotal`).
- Cursors: `toArray` ends early or skips a document when the transform gives null or a falsy value at
  the head of a batch (`ToArrayDelivers`); an empty first batch switches the client-side limit off
  (`LimitKeptExactly`).
- Shuffle: the error text asks for a limit below the number of items, while the code also takes the
  number itself; nothing else fails.

## Model

| member | source | states |
|---|---|---|
| `BufferPools.BufferPool.Append` | src/utils.ts:1179-1182 | the bytes go to the back of one flat queue |
| `BufferPools.BufferPool.Peek` | src/utils.ts:1185-1187 | the first bytes of the queue, nothing if it is shorter, an error for a negative size; buffers and length stay as they are |
| `BufferPools.BufferPool.Read` | src/utils.ts:1190-1255 | returns and removes exactly the first bytes of the queue however they are cut into buffers; a larger request gives an empty result and changes nothing |
| `BufferPools.CutWithin` | src/utils.ts:1190-1255 | cutting the rope inside any buffer, after empty or whole ones, is cutting the flat bytes |
| `Commands.Msg.ToBin` | src/cmap/commands.ts:709-742 | the buffers together are header, flags and one document section; the declared length is the number of bytes; lengths and ids that do not fit 32 bits are refused |
| `Commands.MakeDocumentSegment` | src/cmap/commands.ts:744-753 | the segment is a zero byte and the document, and its length is counted exactly |
| `Commands.RequestIds.GetRequestId` | src/cmap/commands.ts:763-766 | ids count up within 31 bits and wrap |
| `Commands.RequestIdsDistinct` | src/cmap/commands.ts:763-766 | two ids are equal exactly when a multiple of 2^31 calls lies between them |
| `Commands.BinMsg.Parse` | src/cmap/commands.ts:833-882 | reads all sections in order, stops with an error at a payload of type 1 or a cut length, and parses only once |
| `Commands.ParsePrintedSections` | src/cmap/commands.ts:833-882 | parsing inverts printing for any number of document sections after any prefix |
| `Commands.OtherSections` | src/cmap/commands.ts:833-882 | behind any documents a payload of type 1 is refused, a cut length cannot be read, any other type is skipped, and the documents are kept |
| `Commands.BodyRoundTrip` | src/cmap/commands.ts:709-753 | a printed message parses back to its one document and its three flags |
| `Commands.HeaderRoundTrip` | src/cmap/commands.ts:736-740 | the four header fields read back from the printed header in front of any body |
| `MessageStreams.MessageStream.Write` | src/cmap/message_stream.ts:64-67 | a written chunk is handled as the flat bytes buffered before plus the chunk |
| `MessageStreams.MessageStream.ProcessIncomingData` | src/cmap/message_stream.ts:131-210 | messages, leftover and the one ending of the write are those of the flat bytes; the buffered length decreases with each frame |
| `MessageStreams.MessageStream.WriteCommand` | src/cmap/message_stream.ts:75-101 | a plain frame is pushed at once, a command that may be compressed with zlib goes under compression, and each error case fails the call |
| `MessageStreams.MessageStream.OnDeflated` | src/cmap/message_stream.ts:101-119 | the compressed frame is pushed when its compression is through, or the call fails |
| `MessageStreams.ReceiveMore` | src/cmap/message_stream.ts:131-210 | receiving bytes after bytes is receiving them together, for any faults in between |
| `MessageStreams.ChunkingInvisible` | src/cmap/message_stream.ts:64-67 | every cutting of any bytes gives the same messages, the same ending and, if the stream did not fail, the same leftover |
| `MessageStreams.ReceiveSettles` | src/cmap/message_stream.ts:131-210 | no further frame is hidden in what is left |
| `MessageStreams.CompressedFrameFields` | src/cmap/message_stream.ts:101-118 | every field of a compressed frame is at its place and its length is the bytes sent |
| `MessageStreams.CompressedFrameArrives` | src/cmap/message_stream.ts:180-202 | a compressed frame is received with the same request id, opcode, flags and document |
| `MessageStreams.PlainFrameArrives` | src/cmap/message_stream.ts:158-178 | so is a plain one |
| `MessageReplies.FrameReceived` | src/cmap/message_stream.ts:158-210 | every frame a server can send, plain or compressed, with any ids, opcode and body: it is received with exactly its request id, responseTo, opcode and body when it unpacks to what it declares, and otherwise ends with the one fault it has |
| `MessageReplies.RepliesArrive` | src/cmap/message_stream.ts:131-210 | any sound replies in any chunks arrive once each, in order, with those fields |
| `MessageReplies.FaultEnds` | src/cmap/message_stream.ts:184-199 | a reply that is not sound ends the stream with its fault, after all before it were received and with nothing behind it |
| `MessageReplies.LengthDecides` | src/cmap/message_stream.ts:131-156 | negative, too large and too short lengths end the stream, each with its fault; any other waits for the whole frame |
| `MessageSending.PushedOnce` | src/cmap/message_stream.ts:75-120 | in every run each call is pushed once, failed or under compression, exactly one of the three |
| `MessageSending.CompressionDecides` | src/cmap/message_stream.ts:81-101 | which commands are pushed at once, go to zlib or fail: a command that carries credentials or opens a connection is never compressed |
| `MessageSending.NothingPushed` | src/cmap/message_stream.ts:96-106 | a command too large for its length and a failed compression push nothing and fail the call |
| `MessageSending.PushOrderExactly` | src/cmap/message_stream.ts:75-120 | whatever the order in which compressions finish, the frames are pushed in the order of the calls exactly when no pushed call was overtaken |
| `MessageSending.CallOrderExactly` | src/cmap/message_stream.ts:101-119 | once all compressions are through, that is exactly when none was in flight while a later command was pushed |
| `MessageSending.PlainOvertakes` | src/cmap/message_stream.ts:81-86 | a plain command sent after a compressed one is pushed first if the compression is not through |
| `MessageSending.ArriveAsPushed` | src/cmap/message_stream.ts:64-120 | for any order of completions and any chunks, every frame arrives once in push order as the one message of its command, with the same id, flags and document, and nothing is left over |
| `MessageSending.EndToEnd` | src/cmap/message_stream.ts:64-120 | when nothing fails, all compressions are through and none was overtaken, message k is command k |
| `GridFSUploads.ChunksAppend` | src/gridfs/upload.ts:427-501 | cutting into chunks does not depend on where the writes are cut |
| `GridFSUploads.GridFSBucketWriteStream.DoWriteNow` | src/gridfs/upload.ts:427-501 | the carry buffer and the inserts issued after a write of any size |
| `GridFSUploads.GridFSBucketWriteStream.Flush` | src/gridfs/upload.ts:456-499 | the copy loop issues exactly the full chunks of the carried and written bytes, numbered on, and keeps the remnant |
| `GridFSUploads.GridFSBucketWriteStream.OnInsert` | src/gridfs/upload.ts:466-494 | an acknowledgement counts down, and writes the remnant and completes when it was the last; an error does neither |
| `GridFSUploads.GridFSBucketWriteStream.WriteRemnantNow` | src/gridfs/upload.ts:530-557 | the bytes left become the last chunk, or the upload completes at once |
| `GridFSUploads.GridFSBucketWriteStream.CheckDoneNow` | src/gridfs/upload.ts:298-330 | the files document is issued only when ended, nothing is outstanding and nothing failed or was aborted |
| `GridFSUploads.GridFSBucketWriteStream.EndStream` | src/gridfs/upload.ts:187-221 | a second end and an end after an abort change nothing |
| `GridFSUploads.GridFSBucketWriteStream.AbortStream` | src/gridfs/upload.ts:151-165 | an abort after the end or a second abort changes nothing |
| `GridFSUploads.GridFSBucketWriteStream.HandleError` | src/gridfs/upload.ts:224-237 | the stream is errored from then on |
| `GridFSUploadRuns.StepKeeps` | src/gridfs/upload.ts:427-501 | every turn, late writes included, keeps the counters equal to the unacknowledged inserts and, while nothing is spoiled, the chunks issued a beginning of the layout of the bytes written |
| `GridFSUploadRuns.FileIntactExactly` | src/gridfs/upload.ts:298-330 | in every run with a files document, it has the length of all bytes written, every chunk is acknowledged and the chunks are their layout, exactly when no late write came after the remnant or the document and none left bytes unsent when the document was issued |
| `GridFSUploadRuns.FilesDocSafe` | src/gridfs/upload.ts:298-330 | without a write after end the files document is only there together with that file |
| `GridFSUploadRuns.FilesDocInserted` | src/gridfs/upload.ts:298-330 | in every run there is at most one files document, and it is there as soon as the stream is ended, not errored, and all inserts are acknowledged |
| `GridFSUploadRuns.RejectedStaysOut` | src/gridfs/upload.ts:224-237 | after a rejected chunk no later events bring the files document |
| `GridFSRefusals.AbortDecides` | src/gridfs/upload.ts:151-165 | an abort takes effect exactly before the end |
| `GridFSRefusals.AbortedFilesNothing` | src/gridfs/upload.ts:151-165 | after it no later call or answer brings a files document or a further chunk |
| `GridFSUploadRuns.LateWriteCorrupts` | src/gridfs/upload.ts:530-557 | a byte written while the remnant is on its way is counted in the length of the file and is in no chunk |
| `GridFSUploadRuns.LateWriteIsLost` | src/gridfs/upload.ts:187-221 | a byte written after the files document is in neither |
| `GridFSDownloads.GridFSBucketReadStream.InitStream` | src/gridfs/download.ts:312-389 | the query, the expected chunks and the skip for all option values, with the refusals |
| `GridFSDownloads.GridFSBucketReadStream.HandleStartOption` | src/gridfs/download.ts:407-433 | the chunk the range starts in, the bytes skipped, and each refusal |
| `GridFSDownloads.GridFSBucketReadStream.HandleEndOption` | src/gridfs/download.ts:435-460 | the limit, the last chunk and the bytes trimmed, and each refusal |
| `GridFSDownloads.GridFSBucketReadStream.Read` | src/gridfs/download.ts:209-310 | one chunk: each chunk error, and the piece pushed |
| `GridFSRoundTrip.LayoutAt` | src/gridfs/upload.ts:427-501 | chunk i holds exactly the bytes from i times the chunk size on, and there are as many as the ceiling says |
| `GridFSRoundTrip.SliceEndAt` | src/gridfs/download.ts:278-307 | only the last chunk of the range is cut at its end, at the range's end; the second trim branch never fires |
| `GridFSRoundTrip.ReadNext` | src/gridfs/download.ts:209-310 | after each chunk the pushed bytes are the range up to that chunk, and the next expected chunk and length are right |
| `GridFSRoundTrip.DownloadDelivers` | src/gridfs/download.ts:209-310 | for every range that passes the checks no chunk error is raised and the bytes up to the stop are delivered |
| `GridFSRoundTrip.DownloadIsRange` | src/gridfs/download.ts:435-460 | these are the requested bytes exactly when the range is not empty at a chunk boundary inside the file |
| `GridFSRoundTrip.BoundaryOf` | src/gridfs/download.ts:453-457 | the query has no limit exactly for such a range |
| `GridFSRoundTrip.RefusedRanges` | src/gridfs/download.ts:407-460 | which ranges are accepted; the default end refuses every positive start |
| `GridFSRefusals.NothingToRead` | src/gridfs/download.ts:312-345 | a missing file is an error, an empty one ends at once |
| `GridFSRefusals.OptionsRefused` | src/gridfs/download.ts:407-460 | which error any pair of options is refused with |
| `GridFSRefusals.ChunkRefused` | src/gridfs/download.ts:209-310 | a chunk is refused exactly when its number or its length is not the expected one, with the error for it and nothing pushed |
| `GridFSRefusals.RefusedStops` | src/gridfs/download.ts:209-310 | a refused chunk ends the download, whatever comes behind it |
| `GridFSRoundTrip.MissingNoticedExactly` | src/gridfs/download.ts:209-310 | whatever chunks are gone from the collection, the download ends without an error exactly when none the query asks for is missing in front of one that is left, and with a missing chunk otherwise; what was pushed is a beginning of the range |
| `GridFSRoundTrip.TruncationUnnoticed` | src/gridfs/download.ts:209-310 | with chunks missing at the end, a proper prefix is delivered without an error |
| `GridFSRoundTrip.UploadDownload` | src/gridfs/upload.ts:427-557 | whatever the writes, chunk size and order of answers, a download of a finished upload that no late write spoiled returns the range, or all bytes by default |
| `ChangeStreamCursors.ChangeStreamCursor.ResumeOptionsNow` | src/change_stream.ts:735-754 | which position a successor starts from |
| `ChangeStreamCursors.ChangeStreamCursor.CacheResumeTokenNow` | src/change_stream.ts:756-764 | the batch's token after its last change, the change's own otherwise |
| `ChangeStreamCursors.ChangeStreamCursor.ProcessBatchNow` | src/change_stream.ts:766-777 | the token of a batch is remembered, and cached at once for an empty batch |
| `ChangeStreamCursors.ChangeStreamCursor.OnResponse` | src/change_stream.ts:785-835 | the cursor after an aggregate or getMore reply, with the start time it keeps |
| `ChangeStreamCursors.ResumeKeepsPlace` | src/change_stream.ts:735-754 | a successor starts at the cached place exactly when a token is known, or a start time and wire version 7 |
| `ChangeStreamCursors.StartTimeForgotten` | src/change_stream.ts:735-754 | a start time is dropped when no server is known yet |
| `ChangeStreamAnswers.TokenAsWhat` | src/change_stream.ts:741-750 | a successor gets the token as `startAfter` exactly when the stream was opened so and received nothing since, as `resumeAfter` otherwise, and no other position |
| `ChangeStreamAnswers.ReceivedMeansDelivered` | src/change_stream.ts:756-764 | only handing out a change counts as received; a stream that received nothing resumes as it was opened |
| `ChangeStreamAnswers.StartTimeKept` | src/change_stream.ts:802-809 | the opening reply's time is kept exactly when none was asked for and the server has wire version 7 |
| `ChangeStreamAnswers.EmptyBatchAdvances` | src/change_stream.ts:766-777 | a token after an empty batch is cached at once, after any other it is kept for its end |
| `ChangeStreams.ChangeStream.NextNow` | src/change_stream.ts:365-382 | what a call of next, first or from the resume queue, does with the cursor and its buffer |
| `ChangeStreams.ChangeStream.ProcessNewChangeNow` | src/change_stream.ts:544-574 | a change is cached and delivered; no change or a change without an id closes the stream with its error |
| `ChangeStreams.ChangeStream.OnFailNow` | src/change_stream.ts:577-634 | a resumable failure puts the cursor aside and waits for the topology; any other closes |
| `ChangeStreams.ChangeStream.OnTopologyNow` | src/change_stream.ts:601-630 | the successor is made from the resume options of the cursor put aside |
| `ChangeStreams.ChangeStream.OnReplyNow` | src/change_stream.ts:640-661 | the reply answers the call, or installs the successor with its first result put back and drains the queue |
| `ChangeStreams.ChangeStream.ProcessResumeQueue` | src/change_stream.ts:663-690 | the calls are popped from the back and run on the new cursor, also those that the drain itself puts back, until the queue is empty |
| `ChangeStreams.ChangeStream.UnresumableError` | src/change_stream.ts:593-600 | the stream closes, and each queued call is made again and finds it closed, whatever the error of the failed resume was |
| `ChangeStreamRuns.ExactlyOnce` | src/change_stream.ts:365-382 | over any log, batches and failures, the delivered changes are a prefix of the matching entries: none lost, none repeated |
| `ChangeStreamRuns.TokenInPlace` | src/change_stream.ts:756-777 | the cached token lies after every delivered change and before every other one |
| `ChangeStreamCalls.EveryCallAnswered` | src/change_stream.ts:365-382 | in every run each call of next has been called back, except the one under way |
| `ChangeStreamCalls.CalledBackOnceExactly` | src/change_stream.ts:663-690 | none is called back twice exactly when no replacement cursor's first result is dead and empty |
| `ChangeStreamCalls.DeadSuccessorAnswersTwice` | src/change_stream.ts:663-690 | when one is, the resumed call gets the error and then the answer of a closed stream |
| `ChangeStreamCalls.CalledBackTwice` | src/change_stream.ts:663-690 | the shortest such run |
| `ChangeStreamCalls.StepAnswers` | src/change_stream.ts:544-690 | every turn keeps the callbacks in step with the calls and the queue |
| `ChangeStreamAnswers.AnswersDue` | src/change_stream.ts:365-690 | which callbacks each turn calls, read off the turn and the state it comes in, and that anything but a delivery closes the stream |
| `ChangeStreamAnswers.FailureReported` | src/change_stream.ts:577-634 | an error that cannot be resumed after closes the stream and is reported once, to the call under way; any other is not reported and queues that call |
| `ChangeStreamAnswers.TopologyDecides` | src/change_stream.ts:611-630 | the topology brings a new cursor for the queued call, or the stream closes |
| `ChangeStreamAnswers.NewCursorFails` | src/change_stream.ts:624-629 | an error of the new cursor closes the stream, resumable or not |
| `ChangeStreamAnswers.AnswersHaveCause` | src/change_stream.ts:365-690 | in every run each callback has its cause: an unresumable error only such a failure, a delivery only a change with an id, and so on |
| `ChangeStreamRuns.AdvanceKeeps` | src/change_stream.ts:544-634 | every turn keeps: delivered plus buffered changes are the matching entries up to the server's position |
| `ChangeStreamRuns.StaleTokenCached` | src/change_stream.ts:756-764 | when batches without a token follow one with a token, a change in the middle of a batch caches its own token and the last one the old token |
| `ChangeStreamRuns.StaleTokenRepeats` | src/change_stream.ts:756-764 | a resume then gets a delivered change again exactly when the whole batch was delivered |
| `ChangeStreamRuns.DeliveredTwice` | src/change_stream.ts:756-777 | a run that delivers the same change twice, for every old token and entry |
| `ChangeStreamRuns.StartTimeLost` | src/change_stream.ts:785-820 | a run that loses the entries between the start time and the resume |
| `ConnectionPools.ConnectionPool.CheckOutNow` | src/cmap/connection_pool.ts:286-326 | the waiter is queued with its timer, or answered at once by a closed pool |
| `ConnectionPools.ConnectionPool.OnTimeout` | src/cmap/connection_pool.ts:302-320 | a waiter that times out is answered and marked |
| `ConnectionPools.ConnectionPool.CheckInNow` | src/cmap/connection_pool.ts:333-352 | a stale, closed or late connection is destroyed, any other goes to the front of the idle ones |
| `ConnectionPools.ConnectionPool.ClearNow` | src/cmap/connection_pool.ts:360-378 | only the generation of the pool or of the service moves; an unknown service throws |
| `ConnectionPools.ConnectionPool.CloseNow` | src/cmap/connection_pool.ts:383-440 | all waiters not yet answered are answered from the back of the queue |
| `ConnectionPools.ConnectionPool.OnConnect` | src/cmap/connection_pool.ts:523-586 | where a new connection goes, its generation, and the permit of a failed one |
| `ConnectionPools.ConnectionPool.OnWaiterConnect` | src/cmap/connection_pool.ts:646-675 | who gets the connection or the error of the connect made for the queue |
| `ConnectionPools.ConnectionPool.DispatchNow` | src/cmap/connection_pool.ts:604-641 | the loop over the queue |
| `ConnectionPools.ConnectionPool.ProcessWaitQueueNow` | src/cmap/connection_pool.ts:598-679 | one dispatch and at most one new connect for the queue |
| `ConnectionPools.ConnectionPool.EnsureMinPoolSizeNow` | src/cmap/connection_pool.ts:495-506 | as many connects as the minimum is above the computed total |
| `ConnectionPoolRuns.ConnectionsKept` | src/cmap/connection_pool.ts:286-679 | every turn keeps: no connection in two places, permits account for all of them, one connect for the queue at a time |
| `ConnectionPoolResults.WithinCapacity` | src/cmap/connection_pool.ts:249-251 | in every run of an open pool, connections in flight, idle and on loan are the maximum minus the permits and never more than the maximum; the flag is set exactly while the one connect for the queue is in flight |
| `ConnectionPoolResults.AnsweredOnceInOrder` | src/cmap/connection_pool.ts:286-326 | each check-out is answered at most once and, after close, exactly once; it is unanswered exactly while it waits; grants follow arrival |
| `ConnectionPoolAnswers.AnswersDue` | src/cmap/connection_pool.ts:286-679 | who is answered in each turn, and with what: live waiters and usable idle connections are paired in order, a finished connect serves the waiter in front, a close sends all away from the back |
| `ConnectionPoolAnswers.AnswersHaveCause` | src/cmap/connection_pool.ts:286-679 | in every run a waiter hears of a failed connect only from the failure of the queue's connect while it is in front, and of a connection only from a connect that came through or a usable idle one |
| `ConnectionPoolAnswers.ConnectGrants` | src/cmap/connection_pool.ts:646-675 | the queue's connect that comes through answers the waiter in front with this connection, which is on loan from then on |
| `ConnectionPoolAnswers.ConnectGoesIdle` | src/cmap/connection_pool.ts:543-586 | with nobody to serve the connection joins the idle ones |
| `ConnectionPoolAnswers.ConnectFailsFrees` | src/cmap/connection_pool.ts:532-540 | a failed connect gives its permit back and nothing else |
| `ConnectionPoolAnswers.ReturnDecides` | src/cmap/connection_pool.ts:333-352 | a returned connection is idle again exactly when the pool and it are open and its generation is current |
| `ConnectionPoolAnswers.TickLends` | src/cmap/connection_pool.ts:604-641 | a run of the wait queue lends what it grants and loses no usable connection |
| `ConnectionPoolAnswers.TickConnects` | src/cmap/connection_pool.ts:643-646 | it starts at most one connect, when somebody waits and no idle connection is left |
| `ConnectionPoolAnswers.MinimumReached` | src/cmap/connection_pool.ts:495-506 | the timer brings the computed total up to the minimum with connects for nobody, and changes nothing else |
| `ConnectionPoolAnswers.WaiterTimesOut` | src/cmap/connection_pool.ts:302-320 | a check-out has a timer exactly when a timeout is configured, and it ends the wait |
| `ConnectionPoolAnswers.CreateDecides` | src/cmap/connection_pool.ts:212-214 | a minimum above the maximum is refused |
| `ConnectionPoolAnswers.ClosingCloses` | src/cmap/connection_pool.ts:383-440 | closing closes and empties the queue |
| `ConnectionPoolAnswers.ClosedIsOver` | src/cmap/connection_pool.ts:543-546 | a closed pool starts, lends and takes in nothing |
| `ConnectionPoolWaiters.StepAnswering` | src/cmap/connection_pool.ts:598-679 | every turn keeps the queue and the answers disjoint and complete |
| `ConnectionPoolSafety.StepOrdered` | src/cmap/connection_pool.ts:604-641 | every turn keeps grants before all that still wait |
| `ConnectionPoolResults.CheckedOutCount` | src/cmap/connection_pool.ts:270-272 | the counter is queued, on loan, and every waiter that left without a connection |
| `ConnectionPoolResults.ClearRetires` | src/cmap/connection_pool.ts:360-378 | clearing makes the idle and leased connections it applies to outdated |
| `ConnectionPoolResults.NeverLentAgain` | src/cmap/connection_pool.ts:508-517 | such a connection is never granted again by any later run, and once returned it is gone |
| `ConnectionPoolAnswers.ClearSpares` | src/cmap/connection_pool.ts:360-378 | a clear moves the generation of exactly what it covers |
| `ConnectionPoolAnswers.ClearedWhileConnecting` | src/cmap/connection_pool.ts:523-530 | a connect under way at a clear brings an outdated connection, which is lent at most to the waiter it was made for |
| `ConnectionPoolStranded.StrandedMissesService` | src/cmap/connection_pool.ts:598-679 | a quiet pool has a live waiter beside an idle connection or room for one exactly when a run of the wait queue would answer a waiter or start a connect |
| `ConnectionPoolStranded.StrandedExactly` | src/cmap/connection_pool.ts:532-679 | a turn leads there exactly when, with nothing scheduled, the queue's connect finds a cancelled waiter in front of a live one, or another connect fails while somebody waits |
| `ConnectionPoolStranded.StrandedComesFrom` | src/cmap/connection_pool.ts:532-679 | so every run that ends there has taken such a turn |
| `ConnectionPoolStranded.WaiterLeftBehind` | src/cmap/connection_pool.ts:646-655 | a run that leaves a waiter beside a usable idle connection with nothing scheduled |
| `ConnectionPoolStranded.FailedConnectStrands` | src/cmap/connection_pool.ts:532-540 | a run that leaves a waiter with room for a connection after a failed connect for the minimum size |
| `Transactions.Transaction.TransitionTo` | src/transactions.ts:153-170 | the state moves along the table, and stays where it is when the move is illegal |
| `Sessions.ServerSessionPool.AcquireSession` | src/sessions.ts:910-922 | the first pooled session that has not timed out, dropping those before it, or a new one |
| `Sessions.ServerSessionPool.ReleaseSession` | src/sessions.ts:930-958 | timed-out sessions leave from the back, and the session is put in front unless it timed out or is dirty |
| `Sessions.ClientSession.Start` | src/sessions.ts:385-429 | a new transaction reserves a number, and is refused while one is active |
| `Sessions.ClientSession.ApplySession` | src/sessions.ts:970-1049 | the fields a command gets, the number it carries, the server session acquired for it and the state it moves to |
| `Sessions.OpenOperation` | src/operations/execute_operation.ts:250-288 | when an operation may be retried, and that a retryable write reserves one number |
| `Sessions.ExecuteWithServerSelection` | src/operations/execute_operation.ts:147-290 | what goes out for an operation with its one retry, through any failures |
| `Sessions.EndTransactionNow` | src/sessions.ts:649-801 | commit and abort from every state, with the repeated command after a retryable error |
| `Sessions.EndSessionNow` | src/sessions.ts:253-300 | an active transaction is aborted first, and the server session goes back once |
| `SessionRuns.MayUse` | src/sessions.ts:993-1003 | a number about to be sent is new, or used by this transaction or write only |
| `SessionRuns.StepKeeps` | src/sessions.ts:970-1049 | every turn of any session keeps all of the invariants |
| `Transactions.ActiveRuns` | src/transactions.ts:22-46 | only an active transaction runs, is aborted or is committed first, and an active one is never restarted or forgotten |
| `SessionCommands.StartDecides` | src/sessions.ts:385-429 | a transaction starts exactly with support and while none is active |
| `SessionCommands.SendDecides` | src/sessions.ts:970-997 | which commands are refused, which get no fields, and which get all |
| `SessionCommands.SendLeaves` | src/sessions.ts:1002-1036 | the state a command leaves, and when it carries a number |
| `SessionCommands.CommandsSent` | src/operations/execute_operation.ts:147-290 | how many commands go out for an operation: a second one exactly when it may be retried and its first failure allows it |
| `SessionCommands.CommandNeeded` | src/sessions.ts:649-720 | which end of a transaction needs a command, and which is refused with what |
| `SessionCommands.EndSends` | src/sessions.ts:649-801 | the commands a commit or abort sends, their numbers, and the state after it |
| `SessionCommands.SessionEnds` | src/sessions.ts:253-300 | ending a session aborts what is active, once |
| `SessionRuns.AcquireFindsFirst` | src/sessions.ts:910-922 | the first pooled session that has not timed out is taken, and only timed-out ones are dropped |
| `SessionRuns.ReleaseDecides` | src/sessions.ts:930-958 | a session given back is pooled exactly when it has neither timed out nor become dirty; without a known timeout, exactly behind a load balancer |
| `SessionRuns.ReleasedIsNext` | src/sessions.ts:930-958 | the session given back last is the first to be taken again |
| `SessionRuns.AcquireTakes` | src/sessions.ts:910-922 | acquiring takes a session out of the pool and duplicates none |
| `SessionResults.NoIllegalTransition` | src/transactions.ts:153-170 | no interleaving of sessions, each doing one thing at a time, reaches the illegal-transition error |
| `SessionResults.NumbersIdentify` | src/sessions.ts:993-1003 | on a server session, whoever borrows it, commands with the same number belong to the same transaction or retryable write |
| `SessionResults.FirstCommandStarts` | src/sessions.ts:1029-1035 | exactly the first command of a transaction starts it |
| `SessionResults.OneHolder` | src/sessions.ts:910-958 | a server session is in the pool once or held by one live session, never both |
| `SessionResults.OneNumberExactly` | src/sessions.ts:993-1003 | all commands of a transaction and both attempts of a write carry one number in a run exactly when no commit is repeated while a reserved number is unused |
| `SessionResults.UnsteadyMoves` | src/sessions.ts:993-1003 | such a commit goes out under a number its transaction never had |
| `SessionResults.CommitMoves` | src/sessions.ts:649-801 | a run of ten turns in which that happens |
| `SessionResults.RetriesKeepTheirNumber` | src/operations/execute_operation.ts:184-233 | at most two commands go out for an operation, and those of a retryable write carry the same new number |
| `WithTransactions.AttemptTransaction` | src/sessions.ts:592-647 | the outcome, final state and number of retries for any behaviour of the function, the server and the clock |
| `WithTransactions.AttemptTransactionCommit` | src/sessions.ts:557-580 | the same from the commit on |
| `WithTransactionResults.LastEventDecides` | src/sessions.ts:557-647 | the outcome, the state left and the retries are those of the one event that ends it |
| `WithTransactionResults.OutcomeExactly` | src/sessions.ts:557-647 | it succeeds exactly when that event is a successful commit or a function that ended or never used its transaction; it throws exactly that event's error; it is retried exactly after errors whose labels and clock allow it |
| `WithTransactions.RetriesStart` | src/sessions.ts:592-647 | a retry never finds a transaction in progress; when withTransaction is over one is active exactly if the function returned no promise and had its transaction in progress, as that abort is not waited for |
| `WithTransactions.TriesBounded` | src/sessions.ts:480-489 | if every try, function and commit together, takes d milliseconds there are at most 120000 / d tries, rounded up |
| `BulkOrdered.OrderedBulkOperation.AddToOperationsList` | src/bulk/ordered.ts:15-81 | the batches and counters after each operation, and the refusal of one that is too large |
| `BulkUnordered.UnorderedBulkOperation.AddToOperationsList` | src/bulk/unordered.ts:24-108 | the same with one current batch per kind |
| `BulkOrdered.OrderedPartition` | src/bulk/ordered.ts:15-81 | the batches one after the other are the accepted operations under 0, 1, 2, ...; each is of one kind, within the limits, and ended only because the next operation did not fit; inserted ids sit under the caller's indexes |
| `BulkOrdered.EmptyBatchOnlyAtOne` | src/bulk/ordered.ts:42-61 | no batch is empty exactly when the count limit is at least 2 |
| `BulkUnordered.UnorderedPartition` | src/bulk/unordered.ts:24-108 | the batches of a kind hold exactly its operations, ascending, within the limits |
| `BulkUnordered.EmptyBatchOnlyAtOne` | src/bulk/unordered.ts:54-81 | no batch is empty exactly when the count limit is at least 2 |
| `BulkUnordered.NoneWithoutNeed` | src/bulk/unordered.ts:62-81 | a batch is ended only because the next operation of its kind did not fit it |
| `BulkUnordered.EveryIndexOnce` | src/bulk/unordered.ts:83-105 | each operation is in one place of one batch of its kind |
| `BulkUnordered.InsertedIdsAreOrdinals` | src/bulk/unordered.ts:91-97 | an inserted id sits under the caller's index exactly when only inserts came before |
| `BulkBatches.CounterBoundsArray` | src/bulk/common.ts:988-993 | the byte counter plus 5 bounds the BSON array encoding, keys included |
| `BulkBatches.BatchFits` | src/bulk/ordered.ts:42-61 | so a batch of several operations stays below the byte limit, and every batch below the count limit |
| `BulkExecution.BulkOperation.MergeBatchResults` | src/bulk/common.ts:447-581 | one reply merged into the result |
| `BulkExecution.BulkOperation.ExecuteCommands` | src/bulk/common.ts:583-681 | for any replies, the batches taken off the list, those that went out, the result, and whether the callback gets an error, a result or neither |
| `BulkExecution.BulkOperation.ExecuteBulk` | src/bulk/common.ts:1250-1289 | a bulk runs at most once, and an empty one is refused |
| `BulkResults.WhatIsSent` | src/bulk/common.ts:583-681 | a prefix of the batches is taken, each once, and all of it goes out but a last batch whose sending threw; an ordered bulk stops right after the first failing reply, an unordered one only where there is no plain answer; the callback gets no error exactly when no reply failed or sending threw, and neither error nor result exactly then |
| `BulkResults.LastDecides` | src/bulk/common.ts:594-657 | what the callback gets follows from the last reply and the merged errors |
| `BulkResults.NothingSentNothingSaid` | src/bulk/common.ts:629-658 | when making the first operation throws, nothing goes out and the callback gets neither an error nor a result; the error stays in the bulk's own result |
| `BulkResults.Totals` | src/bulk/common.ts:521-562 | inserted, removed, and matched plus upserted are the sums the servers acknowledged for each kind |
| `BulkResults.UpsertsCounted` | src/bulk/common.ts:531-562 | with sane servers the upsert count is the length of the upsert list and nothing is matched negatively |
| `BulkResults.ModifiedTotal` | src/bulk/common.ts:552-562 | the modified total is what was reported exactly when nothing was reported before a reply without it |
| `BulkResults.OpTimeIsLatest` | src/bulk/common.ts:490-518 | the result's time is the lexicographic maximum of the reported times, bare timestamps counted as (ts, 0) |
| `BulkResults.ConcernsCounted` | src/bulk/common.ts:578-580 | each write concern error of a counted response is in the result once |
| `BulkResults.FirstFailureOnly` | src/bulk/common.ts:465-483 | the result is ok exactly until a batch fails as a whole |
| `BulkResults.MergeFailure` | src/bulk/common.ts:465-483 | only the first such batch leaves an error |
| `BulkResults.ErrorsNameOperations` | src/bulk/common.ts:564-576 | the write errors are the servers' in order, each with the caller's index and operation |
| `BulkResults.TopLevelIndex` | src/bulk/common.ts:465-480 | a batch that fails as a whole is reported under the right index exactly when it starts with operation 0 |
| `BulkResults.UpsertsNameOperations` | src/bulk/common.ts:531-549 | upserts of ordered bulks are in order under the caller's indexes |
| `BulkResults.UpsertIndexRight` | src/bulk/common.ts:536-541 | in any batch an upsert's index is the caller's exactly when there is no gap before it |
| `BulkResults.OrderedReports` | src/bulk/ordered.ts:15-81 | from the calls to the result: each error and upsert of an ordered bulk is about the operation at that index |
| `BulkResults.UnorderedReports` | src/bulk/unordered.ts:16-22 | an unordered bulk with plain answers sends everything, and its errors are about the operations at their indexes |
| `BulkResults.UnorderedUpsertMisplaced` | src/bulk/common.ts:536-541 | update, insert, update: the second upsert is filed under the insert |
| `Cursors.FindCursor.Advance` | src/cursor/abstract_cursor.ts:714-765 | one round of next over any replies |
| `Cursors.FindCursor.Init` | src/cursor/abstract_cursor.ts:643-693 | the first reply, and what a cursor dead at once hands out |
| `Cursors.FindCursor.GetMoreNow` | src/cursor/find_cursor.ts:96-124 | a further batch is counted and its first document handed out |
| `Cursors.FindCursor.ToArrayNow` | src/cursor/abstract_cursor.ts:421-451 | the collecting loop over any replies ends with the documents, an error or an unanswered request |
| `CursorResults.ToArrayDelivers` | src/cursor/abstract_cursor.ts:421-451 | toArray returns all documents in order, each transformed once, exactly when no batch starts with a null (nor a single dead batch with a falsy value) |
| `CursorResults.TruthyTransformDelivers` | src/cursor/abstract_cursor.ts:696-712 | a transform without falsy results delivers everything |
| `CursorResults.LiveToArray` | src/cursor/abstract_cursor.ts:714-765 | from any live cursor on, what is buffered and still to come is collected, or strictly less |
| `CursorReplies.ToArrayExactly` | src/cursor/abstract_cursor.ts:421-451 | over any replies: which reply ends toArray, that it fails exactly at an error or at no cursor in answer to a getMore, and the exact documents it is done with |
| `CursorReplies.BrokenReply` | src/cursor/abstract_cursor.ts:743-745 | an error in answer to a getMore fails and kills the cursor |
| `CursorReplies.FirstFails` | src/cursor/abstract_cursor.ts:686-689 | an error as the first reply fails and closes it |
| `CursorResults.LimitKeptExactly` | src/cursor/find_cursor.ts:96-108 | against servers that send no more than asked, however often next is called, no more documents than a positive limit are handed out, exactly when the first batch is within it and is not empty, or a whole batch fits |
| `CursorResults.NextWithinLimit` | src/cursor/abstract_cursor.ts:714-765 | every call of next keeps the count within the limit and hands out only what was counted |
| `CursorResults.LimitReachedCloses` | src/cursor/find_cursor.ts:98-108 | a request is replaced by closing exactly when a positive count has reached the limit |
| `CursorResults.AsksForWhatIsLeft` | src/cursor/find_cursor.ts:96-108 | what is asked for is a full batch or exactly what the limit leaves |
| `CursorResults.ToArrayWithinLimit` | src/cursor/find_cursor.ts:96-124 | toArray never returns more documents than the limit |
| `Shuffles.ShuffleInPlace` | src/utils.ts:1440-1449 | the loop turns the array into the arrangement its draws describe |
| `Shuffles.Shuffle` | src/utils.ts:1431-1452 | the result for every list, limit and draws, with the refusal of a limit above the number of items |
| `Shuffles.DrawsMade` | src/utils.ts:1436-1440 | there is one draw for each item returned, and one fewer when all are |
| `Shuffles.ShuffleSelects` | src/utils.ts:1431-1452 | every draw sequence gives an ordered selection of the asked size |
| `Shuffles.EverySelectionDrawn` | src/utils.ts:1431-1452 | every ordered selection of that size is given by some draws |
| `Shuffles.DrawsRecovered` | src/utils.ts:1431-1452 | and by no others: the draws can be read off the result |

## Left out

- ChangeStreamRuns.ExactlyOnce: for servers that keep sending tokens with one cursor and resumes that know their place, as listed above; the two failing cases have their exact conditions in `StaleTokenRepeats` and `ResumeKeepsPlace`.
- MessageSending.EndToEnd: for runs in which no compression fails; `ArriveAsPushed` covers the others.
- SessionResults.RetriesKeepTheirNumber: for acknowledged writes; an unacknowledged command gets no fields at all.
- BulkResults.ErrorsNameOperations: for runs in which no batch fails as a whole and the servers' indexes are within the batch; `TopLevelIndex` covers the other case.
- WithTransactions.AttemptTransaction: what the user's function does inside is an arbitrary final state; the transport of the abort is not repeated there (see `EndTransactionNow`).
- GridFS: the index check before the first write, the deletion of chunks on abort, encodings of string chunks, `abort` and `destroyed` on downloads, cursor sorting options.
- Change streams: overlapping calls of `next` and a `close` by the user during one, `tryNext`, `hasNext`, the emitter and stream modes, `fullDocument` and pipeline options, the choice of resumable errors.
- Connection pool: events, logging, socket options, cancellation tokens, `withConnection`, how long a waiter stays stranded, the timing of the minimum pool size timer.
- Sessions: pinning of servers and connections, cluster and operation times, read and write concerns of commands, snapshot reads, recovery tokens, staleness of server sessions (any set may have timed out), overlapping operations on one session.
- Bulk: operations that are arrays, `find().upsert()` builders, collations, `bypassDocumentValidation`, retryability of multi updates, raw operations.
- Framing: legacy opcodes, `Response` parsing, checksums, BSON deserialization of documents, snappy.
- Cursors: `hasNext` and `forEach`, tailable cursors and `tryNext`, streams, rewinding, sessions and pins of cursors, `next` called after exhaustion.
- Shuffle: the distribution of `Math.random`; the draws are any legal indexes.
- Sockets, TLS, authentication, server discovery and selection, the command builders, connection strings and options: input and output, foreign calls or field copying.
