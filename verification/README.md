# Verified model of the native ODBC engine

The native engine keeps state across calls that any thread may make in any order: distributed
transactions, streams fed by worker threads, asynchronous requests, results kept for a retry, and
the id tables that tie them together. This project models that state in Dafny and proves what every
run keeps. `dafny verify dfyconfig.toml` checks all of it.

| area | modules |
|---|---|
| XA identifiers and their spellings | `Xids`, `XidText` |
| XA two-phase commit | `ResourceManager`, `XaWorld`, `XaTables`, `XaSafety`, `XaTheorems`, `XaAgreement`, `XaEngines`, `XaOwnership`, `XaRecovery`, `XaLimits`, `XaFfi` |
| Oracle's OCI path | `OciXa` |
| streaming | `Streams`, `Pipeline`, `PipelineEnds`, `PipelineLocks`, `Batching`, `StreamFfi` |
| ids, tables, requests, results | `IdAllocator`, `HandleTables`, `HandleLives`, `PooledIds`, `AsyncRequests`, `PendingResults` |
| local transactions | `Transactions`, `TransactionRuns`, `TransactionLives` |
| split and index arithmetic | `BulkSplit`, `LatencyIndex`, `Rounding` |

## How it is modelled

- **Runs.** A protocol is a total step function over events and a fold over a sequence of events; a
  theorem about runs quantifies over every sequence. Events include every accident: a reply lost, a
  handle dropped, a connection gone, a process dead, a worker crashed. A thread that would block is
  an event that changes nothing.
- **Objects.** State that the engine updates in place is a class; each method is proved equal to the
  step function (`View() == F(old(View()))`) or to its whole new state, so the run theorems speak
  about the methods.
- **The database.** The resource manager follows the state tables in chapter 6 of the X/Open CAE
  Specification "Distributed Transaction Processing: The XA Specification"; identifier sizes follow
  its section 4.2. PostgreSQL is modelled by its own statements, with its lenient replies (a failed
  transaction answers COMMIT and PREPARE TRANSACTION by rolling back without an error). Each
  statement meets one of five fates: obeyed, obeyed with the reply lost, refused, rolled back by the
  resource manager, found read-only. The resource manager takes no heuristic decisions and nobody
  else decides our identifiers.
- **Locks.** Calls are atomic where the engine holds its global lock throughout. Where it lets go
  half-way the parts are separate events: the worker's flag load and outcome write, a take and its
  restore, the check, the begin and the table entry of a transaction, its removal and its driver
  calls, the lookup and the stash of a result, the start of a stream, a fetch, a pool get, a query on a
  pooled connection. The driver calls of one commit, rollback or drop are made under the connection's
  own lock and stay together. That lock, which a stream's worker holds for its whole life, and the
  global lock, which every call needs, are modelled in `PipelineLocks`.
- **Foreign code.** Driver answers, SQL results, hashes, clocks and encodings are parameters. A
  failure to detect the engine counts as a refused statement. Text is a string of characters; the
  engine's UTF-8 check is not repeated because a non-ASCII gid never decodes.

## What turned out false, and exactly when

- A drop can abort a prepared branch, exactly on the MySQL family, over a live connection, for the same
  identifier, if its rollback is not refused (`XaTheorems.DropMovesPreparedIff`). Whole runs are safe
  unless a phase-two rollback of that identifier went through a resumed handle while another handle on
  the same connection still held it idle (`XaTheorems.PreparedSurvives`, `XaLimits.StrayIff`), and after
  such a rollback, whatever the state, they need not be (`XaLimits.StrayLosesPrepared`,
  `XaLimits.DropAbortsPrepared`). PostgreSQL and Oracle need no condition.
- A prepared handle can report Committed although the branch it prepared was rolled back: only when
  that branch already had another outcome and the name was used again (`XaOwnership.DecisionOwnIff`,
  `XaLimits.SecondLife`).
- On Oracle a rollback between end and prepare always fails, an active rollback or drop works only if
  the first end was refused, and a commit of an unknown branch counts as done (`XaLimits`).
- On PostgreSQL a one-phase commit of a failed transaction is reported as done although it was rolled
  back (`XaAgreement.FailedCommitIff`), and a prepare that rolled the work back passes for prepared; on
  Oracle one that found it read-only does (`XaEngines.PrepareOutcome`).
- A failed XA start leaves autocommit off whenever switching it off worked
  (`XaLimits.FailedStartAutocommit`).
- A poll turns a worker crash into plain Done, a fetch reports it, and whichever comes first decides for
  good (`PipelineEnds.CrashReported`); a failure whose text contains "cancelled" ends a stream as if it
  were complete; a poll ignores the chunk stashed for the caller; polled Ready promises nothing for a
  batched stream between batches (`StreamFfi.ReadyIff`). The documentation of the stream poll says none
  of this; the model follows the code.
- A late worker write replaces Cancelled and Consumed exactly when the flag was loaded before the
  cancel (`AsyncRequests.CancelBeforeLoad`, `AsyncRequests.CancelAfterLoad`).
- From every state, a call that starts to execute on a pending-result key that is already executing can
  lose a result, and only then (`PendingResults.OverlapOverwrites`,
  `PendingResults.SequentialNeverOverwrites`).
- A transaction or a branch can be open on a connection with autocommit on, exactly after a begin's check
  that fell within another begin's, commit's or rollback's unlocked stretch there or met a live XA
  branch, or after an XA start that met an open transaction, a begin under way or another live branch:
  neither `odbc_xa_start` nor a begin looks at the other's tables
  (`TransactionRuns.AutocommitFollowsTransaction`, `TransactionRuns.ApartIsNeeded`); the runs are
  `TransactionRuns.LateCommit` and `TransactionRuns.BranchOverTransaction`.
- A stream does deadlock: its worker keeps the connection locked until the stream is drained, so a call
  that takes the global lock and then waits for that connection, such as a disconnect with a
  transaction to roll back or `odbc_xa_start`, never returns, and neither does any fetch. It hangs
  exactly while the worker has more to send than the channel and a fetch under way can take
  (`PipelineLocks.DrainsIff`, `PipelineLocks.DisconnectHangs`).
- Table entries can name dead connections or pools, and a connection can have two transactions, exactly
  when a connection or pool goes while a call or a fetch on it has let the lock go, a begin asks while
  another is under way, or a stream id is given out while its stream is being fetched from
  (`HandleTables.IntegrityFromStart`, `HandleTables.DisturbanceBreaks`).
- Pooled ids can be handed out twice once their counter has wrapped, exactly when an id must be minted
  that is already somewhere, and pooled and plain ids can meet after a million connects; both have a
  run from the start (`PooledIds`).
- A failed `odbc_xa_end` discards the branch and its id; the comment above it
  (native/odbc_engine/src/ffi/mod.rs:1549-1554) says the id keeps its slot. The model follows the code.
- Dropping a prepared OCI branch rolls it back (`OciXa.DropRollsBackPrepared`).

## Model

| member | source | states |
|---|---|---|
| Xids.NewXid | native/odbc_engine/src/engine/xa_transaction.rs:104-129 | an identifier is refused exactly when its global part is empty or over 64 bytes or its branch part is over 64 bytes; what is made is valid |
| Xids.HexEncode | native/odbc_engine/src/engine/xa_transaction.rs:230-249 | the loop prints what the recursive definition of hexadecimal says, in either case |
| Xids.HexDecode | native/odbc_engine/src/engine/xa_transaction.rs:251-273 | the loop agrees with the recursive decoder, refusals of odd lengths and foreign characters included |
| Xids.HexRoundTrip | native/odbc_engine/src/engine/xa_transaction.rs:230-273 | decoding what was encoded, in either case, gives the bytes back |
| Xids.HexCanonical | native/odbc_engine/src/engine/xa_transaction.rs:230-273 | a string that decodes is re-encoded to itself exactly when it is lower-case hexadecimal |
| XidText.PostgresRoundTrip | native/odbc_engine/src/engine/xa_transaction.rs:148-177 | every valid identifier survives the trip through its PostgreSQL gid |
| XidText.PostgresReencodes | native/odbc_engine/src/engine/xa_transaction.rs:148-177 | a gid that decodes addresses itself again exactly when it is spelled canonically |
| XidText.ParsedIff | native/odbc_engine/src/engine/xa_transaction.rs:1312-1314 | a number is read with or without a plus sign, if and only if it fits the width it is read into |
| XidText.ForeignGidIsMisaddressed | native/odbc_engine/src/engine/xa_transaction.rs:161-177 | for every identifier with a non-negative format, the gid with a plus sign in front decodes to it, yet it addresses the gid without the sign |
| ResourceManager.NameInjective | native/odbc_engine/src/engine/xa_transaction.rs:148-227 | on every engine two different identifiers never name the same branch |
| ResourceManager.NameSpelled | native/odbc_engine/src/engine/xa_transaction.rs:179-227 | the MySQL family gets both parts in lower-case hexadecimal, Oracle in upper case, and they decode to exactly the identifier, with its format |
| ResourceManager.DeliverValid | native/odbc_engine/src/engine/xa_transaction.rs:912-1189 | whatever befalls a statement, branch serials stay one to one and recorded outcomes are never revised |
| IdAllocator.AllocateId | native/odbc_engine/src/handles/mod.rs:75-95 | the probing loop computes the bounded probe over the wrapping counter |
| IdAllocator.AllocateRequestId | native/odbc_engine/src/ffi/mod.rs:195-208 | refused exactly when 64 requests are live, otherwise a fresh non-zero id with the counter just past it |
| IdAllocator.ProbeFresh | native/odbc_engine/src/ffi/mod.rs:1450-1463 | an id handed out is never zero and never live, from any counter value |
| IdAllocator.ProbeFailsIff | native/odbc_engine/src/ffi/mod.rs:1450-1463 | a probe fails exactly when every non-zero candidate in its window, across the wrap, is live |
| IdAllocator.ProbeSucceedsBelow | native/odbc_engine/src/ffi/mod.rs:5219-5229 | pigeonhole: with fewer than attempts - 1 live ids (999 for 1000 attempts) a probe succeeds from any counter value |
| IdAllocator.ProbeBoundIsSharp | native/odbc_engine/src/ffi/mod.rs:438 | that bound is the best one: attempts - 1 live ids can defeat the probe |
| XaTables.Classify | native/odbc_engine/src/ffi/mod.rs:1478-1691 | every step of a run is one of six table moves, and a handle ends as committed or rolled back only in a call that asks for it |
| XaTables.TablesRun | native/odbc_engine/src/engine/xa_transaction.rs:421-681 | in every run each table holds its own stage, handle numbers are unique, and each started branch has made exactly one attempt to restore autocommit once it leaves Active and Idle, none before |
| XaTables.ForwardRun | native/odbc_engine/src/ffi/mod.rs:1450-1691 | in every run an id keeps its xid and connection while it moves strictly forward, no handle comes back, and an ending is never revised |
| XaSafety.CallFrame | native/odbc_engine/src/engine/xa_transaction.rs:912-1189 | an action touches only the branch its handle names |
| XaSafety.CallKeepsPrepared | native/odbc_engine/src/engine/xa_transaction.rs:912-1189 | only phase-two statements, and on MySQL a rollback by name, can move a prepared branch |
| XaSafety.InStepDecide | native/odbc_engine/src/engine/xa_transaction.rs:684-762 | a phase-two call keeps handles and branches in step unless it is stray |
| XaSafety.InvRun | native/odbc_engine/src/engine/xa_transaction.rs:337-830 | in every run, with no condition, tables, resource-manager books and connection numbers stay in order |
| XaSafety.InStepRun | native/odbc_engine/src/engine/xa_transaction.rs:337-830 | in every run without a stray rollback of an identifier, its unprepared handles and its branch stay at the same stage |
| XaTheorems.PreparedSurvivesStep | native/odbc_engine/src/engine/xa_transaction.rs:558-589 | no single call, drop, lost connection or crash moves a prepared branch unless it is a phase-two call naming it; only on the MySQL family must the identifier's own handles be in step |
| XaTheorems.PreparedSurvives | native/odbc_engine/src/engine/xa_transaction.rs:558-762 | in every run, with lost replies, drops, lost connections and crashes anywhere, a prepared branch stays the very same prepared branch until a phase-two call names it; on the MySQL family, if no rollback of that identifier was stray |
| XaTheorems.PreparedSurvivesFromStart | native/odbc_engine/src/engine/xa_transaction.rs:602-762 | the same from the first call of a run on, with no condition at all for PostgreSQL and Oracle |
| XaTheorems.DropMovesPreparedIff | native/odbc_engine/src/engine/xa_transaction.rs:558-589 | dropping an unprepared handle moves a prepared branch if and only if the engine is of the MySQL family, the identifier is the same, the connection lives and the rollback is not refused |
| XaAgreement.TruthfulRun | native/odbc_engine/src/engine/xa_transaction.rs:421-505 | on every engine, in every run with lost replies, Committed means that the branch the handle's name stood for when the call began committed, RolledBack that it rolled back, and outcomes are final; but for the two lenient cases (an unknown branch in Oracle's phase two, a session without work on PostgreSQL), and unless a one-phase commit met a failed PostgreSQL transaction |
| XaAgreement.HeardSuccess | native/odbc_engine/src/engine/xa_transaction.rs:912-1189 | per statement and engine: a heard success of a one-phase commit, a rollback or a phase-two call leaves the branch it was for with exactly the outcome asked for, or changes nothing in the two lenient cases |
| XaAgreement.FailedCommitIff | native/odbc_engine/src/engine/xa_transaction.rs:437-476 | on PostgreSQL a one-phase commit that is reported as done has committed if and only if the transaction had not failed; otherwise it was rolled back |
| XaAgreement.AgreementRun | native/odbc_engine/src/engine/xa_transaction.rs:602-762 | on every engine, when no reply is lost, commits at the resource manager and handles reporting a commit of a branch correspond one to one, in every run |
| XaAgreement.AgreementFromStart | native/odbc_engine/src/engine/xa_transaction.rs:337-762 | both of these for every engine and every run from an empty state |
| XaEngines.DecidedLife | native/odbc_engine/src/engine/xa_transaction.rs:337-762 | on PostgreSQL, the MySQL family and Oracle, from every state: a branch started, ended, prepared and then committed or rolled back, every statement obeyed, ends exactly as asked, is reported so, gets autocommit back and leaves everything else as it was |
| XaEngines.ShortLife | native/odbc_engine/src/engine/xa_transaction.rs:437-505 | the same for a one-phase commit and, but for Oracle, an active rollback |
| XaEngines.PrepareOutcome | native/odbc_engine/src/engine/xa_transaction.rs:999-1046 | what becomes of a prepare under each of the five fates, on each engine: prepared under its name, rolled back, read-only or untouched, and what is reported |
| XaEngines.ModeRestored | native/odbc_engine/src/engine/xa_transaction.rs:535-556 | autocommit is switched back on exactly in the call in which a handle stops being active or idle, if its connection lives and the driver accepts; no other call on a handle touches the mode of any connection |
| XaEngines.ModeFresh | native/odbc_engine/src/engine/xa_transaction.rs:357-378 | a new connection is in autocommit, and a start takes exactly its own connection out of it |
| XaOwnership.OwnRun | native/odbc_engine/src/engine/xa_transaction.rs:421-505 | in every run without a stray rollback of the identifier, a handle that ends from Active or Idle reports the very branch it began |
| XaOwnership.OwnOutcomeFromStart | native/odbc_engine/src/engine/xa_transaction.rs:437-505 | from the first call on: such a handle's Committed means that the branch it began committed, RolledBack that it rolled back |
| XaOwnership.OwnWhileUndecided | native/odbc_engine/src/engine/xa_transaction.rs:602-649 | a prepared handle keeps its own branch as long as no phase-two call names the identifier |
| XaOwnership.DecisionOwnIff | native/odbc_engine/src/engine/xa_transaction.rs:696-762 | a reported decision is about the handle's own branch if and only if that branch had no outcome yet, given by a phase-two call or, after a stray rollback, by a drop; and true of it if and only if it had none or the same one |
| XaOwnership.PreparedReportsOwn | native/odbc_engine/src/engine/xa_transaction.rs:602-762 | from a heard prepare to a heard decision with no other phase-two call on the identifier in between, the report is true of the branch the handle began |
| XaRecovery.RecoverPreparedXids | native/odbc_engine/src/engine/xa_transaction.rs:1191-1310 | the reading loop returns, in order, exactly the identifiers its rows decode to |
| XaRecovery.RowRoundTrip | native/odbc_engine/src/engine/xa_transaction.rs:1191-1310 | the recovery row of a branch decodes to the identifier it was started with, for PostgreSQL, the MySQL family and Oracle |
| XaRecovery.PaddedNumber | native/odbc_engine/src/engine/xa_transaction.rs:1312-1314 | the numbers of a row are read through any white space around them |
| XaRecovery.RecoveryComplete | native/odbc_engine/src/engine/xa_transaction.rs:797-817 | rows of other clients neither hide nor alter an identifier of ours |
| XaRecovery.RecoveryExact | native/odbc_engine/src/engine/xa_transaction.rs:797-817 | when all rows are ours the list is exactly our identifiers, row by row |
| XaRecovery.ResumeAndCommit | native/odbc_engine/src/engine/xa_transaction.rs:819-830 | resuming a prepared branch and committing it commits that branch, reports it, and touches no other |
| XaRecovery.CrashRecovery | native/odbc_engine/src/engine/xa_transaction.rs:797-830 | after any run (on the MySQL family: without a stray rollback of the identifier) and a crash, every undecided prepared branch is in the recovered list under its own identifier, and resuming and committing that identifier commits that very branch |
| XaLimits.StrayIff | native/odbc_engine/src/engine/xa_transaction.rs:732-762 | a phase-two rollback keeps the handles for its identifier in step with the branch if and only if it is not stray: refused, sent over a dead connection, or with no idle handle for it on the same connection |
| XaLimits.StrayLosesPrepared | native/odbc_engine/src/engine/xa_transaction.rs:558-762 | the condition of the survival theorem is exact: from every state whose handles are in step, a stray rollback can be followed by calls, no phase-two call among them, after which a drop aborts a prepared branch |
| XaLimits.DropAbortsPrepared | native/odbc_engine/src/engine/xa_transaction.rs:558-589 | for every identifier, a run from an empty state with one stray rollback that ends with a drop that aborts a prepared branch |
| XaLimits.SecondLife | native/odbc_engine/src/engine/xa_transaction.rs:696-730 | for every identifier, a concrete run, every reply heard and nothing stray, in which a handle reports Committed although the branch it began and prepared was rolled back: another call decided it and the name was used again |
| XaLimits.OracleIdleRollbackFails | native/odbc_engine/src/engine/xa_transaction.rs:1108-1155 | on Oracle a rollback between end and prepare never works: it always reports failure and leaves the branch |
| XaLimits.OracleActiveRollbackIff | native/odbc_engine/src/engine/xa_transaction.rs:478-505 | on Oracle an active rollback is reported done if and only if its separate end was refused and the block's own end went through |
| XaLimits.OracleDropIff | native/odbc_engine/src/engine/xa_transaction.rs:558-589 | on Oracle a drop gets rid of the branch if and only if it is active, the first end is refused and the block's own end is not; otherwise the branch is left behind |
| XaLimits.OracleCommitIff | native/odbc_engine/src/engine/xa_transaction.rs:1048-1106 | on Oracle a heard phase-two commit is reported if and only if the branch is prepared or not known at all |
| XaLimits.OracleRollbackIff | native/odbc_engine/src/engine/xa_transaction.rs:1108-1167 | on Oracle a heard phase-two rollback is reported if and only if the branch is prepared, unknown, or ended on that very connection |
| XaLimits.FailedStartAutocommit | native/odbc_engine/src/engine/xa_transaction.rs:357-378 | a start that makes no handle leaves autocommit off if and only if switching it off had worked |
| XaFfi.XaLayer.constructor | native/odbc_engine/src/ffi/mod.rs:530-570 | the three tables start empty |
| XaFfi.XaLayer.AllocId | native/odbc_engine/src/ffi/mod.rs:1450-1463 | an id free in all three tables |
| XaFfi.XaLayer.XaStart | native/odbc_engine/src/ffi/mod.rs:1478-1548 | the call in three tables is the model's start; zero means no handle |
| XaFfi.XaLayer.XaEnd | native/odbc_engine/src/ffi/mod.rs:1556-1575 | the call in three tables is the model's end; 0 exactly when the id moved to the preparing table |
| XaFfi.XaLayer.XaPrepare | native/odbc_engine/src/ffi/mod.rs:1581-1602 | the call in three tables is the model's prepare; 0 exactly when the id moved to the prepared table |
| XaFfi.XaLayer.XaCommitPrepared | native/odbc_engine/src/ffi/mod.rs:1608-1625 | the model's phase-two commit; 0 exactly when Committed is reported |
| XaFfi.XaLayer.XaRollbackPrepared | native/odbc_engine/src/ffi/mod.rs:1629-1646 | the model's phase-two rollback; 0 exactly when RolledBack is reported |
| XaFfi.XaLayer.XaCommitOnePhase | native/odbc_engine/src/ffi/mod.rs:1652-1670 | the model's one-phase commit; 0 exactly when Committed is reported |
| XaFfi.XaLayer.XaRollbackActive | native/odbc_engine/src/ffi/mod.rs:1674-1691 | the model's active rollback; 0 exactly when RolledBack is reported |
| XaFfi.XaLayer.RollbackPreparing | native/odbc_engine/src/engine/xa_transaction.rs:653-681 | rollback between end and prepare; 0 exactly when RolledBack is reported |
| XaFfi.XaLayer.XaResumePrepared | native/odbc_engine/src/ffi/mod.rs:1820-1885 | a new handle straight in the prepared table |
| XaFfi.XaLayer.DropTransaction | native/odbc_engine/src/engine/xa_transaction.rs:558-589 | dropping an unprepared handle is the model's discard: end, rollback, one restore attempt, errors ignored |
| Streams.StreamingState.FetchNextChunk | native/odbc_engine/src/engine/streaming.rs:782-838 | one blocking fetch, every branch, against the fetch function on consumer and channel |
| Streams.StreamingState.PollStatus | native/odbc_engine/src/engine/streaming.rs:913-929 | one poll: a non-blocking pull and the status that follows; what each status is worth is `PollTells` and `PollFinds` |
| Streams.StreamingState.PullNextMessage | native/odbc_engine/src/engine/streaming.rs:878-906 | at most one message is taken, and only when nothing is left to hand out |
| Streams.FetchConserves | native/odbc_engine/src/engine/streaming.rs:782-838 | the chunk, then what stays in consumer and queue, is what was there before; a chunk is as long as the chunk size unless it ends its batch |
| Streams.PollConserves | native/odbc_engine/src/engine/streaming.rs:878-906 | a poll loses and moves no byte |
| Streams.ReadyMeansBytes | native/odbc_engine/src/engine/streaming.rs:913-929 | polled Ready means the next fetch yields a non-empty chunk without receiving |
| Streams.PollTells | native/odbc_engine/src/engine/streaming.rs:782-929 | each status if and only if: Ready when the next fetch yields bytes without touching the channel, Error when it answers the stream's error, Done or Cancelled when it answers the end, Pending when it would wait or come upon a crash |
| Streams.PollFinds | native/odbc_engine/src/engine/streaming.rs:878-929 | each status if and only if, by what was in the stream: Pending exactly when there is neither a byte nor an end in it, Ready exactly when part of a batch is left or a batch with bytes is queued |
| Streams.FetchFinds | native/odbc_engine/src/engine/streaming.rs:782-838 | each answer of a fetch if and only if, by what it finds: the error, the end, a crash exactly when it needs a message and none will come, bytes otherwise; and what ends a stream ends it for good |
| Pipeline.Conservation | native/odbc_engine/src/engine/streaming.rs:782-986 | in every interleaving of worker, fetches, polls and cancel: accepted bytes, stashed chunk, unread tail and queued batch, in that order, are exactly the batches sent, a prefix of the result |
| PipelineEnds.EndOfData | native/odbc_engine/src/ffi/mod.rs:5270-5418 | once the caller is told there is no more it has every batch sent; that is the whole result unless the stream was cancelled, or the worker crashed and a poll answered Done, and it is complete exactly when the unsent batches are empty |
| PipelineEnds.CrashReported | native/odbc_engine/src/engine/streaming.rs:878-986 | in every run a crash the caller has come upon is an error if and only if no poll has answered Done, and every later fetch says the same |
| PipelineEnds.CleanEnd | native/odbc_engine/src/ffi/mod.rs:5270-5418 | a loop of fetches with any buffer sizes that ends, uncancelled, has exactly all bytes |
| PipelineEnds.NoResult | native/odbc_engine/src/engine/streaming.rs:222-262 | a statement without a result ends cleanly at once, even if a cancel was asked for |
| PipelineEnds.HiddenCrash | native/odbc_engine/src/engine/streaming.rs:902-904 | for every stream: a crash met by a poll ends as plain Done with nothing delivered |
| PipelineEnds.CrashFetched | native/odbc_engine/src/engine/streaming.rs:810-818 | for every stream: a crash met by a fetch is an error, and stays one |
| PipelineEnds.MislabelledFailure | native/odbc_engine/src/engine/streaming.rs:354-366 | for every stream: a driver failure whose text speaks of cancelling ends as a clean end of data although nobody cancelled |
| PipelineEnds.PolledEnd | native/odbc_engine/src/engine/streaming.rs:913-929 | polled Done or Cancelled leaves no byte in consumer or queue; the caller then has everything exactly when no chunk is stashed |
| PipelineEnds.DoneOverStash | native/odbc_engine/src/ffi/mod.rs:5235-5259 | the poll ignores the stash: Done can be polled while the whole result is stashed |
| PipelineEnds.ReadyThenFetch | native/odbc_engine/src/engine/streaming.rs:913-986 | in every reachable state, polled Ready is kept by the next fetch |
| PipelineEnds.PollAnswers | native/odbc_engine/src/engine/streaming.rs:878-986 | in every reachable state, both directions for each status: Ready, Error, Done or Cancelled, and Pending against what the next fetch would answer; and Pending means that the worker has sent no byte the caller was not given, and no end |
| PipelineEnds.FullChunks | native/odbc_engine/src/engine/streaming.rs:782-838 | in every reachable state a chunk has the size asked for, at least one, unless it ends its batch |
| StreamFfi.ReadyIff | native/odbc_engine/src/ffi/mod.rs:95-120 | over the three kinds of stream: polled Ready means bytes at once for buffered and asynchronous streams, for batched ones if and only if part of a batch is left; exactly when the fetch would wait |
| StreamFfi.FullChunk | native/odbc_engine/src/ffi/mod.rs:95-120 | a chunk of any kind of stream has the chunk size unless less than that is left |
| StreamFfi.PlainPoll | native/odbc_engine/src/ffi/mod.rs:95-120 | a buffered stream is polled Ready if and only if the next fetch yields bytes and Done if and only if it answers the end; a batched one Done if and only if it has come to its end |
| StreamFfi.KindKept | native/odbc_engine/src/ffi/mod.rs:60-120 | fetches and polls keep the kind of a stream |
| PipelineEnds.CancelBound | native/odbc_engine/src/engine/streaming.rs:262-302 | after a cancel at most one more batch enters the channel, only if the worker was past its check, and what is delivered is a prefix ending at a batch boundary |
| PipelineEnds.ProgressBound | native/odbc_engine/src/ffi/mod.rs:5270-5418 | under every schedule the number of productive steps is bounded by a distance that no step increases |
| PipelineEnds.Next | native/odbc_engine/src/engine/streaming.rs:333-367 | among this stream's worker, fetches and polls alone, with no other call holding a lock, some productive step is possible until the stream is drained |
| PipelineEnds.Drains | native/odbc_engine/src/ffi/mod.rs:5270-5418 | among these alone, from every reachable state the stream can be drained within that distance |
| PipelineLocks.PipeOfAll | native/odbc_engine/src/engine/streaming.rs:300-367 | under the connection's lock and the global lock too, a stream goes through runs of the pipeline only, so conservation, endings and bounds hold there |
| PipelineLocks.DrainsIff | native/odbc_engine/src/ffi/mod.rs:5286-5351 | in every state that the locks allow, a stream can be drained without a failure, crash or cancel if and only if it is not hung: no call holds the global lock and waits for the connection while the worker has more to send than the channel and a fetch under way can take |
| PipelineLocks.DrainsUnlessHung | native/odbc_engine/src/ffi/mod.rs:5286-5351 | unless hung, it is drained within a bound when the calls that hold locks go on and worker and caller take turns |
| PipelineLocks.HungForever | native/odbc_engine/src/ffi/mod.rs:1033-1067 | once hung, whatever is scheduled, the call never gets the connection and the stream is never drained |
| PipelineLocks.DisconnectHangs | native/odbc_engine/src/ffi/mod.rs:1033-1067 | for every stream with a batch to send and every schedule: a call of a single thread that takes the global lock and waits for the connection of a started stream, as a disconnect that rolls back first does, hangs for good |
| PipelineLocks.StartsAlone | native/odbc_engine/src/engine/streaming.rs:407-413 | once another call or stream has the connection, the worker sends nothing until it is let go |
| PipelineLocks.FetchInSteps | native/odbc_engine/src/ffi/mod.rs:5286-5351 | a fetch in its three steps is the pipeline's fetch: the global lock is free while it waits, and the stream cannot be found until the fetch has the lock again |
| PipelineLocks.KeptOut | native/odbc_engine/src/ffi/mod.rs:5286-5351 | while a call has the global lock no fetch begins or lands and no other call comes in; while a fetch is under way its stream is neither fetched from, polled nor cancelled |
| PipelineLocks.CallInside | native/odbc_engine/src/ffi/mod.rs:1033-1067 | a call that has waited for the connection gets it once it is free, keeps the worker from starting and everyone else out, and gives both locks back |
| PipelineLocks.StartsFree | native/odbc_engine/src/engine/streaming.rs:300-367 | a new stream starts with both locks free and nothing sent |
| PipelineEnds.MaximalRunDeliversAll | native/odbc_engine/src/engine/streaming.rs:333-367 | every run without cancel, failure or crash that goes on until nothing productive is left has delivered exactly the result |
| Batching.ExecuteStreamingBatched | native/odbc_engine/src/engine/streaming.rs:222-302 | the nested loops send a prefix of the batches; completed means all of them, and each other ending has its cause (flag read, cursor error, receiver gone) at exactly that batch |
| Batching.LoopIsWorkerRun | native/odbc_engine/src/engine/streaming.rs:222-367 | whatever prefix of the batches the loop hands on is what the pipeline's worker sends in a run of checks and sends, the next check then seeing the flag or the end of the rows |
| Batching.ReadBatch | native/odbc_engine/src/engine/streaming.rs:273-287 | the inner loop reads a full batch or all that is left, and loses the partial batch on a cursor error |
| Batching.CutJoins | native/odbc_engine/src/engine/streaming.rs:222-302 | the batches concatenate to all rows |
| Batching.CutShape | native/odbc_engine/src/engine/streaming.rs:222-302 | there are max(1, ceil(n / fetch)) batches, all but the last full, none empty unless the result is |
| Batching.BatchesAsAsked | native/odbc_engine/src/engine/streaming.rs:222-302 | what the loop sends, in terms of the fetch size itself: every batch but the last has that many rows, or one if zero was asked for, and all of them together are the rows |
| Batching.RowsDelivered | native/odbc_engine/src/engine/streaming.rs:222-367 | from cursor to caller: decoding what a cleanly ended stream delivered gives the cursor's rows, whatever the sizes and the interleaving |
| StreamFfi.StreamTable.StreamFetch | native/odbc_engine/src/ffi/mod.rs:5270-5418 | a fetch that need not wait, by id: stash first, otherwise the stream; code, bytes and has_more, and no other stream's entry moves |
| StreamFfi.StreamTable.BeginFetch | native/odbc_engine/src/ffi/mod.rs:5286-5349 | the locked first half: a kept chunk is answered, an unknown id refused, otherwise the stream leaves the table |
| StreamFfi.StreamTable.EndFetch | native/odbc_engine/src/ffi/mod.rs:5351-5418 | the second half: the stream goes back, its chunk to the caller or aside |
| StreamFfi.Codes | native/odbc_engine/src/ffi/mod.rs:5286-5418 | 0 if and only if the fetch has an answer, handed over whole; -2 if and only if the buffer is too small; -1 otherwise |
| StreamFfi.StreamTable.StreamPoll | native/odbc_engine/src/ffi/mod.rs:5235-5259 | by kind of stream; refused while a fetch has the stream out |
| StreamFfi.StreamTable.StreamClose | native/odbc_engine/src/ffi/mod.rs:5448-5463 | all three entries of a stream go together; refused, changing nothing, while a fetch has the stream out |
| StreamFfi.FetchIsPipelineFetch | native/odbc_engine/src/ffi/mod.rs:5342-5418 | the fetch by id is the fetch of the interleaving model |
| StreamFfi.BufferedFetches | native/odbc_engine/src/engine/streaming.rs:1039-1097 | buffered and spilled results: any sequence of buffer sizes loses, repeats and reorders nothing, and no-more means all of it |
| StreamFfi.LargeBuffersFinish | native/odbc_engine/src/ffi/mod.rs:5270-5418 | with buffers of at least a chunk, as many fetches as bytes left end with exactly all bytes |
| AsyncRequests.DeliveredOnce | native/odbc_engine/src/ffi/mod.rs:210-312 | under every interleaving of worker steps, cancels, takes and restores a payload is returned with status 0 at most once, is the worker's result, and until then is still there to be taken |
| AsyncRequests.CancelBeforeLoad | native/odbc_engine/src/ffi/mod.rs:251-267 | a cancel before the worker's flag load means no payload is ever returned |
| AsyncRequests.CancelAfterLoad | native/odbc_engine/src/ffi/mod.rs:224-235 | a cancel after the load loses: the late write replaces Cancelled or Consumed and the next take yields the payload |
| AsyncRequests.CancelSeen | native/odbc_engine/src/ffi/mod.rs:251-267 | a cancel raises the flag at once, and the next poll or fetch of a request that was pending answers the cancel, of any other what it would have |
| AsyncRequests.TooSmallChangesNothing | native/odbc_engine/src/ffi/mod.rs:3027-3069 | take and restore for too small a buffer leave the whole state as it was |
| AsyncRequests.RetryDelivers | native/odbc_engine/src/ffi/mod.rs:3027-3069 | after any number of too-small attempts a sufficient buffer gets exactly the worker's bytes |
| AsyncRequests.StartMakes | native/odbc_engine/src/ffi/mod.rs:210-243 | a start makes one pending, uncancelled request under a fresh non-zero id, if and only if a thread could be had and fewer than 64 are live |
| AsyncRequests.WorkerLife | native/odbc_engine/src/ffi/mod.rs:220-235 | a worker that computes, loads the flag and writes leaves its result in the slot, or the cancel if it saw one |
| AsyncRequests.FetchAnswers | native/odbc_engine/src/ffi/mod.rs:3027-3069 | a fetch by its code: 0 if and only if a payload fits, and then it is handed over and the next fetch finds it consumed; -2 if and only if it does not fit, and then nothing changes |
| AsyncRequests.FreeExact | native/odbc_engine/src/ffi/mod.rs:314-335 | freeing a request or a connection takes away exactly those ids |
| AsyncRequests.IdsRun | native/odbc_engine/src/ffi/mod.rs:195-241 | in every run at most 64 requests are live, each under its own non-zero id |
| AsyncRequests.AsyncRequestSlot.PollStatus | native/odbc_engine/src/ffi/mod.rs:168-180 | 1 if and only if a fetch with any buffer would deliver or say too small, 0 if and only if it would change nothing, negative if and only if it would answer an error, -2 if and only if that of a cancel |
| AsyncRequests.AsyncRequestManager.Cancel | native/odbc_engine/src/ffi/mod.rs:251-267 | the object does what the cancel of the run model does: only the named slot changes, and only a pending one is marked cancelled |
| AsyncRequests.AsyncRequestManager.TakeResult | native/odbc_engine/src/ffi/mod.rs:269-301 | every outcome's answer and new state; a pending slot is left alone |
| AsyncRequests.AsyncRequestManager.GetResult | native/odbc_engine/src/ffi/mod.rs:3027-3069 | the object does what a take and its settling do in the run model; 0 exactly when a payload is delivered, -2 when it does not fit, -1 otherwise: the code the poll promises |
| AsyncRequests.AsyncRequestManager.AllocateRequest | native/odbc_engine/src/ffi/mod.rs:195-208 | refused exactly at 64 live requests, otherwise the id and counter of the bounded probe |
| AsyncRequests.AsyncRequestManager.StartRequest | native/odbc_engine/src/ffi/mod.rs:210-243 | the start of the run model: a new pending slot under a fresh id, exactly when a thread could be had and fewer than 64 requests are live |
| AsyncRequests.AsyncRequestManager.FreeForConnection | native/odbc_engine/src/ffi/mod.rs:326-335 | the loop frees exactly the connection's requests, as in the run model |
| AsyncRequests.AsyncRequestManager.FreeRequest | native/odbc_engine/src/ffi/mod.rs:314-324 | the entry goes, known or not, as in the run model; the slot stays with its worker |
| PendingResults.ConservationFromStart | native/odbc_engine/src/ffi/mod.rs:453-522 | in every run, calls overlapping or not, for every key and result: executions that produced it equal deliveries, expiries, purges and overwrites of it, plus one if it is kept |
| PendingResults.SequentialNeverOverwrites | native/odbc_engine/src/ffi/mod.rs:2784-2958 | if no call starts on a key that is executing, nothing is ever overwritten |
| PendingResults.OverlapOverwrites | native/odbc_engine/src/ffi/mod.rs:2881-2919 | that condition is needed: from every state, a call that starts to execute on a key that is executing can be followed by two large results of which the first is overwritten |
| PendingResults.RestingRun | native/odbc_engine/src/ffi/mod.rs:453-512 | too-small retries in time, other calls and other purges leave a kept result as it is, and the query is not executed again |
| PendingResults.RetryAnswersKept | native/odbc_engine/src/ffi/mod.rs:453-512 | a retry in time then answers exactly the kept bytes without executing |
| PendingResults.FirstCall | native/odbc_engine/src/ffi/mod.rs:2784-2958 | a call that finds nothing kept executes: a result that fits is handed over and not kept, a larger one is kept as of now |
| PendingResults.FreshAnswer | native/odbc_engine/src/ffi/mod.rs:462-471 | in every run, bytes handed over from the stash came from an execution of that very key that had ended at most two seconds before |
| PendingResults.LateRetry | native/odbc_engine/src/ffi/mod.rs:462-471 | a retry after two seconds gets no bytes, leaves one note of expiry and nothing kept, and the next call on the key executes |
| PendingResults.PurgeExact | native/odbc_engine/src/ffi/mod.rs:1069-1076 | closing a statement, clearing all or disconnecting drops exactly their results |
| PendingResults.KeyClash | native/odbc_engine/src/ffi/mod.rs:397-418 | barring hash collisions two calls share a key exactly when they are the same, or the single- and multi-result forms of one parameterised query |
| PendingResults.ParamsInKey | native/odbc_engine/src/ffi/mod.rs:397-418 | parameters enter a key by their hash, and as zero when there are none |
| PendingResults.ResultStash.TryWritePending | native/odbc_engine/src/ffi/mod.rs:453-512 | miss, expired, too small or answered, and what the map becomes in each case; what may be answered is `FreshAnswer` and `LateRetry` |
| Transactions.Begin | native/odbc_engine/src/engine/transaction.rs:348-404 | settings, then autocommit off; a failure on the way leaves no transaction and its own error |
| Transactions.Transaction.CommitAndDrop | native/odbc_engine/src/engine/transaction.rs:664-704 | commit then one restore, whatever the driver says; nothing at all once the connection is gone or the state settled |
| Transactions.Transaction.RollbackAndDrop | native/odbc_engine/src/engine/transaction.rs:711-744 | rollback then one restore, whatever the driver says; nothing at all once the connection is gone or the state settled |
| Transactions.Transaction.CommitBody | native/odbc_engine/src/engine/transaction.rs:664-709 | the driver calls, new state and answer of the commit itself, before the drop |
| Transactions.Transaction.RollbackBody | native/odbc_engine/src/engine/transaction.rs:711-744 | the driver calls, new state and answer of the rollback itself, before the drop |
| Transactions.Transaction.Drop | native/odbc_engine/src/engine/transaction.rs:1037-1094 | an active value is rolled back and autocommit restored, once, if the connection is registered |
| Transactions.ExecuteWithLockTimeout | native/odbc_engine/src/engine/transaction.rs:806-840 | the whole driver trace of the closure form; a closure's error is returned unchanged even if the rollback fails |
| TransactionRuns.DriverSeesOneCompletion | native/odbc_engine/src/engine/transaction.rs:664-744 | in every run, built from the calls of the transaction methods and their drop, the driver sees of each transaction: off, work, at most one commit or rollback directly followed by exactly one restore; made by the time the value is gone, if the connection is still registered; committed exactly when the driver accepted the commit |
| TransactionRuns.DisconnectFromStart | native/odbc_engine/src/ffi/mod.rs:1033-1049 | a transaction in the table when a disconnect begins is rolled back and its mode restored before the connection goes |
| TransactionRuns.AutocommitFollowsTransaction | native/odbc_engine/src/ffi/mod.rs:1172-1320 | for local transactions and XA branches together: while no begin's check on a connection falls within another call's unlocked stretch there (check to begin, begin to table entry, removal to driver calls) or meets a live branch, and no branch starts over a transaction, a begin under way or another branch, the connection has at most one of them and is out of autocommit exactly while it has one, but for refused restores and failed XA starts; disconnects included |
| TransactionRuns.AutocommitFromStart | native/odbc_engine/src/ffi/mod.rs:1172-1320 | the same for every run from an empty state, as long as the connection is registered |
| TransactionRuns.ApartIsNeeded | native/odbc_engine/src/ffi/mod.rs:1208-1219 | that condition is exact: in every reachable state, an accepted check or XA start without it can be followed by calls that leave a transaction or branch open with autocommit on |
| TransactionRuns.LateCommit | native/odbc_engine/src/ffi/mod.rs:1275-1278 | a concrete run with no two begins overlapping: a commit taken out of the table, then a begin, then the commit's driver calls |
| TransactionRuns.BranchOverTransaction | native/odbc_engine/src/ffi/mod.rs:1478-1548 | a concrete run with every begin apart: an XA branch started and prepared while a transaction is open leaves that transaction open with autocommit on |
| TransactionLives.WholeLife | native/odbc_engine/src/engine/transaction.rs:348-744 | from every state in which a begin is allowed: begin, a statement, and a commit or rollback with whatever answer leave exactly these driver calls in this order, and nothing else changed |
| TransactionLives.BeginSeen | native/odbc_engine/src/engine/transaction.rs:348-404 | what a begin asks of the driver for each pair of answers, and that there is a transaction if and only if both were accepted over a registered connection |
| TransactionLives.OnlyRegistered | native/odbc_engine/src/engine/transaction.rs:664-744 | in every reachable state the driver is spoken to only over registered connections |
| TransactionLives.StatementSeen | native/odbc_engine/src/ffi/mod.rs:1172-1320 | a statement reaches the driver if and only if its transaction is begun, not taken out, and its connection registered |
| TransactionLives.BranchSeen | native/odbc_engine/src/engine/xa_transaction.rs:357-378 | an XA start that the driver does not let out of autocommit leaves only that call behind; a restore over a connection that is gone not even that |
| TransactionLives.LockedOut | native/odbc_engine/src/ffi/mod.rs:1033-1105 | while a disconnect holds the global lock, every call that needs it waits |
| TransactionLives.DisconnectEnds | native/odbc_engine/src/ffi/mod.rs:1033-1049 | a disconnect under way can always be carried through: every transaction of the connection in the table is rolled back and the connection is no longer registered |
| TransactionLives.DisconnectStarts | native/odbc_engine/src/ffi/mod.rs:1033-1049 | in every reachable state any listed connection can start one |
| BulkSplit.SliceNullBitmap | native/odbc_engine/src/ffi/mod.rs:6065-6073 | bit by bit, across byte boundaries, the bits of the range repacked from zero, padding clear |
| BulkSplit.RangesCover | native/odbc_engine/src/ffi/mod.rs:6053-6063 | ranges are non-empty, contiguous, cover all rows, and number at most min(parallelism, rows) |
| BulkSplit.RangesEven | native/odbc_engine/src/ffi/mod.rs:6053-6063 | all ranges but the last have rows / workers rows, rounded up, and there are exactly as many as that takes |
| BulkSplit.SlicePayloadRows | native/odbc_engine/src/ffi/mod.rs:6075-6150 | refused exactly for a range outside the payload; otherwise every column's values, kind, width and null bits of that range |
| BulkSplit.Reassembles | native/odbc_engine/src/ffi/mod.rs:6075-6150 | concatenating the slices along any tiling gives back every value and null bit |
| BulkSplit.SplitPayload | native/odbc_engine/src/ffi/mod.rs:6152-6172 | the chunks the workers get: together every row of every column exactly once, in order |
| LatencyIndex.QueryMetrics.RecordQuery | native/odbc_engine/src/observability/metrics.rs:48-65 | after any records the window is the last min(count, 1000) samples, its sorted copy is a sorted permutation of it, and count, total, minimum and maximum are those of everything recorded |
| LatencyIndex.QueryMetrics.SlideWindow | native/odbc_engine/src/observability/metrics.rs:59-65 | the evicted sample leaves both copies: the sorted one always has it |
| LatencyIndex.BinarySearch | native/odbc_engine/src/observability/metrics.rs:67-80 | found exactly if present, otherwise the insertion point |
| LatencyIndex.QueryMetrics.Percentile | native/odbc_engine/src/observability/metrics.rs:89-96 | a sample v of the window of n such that more than (n - 1) * p / 100 samples are at most v and no more than that lie below it; zero when there is none |
| LatencyIndex.OrderStatisticsOrdered | native/odbc_engine/src/observability/metrics.rs:89-96 | a rank determines its value and a higher rank never has a lower one |
| LatencyIndex.PercentilesMonotone | native/odbc_engine/src/observability/metrics.rs:89-96 | percentiles of a window are unique and never decrease in p |
| LatencyIndex.RankExact | native/odbc_engine/src/observability/metrics.rs:94-95 | the rank is the whole part of p percent of the last index |
| LatencyIndex.PercentileEnds | native/odbc_engine/src/observability/metrics.rs:89-96 | the 0th percentile is exactly the minimum, the 100th exactly the maximum |
| HandleTables.IntegrityFromStart | native/odbc_engine/src/ffi/mod.rs:1024-1105 | in every run, begins, stream starts, pool gets, fetches and pooled queries split where the lock is let go: as long as none of them is disturbed in between, every statement, transaction, stream and request names a live connection, a connection has at most one transaction, stream tables agree, kept chunks belong to live streams and pooled connections to live pools |
| HandleTables.DisturbanceBreaks | native/odbc_engine/src/ffi/mod.rs:5595-5612 | that condition is exact: from every whole state, an effective step without it breaks the tables, at once or when the call in flight lands, as long as an id is left for it |
| HandleLives.DisconnectExact | native/odbc_engine/src/ffi/mod.rs:1033-1105 | a disconnect removes an entry of any table if and only if it belongs to the connection, and keeps the others as they were |
| HandleLives.ConnectThenDisconnect | native/odbc_engine/src/ffi/mod.rs:1024-1105 | a connect makes one connection under a fresh non-zero id, and disconnecting it undoes that but for the counter |
| HandleLives.PrepareThenClose | native/odbc_engine/src/ffi/mod.rs:4391-4710 | a statement is entered if and only if its connection, plain or pooled, is there; closing it undoes that |
| HandleLives.RequestThenFree | native/odbc_engine/src/ffi/mod.rs:210-324 | the same for an asynchronous request |
| HandleLives.BeginThenEnd | native/odbc_engine/src/ffi/mod.rs:1199-1250 | the same for a transaction, in flight between its check and its entry |
| HandleLives.StreamThenClose | native/odbc_engine/src/ffi/mod.rs:4967-5060 | the same for a stream |
| HandleLives.FetchThenReturn | native/odbc_engine/src/ffi/mod.rs:5286-5418 | a fetch takes the stream out unless a chunk is kept for it, and puts it back; a kept chunk is taken again |
| HandleLives.CreateThenClose | native/odbc_engine/src/ffi/mod.rs:5556-5567 | a pool is made under a fresh non-zero id, and closing it undoes that but for the counter |
| HandleLives.ReleaseThenGet | native/odbc_engine/src/ffi/mod.rs:5619-5696 | giving a pooled connection back drops exactly its statements, and its id is the next one that pool hands out |
| HandleLives.FailedGet | native/odbc_engine/src/ffi/mod.rs:5590-5665 | a get that fails, or whose pool is not there, takes no id |
| HandleLives.NoIdLeft | native/odbc_engine/src/ffi/mod.rs:5619-5652 | a get for which no id is free moves only the counter |
| HandleLives.BorrowThenReturn | native/odbc_engine/src/ffi/mod.rs:2881-2888 | a query takes its pooled connection out of the table and puts it back |
| HandleLives.CloseExact | native/odbc_engine/src/ffi/mod.rs:5897-5934 | closing a pool removes exactly its free list, its checked-out connections and their statements; an unknown pool changes nothing |
| HandleLives.ResizeExact | native/odbc_engine/src/ffi/mod.rs:5845-5890 | a resize changes nothing while a connection is checked out; a failed one loses the pool |
| PooledIds.PoolIdsFromStart | native/odbc_engine/src/ffi/mod.rs:5590-5696 | until the counter could wrap, checked-out, borrowed and free ids are duplicate-free and disjoint, in every run |
| PooledIds.GetBreaksIff | native/odbc_engine/src/ffi/mod.rs:5619-5652 | a get puts an id in two places if and only if it has to mint one that is borrowed or lies in some free list |
| PooledIds.WrappedIdTwice | native/odbc_engine/src/ffi/mod.rs:5619-5652 | a run from the start, through the wrap of the counter with a new pool in every round, in which two pools hand out the same id |
| PooledIds.IdSpacesApart | native/odbc_engine/src/ffi/mod.rs:4404-4413 | for the first million connects plain and pooled ids cannot meet, so releasing a pooled connection spares every plain statement |
| PooledIds.SharedIdLosesStatements | native/odbc_engine/src/ffi/mod.rs:5679-5681 | where the ids meet, a release drops exactly that connection's statements and the connection stays |
| PooledIds.SharedIdLosesStatement | native/odbc_engine/src/ffi/mod.rs:5679-5681 | a run from the start, a million connects on, in which giving back a pooled connection drops a plain connection's statement |
| HandleTables.GlobalState.DisconnectConnection | native/odbc_engine/src/ffi/mod.rs:1033-1105 | the loops remove exactly what belongs to the connection, from every table; 0 exactly for a known id whose connection was there to be closed |
| HandleTables.GlobalState.ClosePool | native/odbc_engine/src/ffi/mod.rs:5897-5934 | the loop drains the pool's connections with their statements and free ids, and nothing else |
| OciXa.FromXid | native/odbc_engine/src/engine/xa_oci.rs:70-90 | the two loops fill the 128-byte block with global part, branch part and zeros |
| OciXa.PackRoundTrip | native/odbc_engine/src/engine/xa_oci.rs:70-90 | packing any valid identifier and unpacking it gives the same identifier |
| OciXa.RecoverOciXids | native/odbc_engine/src/engine/xa_oci.rs:460-477 | the loop unpacks, in order, at most the counted rows and skips malformed ones |
| OciXa.RecoveryRoundTrip | native/odbc_engine/src/engine/xa_oci.rs:419-478 | a list of packed identifiers comes back whole and in order |
| OciXa.OpenCloseMatched | native/odbc_engine/src/engine/xa_oci.rs:236-413 | on every path of begin, prepare, commit, rollback, one-phase and drop each successful open has exactly one close |
| OciXa.OneDecision | native/odbc_engine/src/engine/xa_oci.rs:312-413 | over every life exactly one decision is sent, none if the branch never began: a commit for a commit, or a one-phase commit whose end succeeded, a rollback otherwise, with the code it was answered |
| OciXa.CallsInOrder | native/odbc_engine/src/engine/xa_oci.rs:236-413 | over every life: open, start, each prepare right after an end that succeeded, the decision, the close last |
| OciXa.DropRollsBackPrepared | native/odbc_engine/src/engine/xa_oci.rs:392-413 | unlike the SQL path, dropping a prepared branch rolls it back |
| OciXa.BeginOciBranch | native/odbc_engine/src/engine/xa_oci.rs:236-281 | the calls of begin: a failed start closes what was opened |
| OciXa.OciXaBranch.Prepare | native/odbc_engine/src/engine/xa_oci.rs:312-324 | end, then prepare unless end failed; ok if and only if a prepare was sent and accepted |
| OciXa.OciXaBranch.Commit | native/odbc_engine/src/engine/xa_oci.rs:327-345 | commit and close, and the drop adds nothing; ok if and only if a commit was sent and accepted |
| OciXa.OciXaBranch.Rollback | native/odbc_engine/src/engine/xa_oci.rs:348-364 | rollback and close, and the drop adds nothing; ok if and only if a rollback was sent and accepted |
| OciXa.OciXaBranch.CommitOnePhase | native/odbc_engine/src/engine/xa_oci.rs:369-390 | a failed end leaves rollback and close to the drop; otherwise commit and close; ok if and only if a commit was sent and accepted |
| OciXa.OciXaBranch.Drop | native/odbc_engine/src/engine/xa_oci.rs:392-413 | rollback and close, unless terminated |

## Left out

- SQL Server through MSDTC: Windows COM calls with no visible semantics; the model's SQL Server
  refuses every XA statement.
- Connection ids in the XA and transaction runs are never reused; `IdAllocator`, `HandleTables` and
  `PooledIds` model the wrapping counters separately.
- Purging of XA tables on disconnect: the engine does not do it, and the model does not either.
- Identifier length limits of the database engines: not in this code, so no claim that every valid
  identifier is accepted after hex doubling.
- Negative lengths in rows from the OCI library: the model skips such a row, the engine's conversion
  to an unsigned size is not modelled.
- RowsDelivered: assumes a batch encoding that says where a batch ends; the row-buffer codec itself,
  compression and the columnar codec are not modelled.
- PercentilesMonotone: ranks are computed in real arithmetic; rounding of 64-bit floats and NaN are
  not modelled.
- RecordQuery: counters and durations are unbounded; overflow of the 64-bit query count and the
  truncating average latency are not modelled.
- ConservationFromStart: time is a number given with each call; clocks are not modelled.
- EndFetch: a disconnect while a fetch waits is an event of `HandleTables`, not of this object.
- What a database makes of an XA start inside a local transaction: the runs of transactions and of XA
  branches on one connection share its autocommit mode and nothing else.
- Fairness between threads that wait for one lock: a schedule is any schedule.
- Relaxed memory ordering of the cancel flags: a store is seen by the next load.
- Multi-result streaming and its frames, savepoints, lock-timeout units, access modes and isolation
  SQL: single-function members beside the lifecycles modelled here.
- Pool internals, metadata cache, audit, tracing, metrics export, panic guards, raw pointers, mutex
  poisoning and error text: plumbing.
