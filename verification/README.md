# Payment service: a verified model

The service stores payments as event streams. A payment aggregate checks a guard, records an event and counts a
version; the repository appends the events to the store and to an outbox in one transaction; a projector keeps a read
model; a publisher sends outbox rows to Kafka; a consumer handles the messages; and an idempotency table keeps a client's
retry from creating a second payment. The project models these as protocols over one database and proves what they
keep.

| file | what it holds |
|---|---|
| `Basics.dfy`, `Storage.dfy` | optional values, outcomes, ORDER BY; the tables and the database object |
| `Payments.dfy`, `Streams.dfy` | the aggregate class; which streams commands can write; what replay gives back |
| `Projection.dfy`, `SyncProjection.dfy` | projector, runner and rebuild; the read model against the log; wallet totals |
| `Outbox.dfy`, `EventStore.dfy` | the two repositories: max + 1 with retries, the versioned append, load and save |
| `WriteSide.dfy`, `LockStep.dfy`, `Purges.dfy`, `Refunds.dfy` | any number of interleaved clients; store against outbox, without and with deletions; refund chains |
| `CommandService.dfy` | the command service: create, or load, command and save; exactly when each commits |
| `Idempotency.dfy`, `LeaseProtocol.dfy`, `ExecuteOnce.dfy`, `LostLeases.dfy`, `Executor.dfy` | the key's rows and calls; the lease protocol call by call; at most once; runs that execute a key twice; the executor and its refinement of the protocol |
| `Publisher.dfy`, `Consumer.dfy`, `Delivery.dfy`, `Pipeline.dfy` | one publisher's rounds; the consumer loop; many publishers and the consumer; the same behind the write side, from stored event to handler |
| `EventTypes.dfy`, `Codec.dfy` | event-type names; event dictionaries and JSON-safe values |

How to read it:

- Objects whose methods assign their fields are classes. Each method is proved equal to a function of the old state
  (`Append` to `AppendAll`, `ClaimOrReplay` to `FinishClaim`, `PublishEvents` to `Round`, and so on), and the lemmas are
  about that function.
- Concurrency is a state machine. `WriteSide.Run`, `LeaseProtocol.Play` and `Delivery.Play` take any sequence of steps;
  every step is one transaction, database statement, broker event or cache call, so a theorem about all sequences is one
  about all interleavings. A crash is a step, or simply the absence of further steps.
- A transaction is one step with an all-or-nothing effect; unique and check constraints are guards on steps. The lease
  table's check constraint is the one in the model class, not the weaker one of its migration.
- Identifiers are natural numbers, instants are integers in microseconds, amounts integers in units of 1/10000. Clock
  readings, fresh identifiers, broker outcomes and rival transactions are parameters, so the theorems hold for all of
  them.

Where the code and its own words differ, the model follows the code:

- The executor's docstring promises exactly-once. `ExecuteAtMostOnce` holds while no pending row outlives its lease and
  nobody deletes, unlocks or creates the key by hand. Without that, `OneKeyPaysTwice` stores two payments under one key
  by way of `SlowWorkerIsOvertaken`; `DeletedKeyIsClaimedAgain`, `UnlockedKeyIsClaimedAgain` and
  `KeyCreatedByHandIsClaimedTwice` are the other three ways. `EveryAnswerIsEarned`, `CompletedNamesStoredPayment` and
  `OneCreationPerPayment` hold whatever happens.
- The replay fast path does not compare fingerprints, so a different payload is answered with the recorded response
  (`RepeatIsReplay`, `LaterRequestsReplay`).
- The projector calls itself idempotent. Of a single event that is true exactly of creations; any other is refused the
  second time (`ReprojectionIsIdempotentIff`). A creation redelivered later puts the row back to its beginning
  (`LateCreationResets`). Replaying the whole log over its own result is idempotent (`ReplayOverwrites`). The projector
  also refuses what the aggregate allows, an event after a failure (`ProjectorAgainstAggregate`,
  `SyncedChangeCommitsIff`).
- A refund's payload names no payment method, so the executor raises after the refund is stored and records FAILED
  (`AloneItIsAllOrNothing`); no key used by refunds alone is ever COMPLETED (`RefundKeysNeverComplete`).
- The consumer's comment says a failed message is retried on the next poll. It is marked before it is handled and
  never retried while the mark lives (`MarkedIsNotCalledAgain`); the next message commits past it
  (`RaisedMessageIsPassedOver`, `RaiseLosesAMessage`), and a crash behind the mark loses the message too
  (`CrashLosesAMessage`).
- A message that cannot be queued is never marked dead, and a full batch of them blocks every row behind it
  (`UnqueueableBatchBlocks`).
- The type normaliser documents three spellings; it also accepts others, among them `__PaymentCreated`
  (`AcceptedSpellings`, `UnderscoredNamesAreAccepted`).

## Model

| member | source | states |
|---|---|---|
| `Payments.PaymentAggregate.Initialise` | src/domain/apps/payment/aggregate.py:61-64 | Construction raises exactly for amounts that are not positive, and otherwise yields a PENDING payment at version 0 with an upper-case currency and nothing uncommitted. |
| `Payments.PaymentAggregate.Create` | src/domain/apps/payment/aggregate.py:66-231 | The four factories: wallet deposits and withdrawals are refused, then amounts that are not positive; otherwise exactly one Created event is uncommitted and the version is 1. |
| `Payments.PaymentAggregate.Handle` | src/domain/apps/payment/aggregate.py:240-270 | Each event class changes exactly its own fields and updated_at; version and uncommitted events stay. |
| `Payments.PaymentAggregate.Apply` | src/domain/apps/payment/aggregate.py:234-238 | Handle, append to the uncommitted events and count one version, in one effect. |
| `Payments.PaymentAggregate.Process` | src/domain/apps/payment/aggregate.py:296-302 | Only a PENDING payment is processed; a refusal leaves the whole aggregate as it was. |
| `Payments.PaymentAggregate.Succeed` | src/domain/apps/payment/aggregate.py:304-310 | Refused after SUCCEEDED or REFUNDED (already processed) and CANCELLED (not processable), allowed from every other status, FAILED included. |
| `Payments.PaymentAggregate.Fail` | src/domain/apps/payment/aggregate.py:312-319 | Same guard as succeed, so a failed payment may fail again; the reason travels in the event. |
| `Payments.PaymentAggregate.Cancel` | src/domain/apps/payment/aggregate.py:321-327 | Only a PENDING payment is cancelled. |
| `Payments.PaymentAggregate.MarkAsRefunded` | src/domain/apps/payment/aggregate.py:329-342 | Only a SUCCEEDED payment is marked, for its whole amount and currency. |
| `Payments.PaymentAggregate.PopEvents` | src/domain/apps/payment/aggregate.py:345-349 | Returns the uncommitted events in order and leaves none. |
| `Streams.OpenWritesGenesis` | src/domain/apps/payment/aggregate.py:66-231 | Whatever a factory emits is a well-formed first event, and the new aggregate is the live state of that one event. |
| `Streams.GenesisIsOpened` | src/domain/apps/payment/aggregate.py:66-231 | Conversely every well-formed first event is the event of some creation command: the two notions coincide. |
| `Streams.DoKeepsLegal` | src/domain/apps/payment/aggregate.py:273-342 | A successful command on a state whose history is legal extends that history legally, and the state stays that of the history. |
| `Streams.EveryEventPassedItsGuard` | src/domain/apps/payment/aggregate.py:273-342 | In a legal stream every event passed its guard on exactly the events before it and is what its command emits there. |
| `Streams.CreationWrites` | src/domain/apps/payment/aggregate.py:66-231 | A created payment carries its request: the one event has the request's wallet, user, amount and method, the currency in capitals, the text of its kind, the booking, original or given reference, and the given or default description. |
| `Streams.CommandWrites` | src/domain/apps/payment/aggregate.py:296-342 | Whatever happened before, a command's event names the payment, wallet and user of the creation and carries the command's own reason or refund id; a refund's event the creation's whole amount and currency. |
| `Streams.LegalIdentity` | src/domain/apps/payment/aggregate.py:296-342 | Only the first event is a creation, and every later one carries its identifiers, a refund its amount and currency. |
| `Streams.CommandAnswers` | src/domain/apps/payment/aggregate.py:273-293 | The guards, told from history: process and cancel need a fresh payment; succeed and fail are refused as already processed once it succeeded and as not processable once it was cancelled; a refund needs the success to be the latest event. |
| `Streams.TimesAreOfEvents` | src/domain/apps/payment/aggregate.py:240-256 | created_at and updated_at are the times of the first and the last event. |
| `Streams.EveryFailureIsNoted` | src/domain/apps/payment/aggregate.py:258-263 | No failure is forgotten: a live payment's description is its creation's, followed by one note for every failure that gave a reason, in order. |
| `Streams.StreamsAreInLanguage` | src/domain/apps/payment/aggregate.py:273-342 | Every stream commands can write is Created Cancelled, or Created Processed? Failed* (Succeeded Refunded?)?, at any length. |
| `Streams.LanguageIsWritten` | src/domain/apps/payment/aggregate.py:273-342 | Every word of that language is written by successful commands, from any first event. |
| `Streams.RehydrateIsLive` | src/infrastructure/repos/payment/payment_command_repo.py:39-76 | Loading a legal stream gives the writer's state in every field but created_at and, for one-event streams, updated_at. |
| `Streams.ReplayFidelity` | src/infrastructure/repos/payment/payment_command_repo.py:28-96 | Saves and reloads inserted anywhere in a command sequence leave the aggregate, the events written and the version (persisted plus uncommitted) those of the run that never left memory. |
| `Projection.ProjectionIsPerPayment` | src/infrastructure/projectors/payment/projector.py:34-149 | Projecting a log gives, for each payment, the fold of its own sub-sequence, and fails exactly when one of those folds fails. |
| `Projection.OrderAcrossPaymentsIsIrrelevant` | src/infrastructure/apps/outbox/management/commands/rebuild_payment_projection.py:33-62 | Logs that agree payment by payment give the same read model, and one fails exactly when the other does. |
| `Projection.ReplayOverwrites` | src/infrastructure/projectors/payment/projector.py:62-79 | Replaying a complete log over any old read model fails exactly when replaying it over an empty one does, and gives the same rows exactly when every old row belongs to a logged payment. |
| `Projection.ProjectorAgainstAggregate` | src/infrastructure/projectors/payment/projector.py:62-149 | On a stream that commands wrote, the projector raises exactly when some event follows a Failed event; otherwise the row equals the aggregate in status, amount, wallet, user, currency, type, method and reference, and its description is the aggregate's or, after a failure, the reason or else Payment failed. |
| `Projection.AcceptedRowIs` | src/infrastructure/projectors/payment/projector.py:62-149 | Of any events the projector accepts, written by commands or not, the row is the creation with the status of the last event, and after a failure its reason as the description. |
| `Projection.ProjectorAnswers` | src/infrastructure/projectors/payment/projector.py:62-149 | What it accepts next depends on the kind of the latest event alone; everything else is an invariant violation, a creation without a positive amount the table's own error. |
| `Projection.RebuildOrderIsRight` | src/infrastructure/apps/outbox/management/commands/rebuild_payment_projection.py:37-62 | If creation times increase along every stream, any order the created_at query may return rebuilds what the log projects to. |
| `Projection.PaymentProjector.UpdateWhere` | src/infrastructure/projectors/payment/projector.py:81-149 | The filtered update hits the payment's row exactly when its status is among the allowed ones, and then changes status and (if given) description only. |
| `Projection.PaymentProjector.OnCreated` | src/infrastructure/projectors/payment/projector.py:62-79 | Creates the row or overwrites every field of an existing one, status back to PENDING; an amount the table refuses changes nothing. |
| `Projection.PaymentProjector.ProjectEvent` | src/infrastructure/projectors/payment/projector.py:33-53 | Dispatch to the handler of the event's type, all or nothing. |
| `Projection.PaymentProjectionRunner.Run` | src/infrastructure/projectors/payment/projector.py:164-212 | Both entry points: nothing is projected while the state row has another version; otherwise the event is projected and last_event_id set, or everything is left as it was. |
| `Projection.PaymentProjectionRunner.ApplyEvent` | src/infrastructure/projectors/payment/projector.py:192-212 | The synchronous entry point clears last_event_id. |
| `Projection.PaymentProjectionRunner.Apply` | src/infrastructure/projectors/payment/projector.py:164-190 | The stored-event entry point records the row's id. |
| `Projection.RebuildCommand.Handle` | src/infrastructure/apps/outbox/management/commands/rebuild_payment_projection.py:14-67 | Clears the read model, replays all rows in the given order, re-enables the projection with the last row's id; any failing row leaves all tables as they were. |
| `Projection.RebuildAppliesEach` | src/infrastructure/apps/outbox/management/commands/rebuild_payment_projection.py:33-62 | A rebuild succeeds exactly when the runner's apply of each stored row in turn, from an empty read model, does, with the same tables. |
| `Projection.RunnerKeepsItsPlace` | src/infrastructure/projectors/payment/projector.py:164-212 | Behind a stored row the state names that row, behind a bare event none; another projection version leaves everything alone. |
| `Outbox.OutboxRepository.Save` | src/infrastructure/repos/outbox/orm_repository.py:27-71 | The max + 1 insert against whatever other transactions commit between each read and insert; it succeeds exactly when one of the three attempts is not beaten. |
| `Outbox.NextVersionIsFree` | src/infrastructure/repos/outbox/orm_repository.py:31-37 | With nobody in between, the number computed is free; only a taken id can refuse the row. |
| `Outbox.SaveFailsIffAlwaysBeaten` | src/infrastructure/repos/outbox/orm_repository.py:28-70 | The save gives up exactly when on every attempt some rival took the id or the very number that attempt had read. |
| `Outbox.SaveAddsOneRow` | src/infrastructure/repos/outbox/orm_repository.py:49-61 | Rows already there stay in place; a successful save adds its own event, fresh, numbered above every row of its aggregate, at the end. |
| `Outbox.FailedSaveAddsNothing` | src/infrastructure/repos/outbox/orm_repository.py:62-70 | A save that gives up leaves only what the others committed. |
| `Outbox.SaveKeepsDistinct` | src/infrastructure/repos/outbox/orm_repository.py:27-71 | Ids, and versions per aggregate, stay distinct whatever rivals commit in between. |
| `Outbox.DeletionKeepsDistinct` | src/infrastructure/apps/outbox/admin.py:138-146 | Deleting old processed rows keeps the live versions of every aggregate distinct. |
| `Outbox.OutboxRepository.GetUnpublished` | src/infrastructure/repos/outbox/orm_repository.py:74-97 | The rows that are due and that no other publisher has locked, oldest first, up to the limit. |
| `Outbox.BatchIsTheOldest` | src/infrastructure/repos/outbox/orm_repository.py:74-82 | Every row of the batch is due and unlocked, in created_at order; a due row is left out only when it is locked or the batch is full of rows at least as old. |
| `Outbox.BatchIsDistinct` | src/infrastructure/repos/outbox/orm_repository.py:74-97 | A batch names each of its rows once. |
| `Outbox.OutboxRepository.MarkAsPublished` | src/infrastructure/repos/outbox/orm_repository.py:100-117 | Sets both times on a row not yet published, leaves a published one alone, and reports exactly a missing row. |
| `Outbox.OutboxRepository.MarkAsFailed` | src/infrastructure/repos/outbox/orm_repository.py:119-129 | Adds one to the retry count, keeps the message, and reports exactly a missing row. |
| `Outbox.RowTellsItsHistory` | src/infrastructure/repos/outbox/orm_repository.py:100-129 | After any updates a row shows how many failures were counted, the latest message, the time of the first good report and when it left the queue; what it carries never changes. |
| `EventStore.EventStoreRepository.AppendRow` | src/infrastructure/repos/event_store_repo.py:41-73 | One round: store row, outbox row and, with DEBUG on, the projection; each may refuse. |
| `EventStore.EventStoreRepository.Append` | src/infrastructure/repos/event_store_repo.py:25-73 | The append loop is all or nothing over store, outbox and read model, and its events take the next versions in order. |
| `EventStore.AppendShape` | src/infrastructure/repos/event_store_repo.py:41-52 | A committed append put exactly these rows, in order, numbered from the expected version, at the end of the log. |
| `EventStore.AppendAnswers` | src/infrastructure/repos/event_store_repo.py:41-73 | One round's answer: a taken row id or version is a conflict, then only a taken outbox id stops the outbox, then only the projector with DEBUG on. |
| `EventStore.StaleAppendConflicts` | src/infrastructure/repos/event_store_repo.py:53-57 | With new outbox ids and no projector a stale append is reported as the concurrency conflict, wherever in the batch it falls. |
| `EventStore.LoadAnswers` | src/infrastructure/repos/payment/payment_command_repo.py:28-76 | On any log, sound or not, the first row by version decides what loading answers: missing, no creation, unknown type or method, an amount that is not positive, in that order, or the aggregate. |
| `EventStore.LoadIgnoresStorageOrder` | src/infrastructure/repos/payment/payment_command_repo.py:28-37 | Loading follows the version numbers, in whatever order the rows are stored. |
| `EventStore.StaleAppendFails` | src/infrastructure/repos/event_store_repo.py:53-57 | A version the stream already has makes the whole append fail, wherever in a multi-event batch it falls. |
| `EventStore.QuietSave` | src/infrastructure/repos/outbox/orm_repository.py:27-71 | Inside the append's transaction, with no rivals, the retry loop succeeds with the next number unless the id is taken. |
| `EventStore.PaymentRepository.Load` | src/infrastructure/repos/payment/payment_command_repo.py:28-76 | load: a missing stream, a first event that is not a creation, unknown enum texts and bad amounts are errors in that order; otherwise the replayed aggregate with the last row's version. |
| `EventStore.PaymentRepository.Save` | src/infrastructure/repos/payment/payment_command_repo.py:77-96 | save: drains the events and appends them at the version before them; a failed append changes no table, but the drained events are gone. |
| `WriteSide.LoadIsFaithful` | src/infrastructure/repos/payment/payment_command_repo.py:28-76 | On a sound log, loading succeeds exactly for stored payments and returns the writer's fields at the last version. |
| `WriteSide.CommitExtendsHistory` | src/infrastructure/repos/event_store_repo.py:41-57 | A save that commits extends exactly the history its client built on: no other writer came in between. |
| `WriteSide.StreamsAreLinearizable` | src/infrastructure/repos/event_store_repo.py:25-68 | In every run of any number of interleaved clients, each stored stream has versions exactly 1..n and each event passed its guard on exactly the prefix stored before it. |
| `WriteSide.EveryRunIsSound` | src/infrastructure/repos/event_store_repo.py:25-68 | Every run keeps all streams legal and every client's memory built on a stored prefix. |
| `WriteSide.RowsKeepTheirPayment` | src/infrastructure/repos/event_store_repo.py:45-52 | Every stored row's event belongs to the aggregate it is stored under. |
| `WriteSide.OneCreationPerPayment` | src/infrastructure/repos/payment/payment_command_repo.py:77-97 | However many requests carry one payment id, at most one Created event is stored for it. |
| `LockStep.StoreAndOutboxAgree` | src/infrastructure/repos/event_store_repo.py:41-68 | In every run without the admin's deletions, each payment's outbox rows are its stream's events in the same order under the same version numbers; failed appends leave both unchanged. |
| `LockStep.NextNumberAfterDeletion` | src/infrastructure/apps/outbox/admin.py:138-146 | After the deletion of old processed rows, max + 1 still agrees with the stream exactly when the stream is empty or its newest outbox row stays. |
| `Purges.LiveRowsFollowTheStream` | src/infrastructure/apps/outbox/admin.py:138-146 | In every run, deletions included, each payment's live outbox rows have strictly growing versions and, in that order, are a subsequence of its stream's events in stream order. |
| `Refunds.CheckedOriginalIsStored` | src/application/payment/services/payment_command_service.py:190-207 | The original that create_refund loaded and compared is a stored creation of at least the refund's amount. |
| `Refunds.RefundCheckIs` | src/application/payment/services/payment_command_service.py:190-207 | On a sound log a refund passes exactly when its original is stored and its amount does not exceed the original's; the whole amount passes. |
| `Refunds.EveryRefundIsBacked` | src/application/payment/services/payment_command_service.py:174-232 | In every run each stored refund refers to a payment stored before it whose amount is at least its own. |
| `Refunds.ReferencesReachAPayment` | src/application/payment/services/payment_command_service.py:174-232 | Following references from any stored payment reaches one that is no refund in finitely many steps, amounts never decreasing. |
| `SyncProjection.AcceptedOrderIsTheOrder` | src/infrastructure/projectors/payment/projector.py:81-149 | The only order of one payment's rows that the projector accepts is the order they were written in. |
| `SyncProjection.RebuildIsNeverWrong` | src/infrastructure/apps/outbox/management/commands/rebuild_payment_projection.py:33-62 | Replaying a sound log in any permutation succeeds exactly when it keeps every payment's own order and the log projects; then the result is the projection of the log. |
| `SyncProjection.SynchronousProjectionAgrees` | src/infrastructure/repos/event_store_repo.py:70-73 | With DEBUG on, after every step of every run, rollbacks and rebuilds included, the read model is the projection of the whole store. |
| `SyncProjection.ReadModelShowsEveryAggregate` | src/infrastructure/repos/event_store_repo.py:70-73 | With DEBUG on no stored stream has an event after a Failed event, and the read model holds exactly the stored payments, each as its aggregate is, a failed one with its failure's reason. |
| `SyncProjection.WalletTotalsAgreeWithLog` | src/infrastructure/repos/payment/payment_query_repo.py:77-92 | With DEBUG on a wallet's total is the sum of its created amounts in the log, and the sum of its per-status totals. |
| `SyncProjection.StatusTotalsAgreeWithLog` | src/infrastructure/repos/payment/payment_query_repo.py:77-92 | With DEBUG on a wallet's total for one status is the sum over the log's creations whose payment's latest event is of that status. |
| `SyncProjection.ReprojectionIsIdempotentIff` | src/infrastructure/projectors/payment/projector.py:62-149 | Projecting an accepted event a second time changes nothing exactly when it is a creation; every other event is then refused. |
| `SyncProjection.LateCreationResets` | src/infrastructure/projectors/payment/projector.py:62-79 | A creation redelivered after a stream that projects is accepted and puts the row back to what the creation alone gives, which is what the row was exactly when the stream is that one event. |
| `CommandService.PaymentCommandService.CheckRefund` | src/application/payment/services/payment_command_service.py:190-207 | A refund's original must load and its amount must not be exceeded; whatever keeps it from loading is reported as a missing payment. The other creations have no such check. |
| `CommandService.PaymentCommandService.Create` | src/application/payment/services/payment_command_service.py:43-232 | The creation commands: method text, blank currency, refund check, factory, append; every refusal leaves all tables unchanged. |
| `CommandService.PaymentCommandService.Change` | src/application/payment/services/payment_command_service.py:238-345 | The five transitions: load, command, save; any loading error reads as a missing payment, every refusal leaves all tables unchanged. |
| `CommandService.ChangeAddsItsEvent` | src/application/payment/services/payment_command_service.py:238-345 | On a sound log a successful transition adds exactly its own event, next version, allowed by the stream's history and naming what the creation named, to its own stream and to no other. |
| `CommandService.ChangeAnswers` | src/application/payment/services/payment_command_service.py:238-345 | On a sound log with fresh keys a transition is a missing payment, the refusal its history gives, the projector's refusal with DEBUG on, or commits: each exactly in its case. |
| `CommandService.ChangeCommitsIff` | src/application/payment/services/payment_command_service.py:238-345 | On a sound log with fresh keys a transition commits exactly when its payment is stored, the command's guard holds on the stream's live state and, with DEBUG on, the projector accepts its event. |
| `CommandService.SyncedChangeCommitsIff` | src/infrastructure/repos/event_store_repo.py:41-73 | In every run with DEBUG on, a transition with fresh keys commits exactly when its payment is stored, its guard holds and the payment has not failed: what the aggregate allows after a failure is rolled back with the projector's violation. |
| `CommandService.CreationCommitsIff` | src/application/payment/services/payment_command_service.py:43-232 | On a sound log with fresh keys a creation commits exactly when its request and refund check pass, its factory accepts it and its payment id has no rows; then that stream is one first event at version 1 that carries the request, its method the text given, and all others are untouched. |
| `CommandService.CreationAnswers` | src/application/payment/services/payment_command_service.py:43-232 | On a sound log with fresh keys the first thing wrong with the request, told from its fields and the stored streams alone, is the error; if nothing is wrong it commits. |
| `CommandService.PreparedWrites` | src/application/payment/services/payment_command_service.py:43-232 | The stored method is the very text the request named; a refund's is wallet. |
| `Idempotency.IdempotencyKey.Mark` | src/domain/idempotency/models.py:116-135 | Only a pending key whose lock is absent or lapsed is marked; the lock ends a whole number of seconds after the second the call fell in. |
| `Idempotency.IdempotencyKey.Record` | src/domain/idempotency/models.py:142-156 | Only a pending key is finished; finishing stores the response and clears both lock fields. |
| `Idempotency.IdempotencyKey.ClearLock` | src/domain/idempotency/models.py:137-140 | Both lock fields are cleared. |
| `Idempotency.IdempotencyRepository.Create` | src/infrastructure/repos/idempontency/idempotence_command_repo.py:41-47 | The unique constraint admits the row exactly when there is none. |
| `Idempotency.IdempotencyRepository.SaveLock` | src/infrastructure/repos/idempontency/idempotence_command_repo.py:235-237 | The update of the two lock fields: no row, refused by the check constraint, or written; nothing else changes. |
| `Idempotency.IdempotencyRepository.ClaimOrReplay` | src/infrastructure/repos/idempontency/idempotence_command_repo.py:178-240 | Every answer of the claim, decided on the row as read, while the write meets whatever row other calls left in between. |
| `Idempotency.IdempotencyRepository.Record` | src/application/idempotency/services/idempotency_command_service.py:156-190 | record_success and record_failure: read, refuse expired or finished keys, overwrite whatever row update() finds; locked_by is never compared. |
| `Idempotency.IdempotencyRepository.Administer` | src/infrastructure/repos/idempontency/idempotence_command_repo.py:81-157 | lock, unlock and force_unlock, each a read and a later write under the check constraint: the new row, and exactly when the call succeeds. |
| `Idempotency.AcquiredLease` | src/infrastructure/repos/idempontency/idempotence_command_repo.py:196-239 | Whoever acquires holds a pending row in its own name for at most 30 seconds from the write, a first use for more than 29; it inserted a missing row, or stole the very row it had read without a live lock, changing its lock only. |
| `Idempotency.ClaimAnswers` | src/infrastructure/repos/idempontency/idempotence_command_repo.py:205-239 | Every answer of a claim as an iff over the row it read: expired, other payload, locked, replayed with its response, or stolen if that row is still there and pending; otherwise nothing is written. |
| `Idempotency.FirstUseAnswers` | src/infrastructure/repos/idempontency/idempotence_command_repo.py:186-204 | A key that was missing is acquired exactly when it still is and a day has not passed; otherwise the call raises and writes nothing. |
| `Idempotency.KeyAnswers` | src/domain/idempotency/models.py:116-156 | The key's transitions, each error for its own reason; a lock ends on a whole second within the lease. |
| `Idempotency.ReplayAnswers` | src/domain/idempotency/models.py:158-164 | The fast path replays a finished key's response until the instant it expires. |
| `Idempotency.RecordAnswers` | src/application/idempotency/services/idempotency_command_service.py:156-190 | A response is recorded exactly on a pending key that has not expired, whoever holds its lock. |
| `Idempotency.AdminAnswers` | src/infrastructure/repos/idempontency/idempotence_command_repo.py:81-157 | What lock, unlock and force_unlock write, by the row they read and the row they meet; other rows stay as they are. |
| `Idempotency.ReleaseIsInvisible` | src/infrastructure/apps/outbox/management/commands/release_stuck_idempotency_locks.py:9-14 | Releasing frees exactly the pending keys' locks that have ended, and no later claim answers differently for it. |
| `Idempotency.CleanupRevives` | src/infrastructure/repos/idempontency/idempotence_command_repo.py:170-172 | An expired key answers every claim with its expiry until the cleanup, which deletes exactly the keys expired before its cutoff; then it is acquired like a new one. |
| `LeaseProtocol.EveryRowIsOk` | src/infrastructure/apps/idempontence/models.py:75-82 | Under every interleaving of workers, administrators and crashes: a finished row has a response and no lock, a pending one no response, lock time and owner are set together. |
| `LeaseProtocol.FinishedRowsStayFinished` | src/infrastructure/repos/idempontency/idempotence_command_repo.py:49-79 | No step returns a finished row to pending: it stays finished or is deleted. |
| `LeaseProtocol.LateStealIsRefused` | src/infrastructure/repos/idempontency/idempotence_command_repo.py:234-239 | A lease-steal whose write meets a finished row is refused by the check constraint and acquires nothing. |
| `LeaseProtocol.CreateAnswers` | src/application/idempotency/services/idempotency_command_service.py:56-104 | A key created by hand is pending and unlocked; an existing key or a past expiry leaves everything as it was. |
| `LeaseProtocol.EveryRunIsDurable` | src/application/payment/handlers/payment_command_handlers.py:117-149 | Whatever success a worker is about to record, or a row holds, is of a payment already stored. |
| `LeaseProtocol.CompletedNamesStoredPayment` | src/application/payment/handlers/payment_command_handlers.py:117-149 | In every run, expired leases, crashes and double claims included, a COMPLETED key names a payment that was executed under this very key and whose legal stream is in the store. |
| `LeaseProtocol.EveryAnswerIsEarned` | src/application/payment/handlers/payment_command_handlers.py:60-166 | In every run, what a finished key holds and what any request is replayed is status and response of a worker that acquired this key, and a success names a payment executed under it. |
| `LeaseProtocol.OneCreationWhateverTheLease` | src/infrastructure/repos/payment/payment_command_repo.py:77-97 | In every run of the lease protocol, expired leases, crashes and double claims included, at most one Created event is stored for a payment id. |
| `LeaseProtocol.RefundKeysNeverComplete` | src/application/payment/handlers/payment_command_handlers.py:117-166 | Whatever the run, a key whose requests are all refunds is never COMPLETED: the refund's payload names no payment method, so the request fails behind the stored refund. |
| `ExecuteOnce.ExecuteAtMostOnce` | src/application/payment/handlers/payment_command_handlers.py:60-166 | In every run in which no pending row outlives its lease, the row is not deleted, no live lock is unlocked and the row is not created by hand: at most one worker acquires the key and at most one payment is stored under it; a finished key holds that worker's own outcome, which is honest about the store (a success names exactly that payment; a failed command or append means nothing is stored, any other failure that it is), and every replay returns it. |
| `ExecuteOnce.FinishedRowIsFixed` | src/infrastructure/repos/idempontency/idempotence_command_repo.py:49-79 | In such runs a finished row is never written again. |
| `ExecuteOnce.LaterRequestsReplay` | src/application/idempotency/services/idempotency_command_service.py:113-149 | Until it expires, a finished key answers the fast path with its response whatever the payload; a claim that read it replays to the same payload and rejects any other. |
| `ExecuteOnce.LapsedLeaseIsStolenTwice` | src/infrastructure/repos/idempontency/idempotence_command_repo.py:186-239 | The lease condition is needed: once it lapses, any two waiting workers with the payload can both acquire. |
| `LostLeases.SlowWorkerIsOvertaken` | src/infrastructure/repos/idempontency/idempotence_command_repo.py:186-240 | Exactly-once fails from the empty table: with any two requests of one payload, a claim, 31 seconds and another claim leave both workers holding the key. |
| `LostLeases.OneKeyPaysTwice` | src/application/payment/handlers/payment_command_handlers.py:60-149 | Those two workers go on to store two payments under the one key. |
| `LostLeases.DeletedKeyIsClaimedAgain` | src/infrastructure/repos/idempontency/idempotence_command_repo.py:159-168 | Deleting a key in use lets a second worker acquire it in time. |
| `LostLeases.UnlockedKeyIsClaimedAgain` | src/infrastructure/repos/idempontency/idempotence_command_repo.py:119-137 | So does unlocking it by hand. |
| `LostLeases.KeyCreatedByHandIsClaimedTwice` | src/application/idempotency/services/idempotency_command_service.py:56-104 | A key created by hand carries no lock, and two workers can acquire it at once. |
| `LostLeases.FaultedSuccessIsRecordedFailed` | src/application/payment/handlers/payment_command_handlers.py:135-166 | If recording a success raises, the failure handler records FAILED: the payment stays stored under a failed key. |
| `LostLeases.UnansweredSuccessStays` | src/application/payment/handlers/payment_command_handlers.py:135-166 | If that write lands and raises all the same, the failure handler finds the key finished, gives up, and it stays COMPLETED. |
| `ExecuteOnce.ReleaseIsIdle` | src/infrastructure/apps/outbox/management/commands/release_stuck_idempotency_locks.py:9-14 | While no lease has lapsed, releasing stuck locks changes nothing. |
| `ExecuteOnce.AdminWriteIsIdle` | src/infrastructure/repos/idempontency/idempotence_command_repo.py:81-157 | While no lease has lapsed, lock and force_unlock change nothing. |
| `Executor.IdempotentPaymentExecutor.ExecutePaymentCreation` | src/application/payment/handlers/payment_command_handlers.py:60-166 | Claim, execute, record: the answer, the reply to the caller, the tables and the key's row after one uninterrupted request. |
| `Executor.IdempotentPaymentExecutor.RecordResponse` | src/application/payment/handlers/payment_command_handlers.py:135-166 | Recording: a success that cannot be recorded falls into the failure handler, a failure that cannot be recorded is given up. |
| `Executor.IdempotentPaymentExecutor.FetchView` | src/application/payment/handlers/payment_command_handlers.py:100-115 | The replay path: a stored error is raised again; a stored payment is looked up in the read model and a missing one is an error. |
| `Executor.ReplayShowsThePayment` | src/application/payment/services/payment_query_service.py:34-45 | With DEBUG on, in every run a COMPLETED key's replay finds its payment in the read model, and the row shows the stored aggregate. |
| `Executor.AloneItIsAllOrNothing` | src/application/payment/handlers/payment_command_handlers.py:60-166 | Uninterrupted, a request either changes nothing (replayed or rejected) or records what its command did: COMPLETED exactly when the payment was stored and is no refund, FAILED otherwise. |
| `Executor.ConflictAnswers` | src/application/payment/handlers/payment_command_handlers.py:85-115 | A request that does not execute, by its key's fields: a finished unexpired key shows its payment or raises its stored error; an expired one, another payload and a live lock each raise their own exception; nothing changes. |
| `Executor.ExecutionAnswers` | src/application/payment/handlers/payment_command_handlers.py:117-166 | A request that executes, by its own fields: the caller gets the view exactly of a stored payment that is no refund, otherwise the exception of the stage it failed at, and the key records the same with status 200 or 400. |
| `Executor.RecordOutcomeIs` | src/application/payment/handlers/payment_command_handlers.py:135-166 | By itself recording succeeds exactly on a pending, unexpired key; on any other even the fallback gives up. |
| `Executor.RepeatIsReplay` | src/application/idempotency/services/idempotency_command_service.py:113-122 | The next request with the key, whatever its payload, gets the recorded response and executes nothing, until the key expires. |
| `Executor.ClaimAlone` | src/infrastructure/repos/idempontency/idempotence_command_repo.py:186-240 | By itself a claim acquires exactly a missing key, or an unexpired pending one with the same payload and no live lock; otherwise it changes nothing. |
| `Executor.ExecutionIsARun` | src/application/payment/handlers/payment_command_handlers.py:60-166 | The method is a run of the lease protocol: its database calls, one by one, take the service to the same row, the same tables and the same answer. |
| `Publisher.OutboxKafkaPublisher.DeliveryReport` | src/messaging/kafka/outbox_publisher.py:53-74 | The callback: a success marks the row published once; a failure counts one and marks the row dead when the count reaches the limit. |
| `Publisher.OutboxKafkaPublisher.Produce` | src/messaging/kafka/outbox_publisher.py:83-113 | Queueing one message: a full buffer is flushed and the message tried again; a second refusal leaves by the exception, any other failure is counted without the dead check. |
| `Publisher.OutboxKafkaPublisher.Flush` | src/messaging/kafka/outbox_publisher.py:115-117 | Every held message with a report is settled; the others are left as they were. |
| `Publisher.OutboxKafkaPublisher.PublishEvents` | src/messaging/kafka/outbox_publisher.py:76-117 | One round settles every row it reaches by that row's own outcome and touches no other row, wherever the buffer filled up; it raises exactly when some unlocked row of the batch is refused twice, and then reaches only the rows before the first such. |
| `Publisher.SettleOneMore` | src/messaging/kafka/outbox_publisher.py:95-96 | Reports on different rows commute. |
| `Publisher.RoundAnswers` | src/messaging/kafka/outbox_publisher.py:53-113 | What a round leaves of each row by what became of its message: published once with its time, counted with the message and buried at the limit, counted only, or left alone. |
| `Publisher.RoundTakesTwenty` | src/messaging/kafka/outbox_publisher.py:76-83 | A round takes at most twenty rows, the oldest that are due and unlocked, until a refusal ends it. |
| `Publisher.RoundLightens` | src/messaging/kafka/outbox_publisher.py:53-117 | Whichever rows others hold, a round never raises the sum over due rows of max(1, limit - retries), and lowers it exactly when some row it reaches progresses. |
| `Publisher.OutboxDrains` | src/messaging/kafka/outbox_publisher.py:53-117 | With a report for every message any outbox is empty after as many rounds as that sum; each row is then published or was given up after enough failures. |
| `Publisher.UnqueueableBatchBlocks` | src/messaging/kafka/outbox_publisher.py:111-113 | While no row of the batch can be queued, every later round takes the same batch, its rows are never buried, and no row behind them is touched. |
| `Consumer.KafkaDomainConsumer.IsDuplicate` | src/messaging/kafka/consumer.py:28-35 | Marked messages are duplicates; others are marked for seven days at once. |
| `Consumer.KafkaDomainConsumer.HandleNext` | src/messaging/kafka/consumer.py:76-96 | One turn of the loop: duplicates are committed unhandled, and leave the loop exactly when that commit fails; others are marked, handled, and committed unless the handler raises or the commit fails, and the loop goes on. |
| `Consumer.KafkaDomainConsumer.Start` | src/messaging/kafka/consumer.py:56-96 | The loop takes the messages in offset order, one turn each, and ends behind the last one, or by a duplicate whose commit fails, at the committed offset. |
| `Consumer.TurnsEnd` | src/messaging/kafka/consumer.py:56-96 | Whatever the handlers raise and whichever commits fail, the loop ends idle at the offset asked for, or at the committed offset by a duplicate's failed commit. |
| `Consumer.QuietTurnsHandleAll` | src/messaging/kafka/consumer.py:56-96 | When no handler raises, everything the loop has passed is handled whichever commits fail; without failing commits it reaches the end, and there the last commit makes up for all that failed before. |
| `Consumer.RaisedMessageIsPassedOver` | src/messaging/kafka/consumer.py:76-96 | A message whose handler raised is not committed by its own turn, but it is, unhandled, as soon as the next message's handler returns and its commit succeeds. |
| `Consumer.AdvanceKeepsOk` | src/messaging/kafka/consumer.py:28-35 | Every step keeps calls for one message at least a mark's lifetime apart and positions consistent. |
| `Consumer.AdvanceKeepsClean` | src/messaging/kafka/consumer.py:76-96 | Without raises and without crashes between mark and return, everything before the position is handled or in hand, and a mark means handled; failing commits do not matter. |
| `Delivery.RowsAreDeliveredDeadOrDue` | src/messaging/kafka/outbox_publisher.py:53-74 | With many publishers sharing rows: a published row is in the broker's log and processed; a processed unpublished one was refused at least as often as the limit; every other row is still in the queue. |
| `Delivery.EverySenderIsSafe` | src/infrastructure/repos/outbox/orm_repository.py:100-129 | Every run keeps: row ids distinct, retry counts backed by as many failed attempts, dead rows at or above the limit. |
| `Delivery.ItinerarySettles` | src/messaging/kafka/outbox_publisher.py:53-117 | A round's effect on one due row is what that message's separate steps do when nobody moves in between. |
| `Delivery.HandlerCallsAreApart` | src/messaging/kafka/consumer.py:28-35 | However often a row is sent and the consumer restarts, two handler calls for it are at least seven days apart; only outbox rows are ever handled. |
| `Delivery.DeliveredExactlyOnce` | src/messaging/kafka/consumer.py:28-96 | On clean runs shorter than a mark, whichever commits fail: no row is handled twice, every committed message's row exactly once, and once the log is committed so is every row marked published. |
| `Delivery.MarkedIsNotCalledAgain` | src/messaging/kafka/consumer.py:94-96 | There is no retry: after a raise, or a crash behind the mark, no handler is called for that message while the mark lives. |
| `Delivery.CrashAfterMarkingLosesTheMessage` | src/messaging/kafka/consumer.py:76-93 | The condition on clean runs is needed: after such a crash the message is skipped as a duplicate and committed unhandled. |
| `Delivery.RaiseLosesAMessage` | src/messaging/kafka/consumer.py:76-96 | From the start: two messages, the first handler raises, the second returns, and the whole log is committed with the first message unhandled. |
| `Delivery.CrashLosesAMessage` | src/messaging/kafka/consumer.py:76-93 | From the start: a message is marked, the consumer restarts, and the message is committed unhandled. |
| `Pipeline.PipelineIsADelivery` | src/infrastructure/repos/event_store_repo.py:41-68 | With committed saves as the only source of outbox rows, the publishers and the consumer behave as a run of the delivery world. |
| `Pipeline.HandledEventsAreStored` | src/messaging/kafka/consumer.py:28-96 | In every run whatever is handled is the outbox row of an event in the store. |
| `Pipeline.StoredEventsAreHandledOnce` | src/messaging/kafka/outbox_publisher.py:83-97 | On clean runs shorter than a mark every stored event has exactly one outbox id, handled at most once, and exactly once when the log is committed and the id was sent or its row is marked published. |
| `Codec.SafeJsonIsJson` | src/domain/outbox/events.py:7-16 | At every depth the result holds no datetime and no UUID. |
| `Codec.SafeJsonFixesJson` | src/domain/outbox/events.py:7-16 | The values left as they are are exactly those that hold no datetime and no UUID at any depth. |
| `Codec.SafeJsonIsIdempotent` | src/domain/outbox/events.py:7-16 | Making a value JSON-safe twice is making it safe once, at any depth of nesting. |
| `Codec.SafeJsonReadsBack` | src/domain/outbox/events.py:7-16 | Nothing is lost: at every depth a printed datetime or UUID can be read back, and every other value is kept. |
| `EventTypes.NormalizeIsIdempotent` | src/domain/apps/payment/events.py:211-241 | Whatever is accepted becomes one of the six canonical names, and normalising again changes nothing. |
| `EventTypes.LoopSplitsWords` | src/domain/apps/payment/events.py:234-236 | The camel-case loop puts one underscore before every word of a name. |
| `EventTypes.ClassNameToEnumName` | src/domain/apps/payment/events.py:230-237 | Any camel-case class name ending in Event becomes its words in capitals with single underscores between them. |
| `EventTypes.EverySpellingIsAccepted` | src/domain/apps/payment/events.py:211-241 | Canonical name, enum name and class name of each of the six types all normalise to that type. |
| `EventTypes.AcceptedSpellings` | src/domain/apps/payment/events.py:211-241 | Beyond canonical and enum names, a text is accepted as a type exactly when, without one trailing Event, it is any number of underscores, Payment or payment, and the verb, capitalised or small behind one underscore. |
| `EventTypes.UnderscoredNamesAreAccepted` | src/domain/apps/payment/events.py:229-239 | For one, behind any positive number of underscores every class name without its suffix is accepted. |
| `Codec.EventRoundTrip` | src/domain/apps/payment/events.py:56-80 | Written to a dictionary, made JSON-safe any number of times and read back under any accepted spelling, every event is the event it was. |
| `Codec.StoredEventReadsBack` | src/infrastructure/repos/event_store_repo.py:41-52 | The event type stored beside the dictionary, like the type's other documented spellings, reads the event back. |
| `Codec.DictDescribesItself` | src/domain/apps/payment/events.py:46-80 | A dictionary has the public keys, each entry under its own name, and names its type in the public words; read by the type it names, it is its event. |
| `Codec.MissingEntriesAreFilledIn` | src/domain/apps/payment/events.py:66-205 | A dictionary with the three identifiers alone reads with the defaults of the source; a missing identifier or refund id is an error. |
| `Codec.EntriesRead` | src/domain/apps/payment/events.py:95-122 | How entries read: a missing amount is zero, a number counts whole units, a text is parsed; a missing or empty reference is none; a missing identifier and whatever does not parse are errors under their key. |
| `Codec.ToDictIsInjective` | src/domain/apps/payment/events.py:56-63 | Different events have different dictionaries. |

## Left out

- Web views, authentication, headers, settings, admin pages, deployment, the user client, RabbitMQ and logging: plumbing without a deep property.
- SHA-256, JSON text, UUID, datetime and decimal text forms: fingerprints are opaque texts, and `Codec` takes any printing and parsing that undo each other (`Faithful`).
- Upper-casing and stripping cover ASCII; decimal precision and column widths are not modelled, nor is the key's own stripping and length limit.
- Rows carry typed events; that a stored dictionary reads back as its event is `Codec.EventRoundTrip`.
- `Codec.EventRoundTrip`'s reader refuses a currency, text or schema version of the wrong JSON kind, which the dataclasses would keep unchecked.
- Streams of aggregate types other than payments: only payments are written, so the type filter selects everything.
- Idempotency rows of one (key, user) at a time: rows of different keys never meet. Response headers are empty and request metadata is not kept.
- Error texts: a failed outcome carries the stage it failed at (command, append, view, record), not the exception's own text.
- Row-lock waiting and `nowait`: a call that cannot get its lock is a call that raises without effect (`Fault`).
- `ExecuteOnce.ExecuteAtMostOnce`: says nothing of runs in which a pending row outlives its lease, an existing row is deleted, a live lock is unlocked by hand, or a missing row is created by hand, because the property is false there (`LostLeases` has a run for each).
- `create_key`'s fallback to an existing key, `get_keys_by_user` and metrics: easy reads. `create` itself is a step of the lease protocol, as are the deletions.
- The outbox admin's requeue action, which resets a row by hand: with it a row could be marked dead by a report that was counted before the reset.
- `LockStep.StoreAndOutboxAgree`: excludes the admin's deletions, after which deleted rows are missing; `Purges.LiveRowsFollowTheStream` says what stays true with them.
- `Pipeline`: outbox ids are fresh, as UUIDs are; a save with an id used before is no step.
- A delivery report that arrives after its round's flush: in `Publisher` the row simply stays due; `Delivery` has late reports.
- `Consumer`: one consumer of one partition, keyed messages only (the outbox publisher always sets a key), no eviction of cache entries before they expire, no rebalancing. What a handler does is not modelled, only that it is called and returns or raises.
- Broker replication and ordering across partitions: a landed message is the next entry of one log, at most once for each message queued.
- A bound on the sum of several refunds, and status or currency checks on refunds: the code has none.
- The read model's own timestamps and pagination.
