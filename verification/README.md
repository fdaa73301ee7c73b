# Wager engine: model and proofs

A Dafny model of the wager engine and the three protocols around it, with proofs of what the engine promises globally:
over every interleaving of submissions, recovery passes, openings and leases, with stops at any step, lost replies and
redelivered messages.

## How it is built

1. **Values and pure decisions** (`MoneyValue`, `Wager`, `Wallets`, `Commands`, `Projection`, `Resolution`).
   Money is a 64-bit integer with wrapped arithmetic and the original's own overflow tests. A row, a wallet, a posting and
   a claim are immutable values; constructors and transitions return changed copies or an error.
2. **Tables and whole operations** (`Tables`, `Settlement`, `Operations`). A `Db` holds the committed tables and the two
   unique indexes of provider rows. `Settlement` is what an operation decides from its wallet, its reference and its
   claim, without persistence; `Operations` is each use case as one step from tables to tables.
3. **Invariants and their preservation** (`Invariants`, `Preservation`, `EffectSafety`, `SettlementSafety`,
   `OperationSafety`, `OpeningSafety`, `StatementRuns`). Every settled effect keeps every invariant.
4. **The operations by columns** (`Rulings`, `Submissions`). A second account of the decision table and of every whole
   operation, in rules over the columns of the tables before and after that do not go through the functions of 1 and 2
   which decide; the two accounts are proved to agree on all inputs.
5. **The imperative service** (`Service`, `ServiceRuns`, `Worker`, `DueSelection`). Classes run each use case statement by
   statement on the view of an open transaction, with the retry loops, and commit or roll back; faults (a lost race, a failing
   store, a lost commit reply) are parameters. Their contracts tie the committed tables to the whole operations.
6. **The interleaved machine** (`Interleaving`, `Noninterference`, `LocalSteps`, `Commitment`, `SystemSafety`, `Undisturbed`). Any number
   of processes take one statement per step under Read Committed: a read sees the latest committed rows and the
   transaction's own writes; row locks and uncommitted unique keys are held until the transaction ends; a statement that
   would take something held waits. Any process may stop, fail or be chosen as a deadlock victim at any step, and a commit may
   take effect while its caller sees an error. The log records every commit with the clock reading, identities and hash it used.
7. **What runs guarantee**: serial runs and exactly when they agree (`SerialDecision`, `Serializability`, `SerialRuns`,
   `SerialExactness`), clock readings (`Readings`, `SteadyClock`), every reachable state (`Guarantees`, `Reconciliation`, `Paging`),
   attempts and waits (`Retries`, `Backoff`, `ReferenceLifecycle`, `RecoveryWorkers`), deliveries (`Delivery`, `Consumers`) and publication (`Outbox`,
   `OutboxFencing`, `Publication`).
8. **Runs that show a condition is needed** (`RunBuilding`, `Counterexamples`), built step by step in the same machine.

Clock readings, fresh identities, the correlation and the 64-bit jitter hash are inputs: one serial per transaction stands
for the identities it draws. A digest is represented by the projection it is computed from: canonical texts of parsed projections are
equal exactly when the projections are, and SHA-256 is taken to be collision free. A message body stands for its own SHA-256.

Where the code and its documentation differ the model follows the code: any wallet currency is accepted, not only BRL
(internal/application/service.go:239 against ARCHITECTURE.md:78), and a terminal transition keeps the old `updatedAt`, because
the assignment is made on a copy (internal/domain/financial/wager.go:453-468).

## Findings

- With clocks that can step back, two readings break the promise that only contract, conflict, not-found, store and overflow errors
  end an operation: a movement stamped before the creation of its wallet makes the wallet unreadable for good, and a reschedule stamped
  before the creation of its row aborts (`Counterexamples.SomeRunsBreakThePromise` has a run for each). Nothing else does:
  the promise holds over a run if and only if both kinds of reading are absent (`Readings.PromiseHoldsExactlyWhen`).
- No run ever commits a FAILED row: the only path to it needs a stored reference that cannot be rebuilt
  (`Guarantees.CommittedRowsAreDecided`).
- The unique constraint on claims is never needed: the wallet lock alone keeps claims unique (`Guarantees.ClaimsMatchReversals`).
- The rows of a run need not be those of running its commits whole in commit order: an operation that reads its reference as absent, while a row
  under that identity is being committed on another wallet, is left waiting where the serial run rejects it
  (`Counterexamples.SomeRunIsOvertaken`). This is the only way (`SerialExactness.RowsAreSerialExactlyWhen`), and it never moves money
  (`SerialRuns.InterleavingsAreSerializable`).
- The messages of a batch are handled one after the other and renewed only from their turn on, so one whose turn comes more than
  40 seconds after its receive can be received again while it is handled (`Consumers.StaysHiddenExactlyWhen`); and since renewals
  are stopped only after the last call, one that lands late overrides the backoff or release (`Consumers.Consumer.Process`).
- A delivery of an operation whose row is there before is answered as it was read, so by the time it commits it may still tell of a wait that
  has ended; every other successful answer is the row as it is stored at that moment (`Guarantees.AnswersTellTheirRow`).
- Subtraction refuses some differences that fit (`MoneyValue.SubRefusesRepresentableDifference`).

## Model

| member | source | states |
|---|---|---|
| MoneyValue.AddExact | internal/domain/money/money.go:102-111 | Wrapped 64-bit addition refuses exactly the sums that do not fit, and otherwise is exact. |
| MoneyValue.SubExact | internal/domain/money/money.go:114-131 | Subtraction refuses exactly a subtrahend of MinInt64 and the differences that do not fit. |
| MoneyValue.SubRefusesRepresentableDifference | internal/domain/money/money.go:114-131 | A difference that fits is refused all the same when the subtrahend is MinInt64 (concrete amounts). |
| MoneyValue.ParseExact | internal/domain/money/money.go:45-62 | Parsing accepts exactly canonical text with a valid currency whose value fits in 64 bits, and yields that value. |
| MoneyValue.StringExact | internal/domain/money/money.go:176-187 | The rendered text denotes the amount, sign included, also at MinInt64. |
| MoneyValue.ParseOfString | internal/domain/money/money.go:45-187 | Parsing what was rendered gives every non-negative amount back. |
| MoneyValue.StringOfParse | internal/domain/money/money.go:45-187 | Rendering what was parsed gives every accepted text back. |
| MoneyValue.StringInjective | internal/domain/money/money.go:176-187 | Amounts of one currency render alike only if they are equal. |
| Wallets.CreditExact | internal/domain/financial/wallet.go:89-109 | A credit raises the balance and the version, and fails only when the balance would not fit in 64 bits. |
| Wallets.DebitExact | internal/domain/financial/wallet.go:111-136 | A debit fails only for lack of funds, so a balance never goes negative. |
| Wallets.EntryExact | internal/domain/financial/ledger.go:38-160 | A posting is accepted exactly when its amount is positive, both balances are non-negative and they differ by its signed amount. |
| Wager.HistoriesAreShort | internal/domain/financial/wager.go:317-468 | Whatever transitions are tried in whatever order, a new record goes through at most one wait and then at most one end; the command never changes, a failure code is there exactly after a rejection or failure, balance and reference are those of the end, and the update instant is that of the wait or of the creation, never that of the end. |
| Wager.EveryHistoryIsOpen | internal/domain/financial/wager.go:317-468 | The sequences of transitions a new record accepts are exactly these: none, a wait, an end, or a wait and then an end, each with good arguments. |
| Wager.CreatedRowsRehydrate | internal/domain/financial/wager.go:128-312 | Every record the constructor accepts can be rebuilt from storage unchanged. |
| OperationSafety.ValidationAgreesWithConstructor | internal/application/commands.go:49-105 | The command validation and the record constructor accept the same commands, except a LOSS with a reference, which only the validation refuses. |
| Commands.ValidationExactly | internal/application/commands.go:49-105 | Which commands are valid, and which of the five contract errors every other one gets, by its fields. |
| Projection.TextDecidesDigest | internal/application/projection.go:37-67 | Two commands with parsed identifiers have the same canonical text, and so the same digest, if and only if they differ at most in the idempotency key. |
| OperationSafety.ReplayIsForTheSameCommand | internal/application/service.go:205-231 | A taken key is answered with its stored row if and only if the command equals the one the row was accepted from, and is a conflict otherwise; the answer tells every column of that row and is flagged as a replay, and the tables are not touched. |
| Projection.MembersAreSorted | internal/application/projection.go:37-57 | Members are emitted in the order section 3.2.3 of RFC 8785 requires. |
| Projection.MembersAreTheMap | internal/application/projection.go:37-57 | The emitted members are exactly those of the map, the optional reference included. |
| Projection.CanonicalJsonInjective | internal/application/projection.go:37-57 | Two projections with parsed identifiers have the same canonical text if and only if all nine business fields agree, absence of the reference included. |
| Resolution.MoneyMovesExactlyWhen | internal/application/resolve.go:29-133 | Money moves exactly for a bet, a win without reference, and an operation whose found reference supports it; amount, direction, claim and reference identity of the movement. |
| Rulings.RefusalsExactlyWhen | internal/application/resolve.go:29-133 | The rest of the decision table, both ways: waiting, idling and each of the six refusal codes holds exactly under a condition on the columns of operation, reference and claim. |
| Rulings.PlansByTheRules | internal/application/service.go:470-489 | What is planned from the reads is the one ruling the columns dictate, with the identity of the reference unless the operation waits. |
| Rulings.SettlesByTheRules | internal/application/service.go:424-677 | What that ruling leaves, column by column: a rejection or a LOSS records the balance of the wallet at the decision, a wait its deadline and first retry, a posting wallet, entry and claim; the answer tells that row, and events carry instant and correlation. |
| Resolution.ForeignReferenceIsDecided | internal/application/resolve.go:29-133 | Neither the state nor the claim of a reference on another wallet can change the answer, which never moves money and never waits. |
| Resolution.WaitingAgainstRejected | internal/application/resolve.go:29-133 | What a waiting reference holds up a rejected one refuses; no other answer tells the two apart. |
| SettlementSafety.PlanFacts | internal/application/service.go:470-489 | The plan names a stored reference, waits only with a reference, moves money only on a supported one, and idles only for a LOSS. |
| SettlementSafety.MovementEnds | internal/application/service.go:554-626 | A planned movement ends in one of three ways: posted field by field, rejected on a debit beyond the balance, aborted on a credit beyond 64 bits. |
| SettlementSafety.SettleAbortsExactlyWhen | internal/application/service.go:424-677 | A decision from reads under the wallet lock aborts on a planned credit that does not fit in 64 bits, on a reschedule whose reading is earlier than the creation of the row, and on nothing else. |
| SettlementSafety.SettledEffectPreserves | internal/application/service.go:424-677 | Every effect decided from reads under the wallet lock keeps every invariant of the tables. |
| StatementRuns.SettleIsShaped | internal/application/service.go:503-677 | Whatever is decided keeps the command of the row, answers with its columns and not as a replay, and saves only balance, version and instant of the wallet. |
| StatementRuns.StatementsRun | internal/application/service.go:503-626 | Running the update statements one after the other amounts to the effect in one piece. |
| StatementRuns.DeliveryRuns | internal/application/service.go:69-90 | Recording a delivery, running an operation and completing the delivery leaves the operation and one completed record. |
| EffectSafety.EffectPreserves | internal/application/service.go:554-626 | An effect that fits keeps ledger, claims, events, indexes, rows and wallet agreement, balance by balance. |
| Preservation.NetPosted | internal/application/service.go:554-626 | Posting an operation moves the net total of its wallet by the signed amount of the posting, compensations included, and no other total. |
| Preservation.NetEffectAtRoot | internal/application/resolve.go:86-117 | A new compensation changes the net effect of the bet or win it goes back to by exactly what it posts. |
| OperationSafety.LookupsAreExact | internal/adapters/postgres/transactions.go:105-118 | A lookup by a unique key finds the stored row exactly when there is one, never a corrupt one. |
| OperationSafety.SubmissionReadsReference | internal/application/service.go:453-465 | What a submission reads of its reference, its own uncommitted row included, is what the decision needs. |
| Submissions.SubmissionsByTheRules | internal/application/service.go:205-262 | A valid command with free keys is refused exactly because its wallet is unknown, unreadable or in another currency, aborts exactly on a credit beyond 64 bits, and otherwise settles by the ruling: the tables change by its row, which carries the command, its events and its posting, and by nothing else. |
| Submissions.ClaimedReferenceIsRefused | internal/application/resolve.go:86-117 | A compensation of a processed operation of its own player, round, wallet and amount ends REJECTED as already reversed if and only if that operation has been claimed; no money moves. |
| Submissions.TakenIdentityIsAConflict | internal/application/service.go:216-231 | A free key whose external identity is taken is a conflict, and the tables are not touched. |
| Submissions.PassesByTheRules | internal/application/service.go:272-331 | A recovery pass answers an ended operation with its row, refuses an unknown one or an unreadable wallet, exactly then, and decides a waiting one by the ruling of its reference, claims and wallet as they stand. |
| Submissions.DeliveriesAreJudged | internal/application/service.go:50-96 | A body recorded before is a duplicate and another body under its message a conflict, and neither changes anything; a new message is the submission of its command, recorded in the same commit unless refused. |
| Submissions.OpeningsByTheRules | internal/application/service.go:102-166 | Each refusal of an opening, both ways, and otherwise the wallet and the OPENING it leaves, column by column. |
| OperationSafety.SubmitKeeps | internal/application/service.go:172-262 | Submitting keeps every invariant, and a successful answer is about a row stored under the command key. |
| OperationSafety.SubmitFromInboxKeeps | internal/application/service.go:50-96 | Submitting a delivery keeps every invariant, the completeness of delivery records included. |
| OperationSafety.ResolveKeeps | internal/application/service.go:272-331 | A recovery pass keeps every invariant. |
| OperationSafety.LeaseKeeps | internal/adapters/postgres/transactions.go:121-153 | Leasing any batch of due rows keeps every invariant. |
| OperationSafety.LeaseHoldsOff | internal/adapters/postgres/transactions.go:121-135 | A lease keeps its row from being claimed again exactly until it ends, and touches no other row. |
| OpeningSafety.OpenKeeps | internal/application/service.go:102-166 | Opening a wallet keeps every invariant; a positive balance comes with its OPENING, posting and events. |
| Service.Store.End | internal/adapters/postgres/store.go:46-59 | A transaction commits all of its writes or none. |
| Service.Store.InsertTransaction | internal/adapters/postgres/transactions.go:21-51 | An insert succeeds exactly when the identity is new, both unique keys are free and, for an OPENING, the wallet has none yet. |
| Service.Store.InsertWalletRow | internal/adapters/postgres/wallets.go:20-31 | A wallet insert succeeds exactly when the player has none in that currency. |
| Service.Store.BeginDelivery | internal/adapters/postgres/inbox.go:21-48 | The delivery is recorded, or the digest already recorded is reported. |
| Service.WagerService.PersistTransfer | internal/application/service.go:554-626 | Balance, posting, claim, row and both events are written as decided, in source order. |
| Service.WagerService.ResolveAndExecute | internal/application/service.go:424-465 | Loading the reference, looking for its claim, deciding and persisting executes exactly the decision of the tables read, which Rulings.SettlesByTheRules gives by columns. |
| Service.WagerService.SubmitInTx | internal/application/service.go:205-262 | The body of a submission answers and writes what the whole operation says, acceptance and refusal as in Submissions.SubmissionsByTheRules. |
| Service.WagerService.DeliverInTx | internal/application/service.go:69-90 | The body of a delivery answers and writes what the whole delivery says: a duplicate is a success without a result, a refusal leaves nothing. |
| Service.WagerService.SubmitWagerTransaction | internal/application/service.go:172-203 | With any faults, at most three attempts: the committed tables are those of the whole operation in the first attempt that did not lose a race, or untouched; invariants are kept; a lost reply changes the answer only. |
| Service.WagerService.SubmitWagerFromInbox | internal/application/service.go:50-96 | The same for a delivery, which commits with its operation or not at all; a duplicate is reported as such and not as an error. |
| Service.WagerService.ResolvePendingReference | internal/application/service.go:272-331 | A recovery pass commits what the whole operation says or nothing. |
| Service.WagerService.OpenWallet | internal/application/service.go:102-166 | An opening commits wallet, OPENING row, posting and events together or nothing; a second wallet for player and currency is refused. |
| DueSelection.PickFirst | internal/adapters/postgres/transactions.go:121-135 | A claim takes the first due items in order, up to the limit. |
| Worker.ResolveOnce | internal/adapters/worker/reference.go:104-139 | A pass claims, in order and fifty at most, the unlocked waiting rows whose attempt is due and whose lease is over, leases exactly those for 30 seconds, and resolves them one by one past failures, on the tables as others have left them by then; it keeps every invariant and counts what it hears to have ended. |
| Worker.ClaimsAreSteps | internal/adapters/postgres/transactions.go:121-135 | The claim of a pass is a step of the interleaved machine whenever it passes over the rows that transactions hold, and leaves the same tables. |
| Undisturbed.WholeOperationsRunAlone | internal/application/service.go:50-332 | From any safe state in which nobody holds anything, a process of any operation runs its statements to an end, every one of them possible, and its answer and the tables are those of the whole operation. |
| Noninterference.ReferenceReadKept | internal/application/service.go:453-489 | While a wallet is locked nobody else can change the state or the claim of a reference on it. |
| Noninterference.ProcKept | internal/application/service.go:205-332 | Whatever a transaction in progress knows survives every change outside what it holds. |
| LocalSteps.LocalIsOk | internal/application/service.go:205-489 | Every statement of a process establishes what the process relies on next. |
| Commitment.CommitLands | internal/adapters/postgres/store.go:46-59 | A commit keeps every invariant, changes nothing outside the locks and keys it held, and makes its answer true. |
| SystemSafety.StepKeeps | internal/application/service.go:205-332 | Every step of every process, stops and errors included, keeps the system safe and loses nothing stored. |
| SystemSafety.RunsAreSafe | internal/application/service.go:205-332 | In every state of every run the tables satisfy every invariant, locks are exclusive and processes know only what is true. |
| SystemSafety.RunsOnlyGrow | internal/application/service.go:205-332 | Along every run commands, keys, postings, claims and events stay, and terminal rows never change. |
| SerialDecision.DecidesAlike | internal/application/resolve.go:29-133 | An operation decides the same on the interleaved and on the serial tables, or waits for a reference the serial run already refuses. |
| Serializability.SettlesAlike | internal/application/service.go:424-677 | What an operation settles in the interleaving it settles in the serial run, or both leave money alone. |
| SerialDecision.DecidesTheSameUnlessOvertaken | internal/application/resolve.go:29-133 | Decided again on the tables it commits to, an operation decides the same, unless it read its reference as absent and a row under that identity has been committed since: then it waits where a new decision refuses. |
| SerialRuns.InterleavingsAreSerializable | internal/application/service.go:205-332 | In every interleaving the balances, ledger, claims, keys and deliveries equal those of running the committed operations whole in commit order. A differing row keeps its command, needs a reference, is rejected in the serial run over a stored reference on another wallet or a rejected one, and waits or is rejected here. |
| SerialExactness.RowsAreSerialExactlyWhen | internal/application/service.go:205-489 | The rows equal those of the serial run at every point of a run if and only if no operation was overtaken at its commit; then all tables are equal, events included. |
| SerialExactness.WithinWalletsRunsAreSerial | internal/application/service.go:205-489 | In particular all tables are equal, rows and events included, when no stored operation names a stored reference on another wallet. |
| Counterexamples.CrossingsCanBeOvertaken | internal/application/service.go:453-489 | For any valid REFUND and LOSS on two wallets, the LOSS under the identity the REFUND names, there is a run under a steady clock that leaves the REFUND waiting where the serial run has rejected it. |
| Counterexamples.SomeRunIsOvertaken | internal/application/service.go:453-489 | So some run (with concrete commands) ends with rows that differ from its serial run. |
| Retries.RetriesConverge | internal/application/service.go:63-96 | After a lost uniqueness race the next attempt finds the winner; without deadlock aborts two attempts suffice, there are never more than three, and giving up takes three aborts, one lost race among them at most. |
| Readings.PromiseHoldsExactlyWhen | internal/application/service.go:503-677 | Over a whole run no process ends in an internal-invariant, corrupt-record or other domain error (but an overflowing credit) and every wallet can be read back if and only if no movement is stamped before the creation of its wallet and no reschedule before the creation of its row. |
| Readings.IllegibleForever | internal/domain/financial/wallet.go:54-85 | A wallet saved under an instant before its creation never changes again in any run, and every lookup of it reports a corrupt record. |
| Readings.LateStampSpoilsWallet | internal/domain/financial/wallet.go:54-136 | A movement stamped before the creation of its wallet makes it so, and every later attempt of any submission to lock that wallet fails. |
| SteadyClock.SteadyRunsFailOnlyAsExpected | internal/application/service.go:503-677 | With a clock that never goes back every step is in time, so the promise holds in every state. |
| Counterexamples.LateStampsBreakThePromise | internal/domain/financial/wallet.go:54-136 | For any valid WIN without reference and any reading before the creation of its wallet there is a run in which the next submission on the wallet ends in a corrupt record. |
| Counterexamples.EarlyPassesBreakThePromise | internal/application/service.go:643-677 | For any valid REFUND there is a run in which a recovery pass, under a reading after the creation of the wallet but before that of the row, ends in an internal-invariant error. |
| Guarantees.LedgerChainsToBalance | internal/domain/financial/ledger.go:112-160 | Each ledger chains in commit order from zero to the stored balance, which is never negative; the version is one plus the postings not made by OPENING. |
| Guarantees.BalanceIsNetOfStandingOperations | internal/application/service.go:554-626 | Conservation: a balance is its opening, plus every win not rolled back, minus every bet that stands. |
| Guarantees.ChainsNetToStanding | internal/application/resolve.go:72-121 | A bet with its compensations nets to minus its amount or zero, a win to its amount or zero. |
| Guarantees.ChainsAreShort | internal/application/resolve.go:72-121 | Compensation chains have length at most two: only a refund of a bet is itself reversed, by a rollback nothing reverses. |
| Guarantees.ClaimsMatchReversals | internal/application/service.go:606-614 | No reference ever has two claims, although none is checked on insert; claims match the processed refunds and rollbacks one to one, with equal wallet and amount. |
| Guarantees.OperationsAreUnique | migrations/000001_init.up.sql:97-98 | At most one provider row per key and per external identity. |
| Guarantees.CommandsMoveMoneyOnce | internal/application/service.go:205-231 | Two postings under one key or one external identity are the same posting. |
| Guarantees.ReplaysNeverChange | internal/application/service.go:205-231 | Once the row of a command is terminal, every later replay is answered with every column of it, as it was then. |
| Guarantees.AnswersAreWitnessed | internal/application/service.go:205-231 | Every successful answer tells the columns of a stored row, for good once it has ended: a submission the row accepted from the very command, a recovery pass its own; every conflict answer names a committed row that differs. |
| Guarantees.AnswersTellTheirRow | internal/application/service.go:782-803 | At the step that ends a process its answer tells every column of its row as stored then (but for a delivery whose row was there before, which may still tell of a wait that has ended since), and it is flagged as a replay exactly when the row was there before. |
| Guarantees.CommittedRowsAreDecided | internal/domain/financial/wager.go:317-383 | No committed row is PENDING or FAILED; a waiting row has no outcome; an ended row carries no schedule and no lease. |
| Guarantees.TerminalRowsNeverChange | internal/domain/financial/wager.go:453-468 | A row that has ended never changes, so it ends at most once however many workers hold it. |
| Guarantees.PostingsMatchRows | internal/application/service.go:554-626 | Every processed operation but LOSS has exactly one posting with the direction, amount and balance its row dictates; all others have none. |
| Guarantees.EventsMatchRows | internal/application/service.go:679-768 | Every operation has announced exactly what happened to it, kind by kind, and nothing else. |
| Guarantees.BalanceEventsRebuildWallets | internal/application/service.go:749-768 | Replaying balance events rebuilds every balance and version; event identities are unique and contents match the rows. |
| Reconciliation.ReconcileWallet | internal/application/reconciliation.go:51-93 | The fold reports stored minus calculated and aborts exactly when a partial sum does not fit. |
| Reconciliation.DifferenceIsZero | internal/application/reconciliation.go:65-93 | In every reachable state, in any entry order, the entries sum to the stored balance. |
| Reconciliation.CommitOrderNeverOverflows | internal/adapters/postgres/reconciliation.go:16-74 | In commit order each partial sum is the balance that posting left, so the fold cannot overflow. |
| Paging.CursorOfEntry | internal/application/pagination.go:43-79 | The cursor of an entry decodes to its position, and exactly the entries up to it have passed. |
| Paging.OrderedFacts | internal/adapters/postgres/ledger.go:35-47 | Ordering by instant and identity is strict, loses none and adds none. |
| Paging.ListPage | internal/adapters/postgres/ledger.go:35-78 | A page holds the entries after the cursor up to the limit and says exactly whether more follow. |
| Paging.LedgerPage | internal/application/service.go:387-419 | The checks in source order, then the page at the position of the cursor. |
| Paging.FollowingCursorsReturnsEverything | internal/application/service.go:387-419 | Following cursors with any page sizes from 1 to 100 returns every posting exactly once, in order, and stops. |
| Delivery.DeletedMessagesAreDurable | internal/adapters/sqs/consumer/consumer.go:171-269 | Over any run of deliveries, copies, stops and lost replies, a message is deleted only once its record is committed, completed and equal to it and its row is stored. |
| Delivery.DeliveriesAreComplete | internal/adapters/postgres/inbox.go:21-57 | Every committed delivery record is completed and has a stored row under its provider and key. |
| Delivery.RedeliveriesAreDeleted | internal/adapters/sqs/consumer/consumer.go:208-235 | Over any run, a message whose delivery was completed before is recognised whenever it is received again: its process ends as a duplicate at its first statement, which nothing can hold up, unless the store fails it or deadlocks exhaust it, and then the acknowledgement is due and deletes the message. |
| Delivery.DeliveriesMoveMoneyOnce | internal/adapters/sqs/consumer/consumer.go:171-269 | However often a command is delivered, redelivered or copied over HTTP, it moves money at most once. |
| Consumers.VisibilityDoubles | internal/adapters/sqs/consumer/consumer.go:35-43 | Waits of 5, 10, 20 and 40 seconds before the fifth receive, none from then on. |
| Consumers.StaysHiddenExactlyWhen | internal/adapters/sqs/consumer/consumer.go:250-317 | While it is handled a message stays hidden from other receives if and only if its first renewal comes before the visibility of its receive runs out and its end before that of its last renewal. |
| Consumers.TimelyWorkStaysHidden | internal/adapters/sqs/consumer/consumer.go:250-317 | When no renewal fails, handling that starts within 10 seconds of the receive stays hidden to the end, shutdown grace included, and within 40 seconds unless the consumer is told to stop. |
| Consumers.RenewedExactly | internal/adapters/sqs/consumer/consumer.go:287-317 | How many renewals go through, by their instants: up to the end, the cancellation or the first failure. |
| Consumers.Consumer.RenewVisibility | internal/adapters/sqs/consumer/consumer.go:287-317 | Renewals go out every 20 seconds until the end, the cancellation or the first failure. |
| Consumers.Consumer.Process | internal/adapters/sqs/consumer/consumer.go:171-364 | A message is deleted exactly when it was acceptable, a success or a duplicate was answered before a cancellation or within 30 seconds of it, and the queue took the deletion; otherwise the instant it is offered again, for refusal, timeout, cancellation, transient failure by receive count, any other failure, a failed call and a late renewal. |
| Backoff.ExponentialDelayClosedForm | internal/application/backoff.go:33-46 | The capped doubling is the smaller of 2^n and 900 seconds. |
| Backoff.ReferenceDelayBounds | internal/application/backoff.go:33-60 | For any hash the delay lies between that and a tenth more. |
| Backoff.ReferenceBackoff | internal/application/backoff.go:33-55 | The loop with its early stop computes that delay; negative attempts count as the first. |
| ReferenceLifecycle.CycleEndsOrReschedules | internal/application/service.go:300-326 | A committed pass ends the wait, or, only before the deadline, reschedules it one attempt later by the backoff. |
| ReferenceLifecycle.DeadlineEndsTheWait | internal/application/service.go:318-323 | Every pass that commits at or after the deadline ends the wait, whatever it reads. |
| ReferenceLifecycle.WaitsAreBounded | internal/application/service.go:272-331 | Over every run under a clock that never goes back: the retry counter of a waiting operation counts its committed passes; at most 104 of them each follow a claim of the row made since the pass before, so the counter is at most 104 plus the passes that follow none. |
| RecoveryWorkers.PassesAreBounded | internal/adapters/worker/reference.go:104-139 | Over every run of any number of workers that resolve a row once per claim, under a steady clock, however late passes commit: a waiting operation is rescheduled at most 2883 times, and never more often than it was claimed. |
| RecoveryWorkers.DeadlineFitsClaims | internal/adapters/postgres/transactions.go:121-153 | 2883 claims spaced by leases and retries fit before the deadline and 2884 do not. |
| ReferenceLifecycle.DeadlineFits104 | internal/application/backoff.go:10-60 | 104 shortest waits fit before the deadline and 105 do not, so the arithmetic allows no lower bound. |
| Outbox.OutboxStore.ClaimDueEvents | internal/adapters/postgres/outbox_publisher.go:15-47 | Claims, in order and up to the limit, the unlocked unpublished events whose attempt is due and whose lease is over; leases exactly those, counts one attempt each and hands out their snapshots. |
| Outbox.OutboxStore.ConfirmEvent | internal/adapters/postgres/outbox_publisher.go:51-65 | Confirms exactly an unpublished event still leased under the given attempt number. |
| Outbox.OutboxStore.RescheduleEvent | internal/adapters/postgres/outbox_publisher.go:68-82 | Releases exactly such an event and sets its next attempt. |
| Outbox.ClaimsFence | internal/adapters/postgres/outbox_publisher.go:15-82 | When a claimed, rescheduled or confirmed event is due again, and that only the newest claim number finds it. |
| Outbox.PublishBackoffClosedForm | internal/adapters/outbox/publisher.go:32-44 | The delay is the smaller of 2^(n-1) and 300 seconds. |
| Outbox.BackoffFor | internal/adapters/outbox/publisher.go:32-44 | The loop computes that delay. |
| Outbox.PublishOnce | internal/adapters/outbox/publisher.go:118-153 | Each record reached is confirmed or rescheduled by what the sender did, or left as others left it when its lease was lost; the rest keep their lease, and the count is of those confirmed. |
| Outbox.OvertakenRecordsAreLeftAlone | internal/adapters/outbox/publisher.go:129-150 | A record claimed again meanwhile is never ended by the older pass; one left alone always is. |
| OutboxFencing.AttemptsCountClaims | internal/adapters/postgres/outbox_publisher.go:15-47 | `attempts` equals the claims ever handed out, each number belongs to one publisher, and the sender is never called more often. |
| OutboxFencing.StoreClaimsAreSteps | internal/adapters/postgres/outbox_publisher.go:15-47 | What the claim statement of the store picks any idle publisher may claim in the machine, with the same rows and records. |
| OutboxFencing.NewEventsAreDue | internal/adapters/postgres/outbox.go:14-34 | A new event is due from the reading it is inserted under, with its snapshot and no claim. |
| OutboxFencing.ClaimsEndOnce | internal/adapters/postgres/outbox_publisher.go:51-82 | At most one confirm or reschedule succeeds per claim number, in rising order, and none after a confirm. |
| OutboxFencing.OnlyNewestClaimEnds | internal/adapters/postgres/outbox_publisher.go:51-82 | Over every run, when one succeeds its number is the count of claims of that event handed out so far, and no claim of the event has a higher one. |
| OutboxFencing.ConfirmedWasAccepted | internal/adapters/outbox/publisher.go:129-150 | A confirmed event was accepted by the sender at least once, with its stored snapshot. |
| OutboxFencing.SnapshotsNeverChange | internal/adapters/postgres/outbox_publisher.go:49-65 | Events are never lost, their snapshot never changes and a published one is never touched again. |
| OutboxFencing.UnconfirmedBecomesClaimable | internal/adapters/postgres/outbox_publisher.go:15-47 | With a clock of its own for every publisher, an unconfirmed event is due again from five minutes after the highest reading any of them has taken. |
| Publication.CommittedEventsArePublished | internal/adapters/postgres/outbox.go:14-34 | Over every interleaving of processes and publishers, from the commit that appends it on an event is an outbox row with its own snapshot; once confirmed the sender has accepted that snapshot; until then it comes due again. |
| Publication.OnlyCommittedEventsAreSent | internal/adapters/outbox/publisher.go:118-153 | What is handed to the sender is always a committed event. |

## Left out

- HTTP handlers, routing, authentication, wiring, configuration, logging, metrics, health checks, queue provisioning and the migration runner: plumbing or libraries.
- SQL text, pgx, the AWS SDK, JSON, base64, UUID generation, SHA-256 and FNV: abstracted as described above.
- CHECK constraints and the unique indexes on claims and on ledger entries: the invariants proved here imply them, so the model does not need them.
- Foreign-key locks and deadlock freedom: not claimed. Any process can become a deadlock victim at any step; that a deadlock is resolved is left to the database.
- SerialRuns.InterleavingsAreSerializable: does not claim equal events, which differ where rows do; SerialExactness.RowsAreSerialExactlyWhen says exactly when both are equal.
- OutboxFencing.UnconfirmedBecomesClaimable: says when an event is due again, not that a publisher is there to claim it.
- Outbox.PublishOnce: what others do meanwhile is given record by record; passes of many publishers interleaved statement by statement are the subject of OutboxFencing.
- Undisturbed.WholeOperationsRunAlone: among processes that hold nothing; what others do in between is the subject of the other results about runs.
- Worker.ResolveOnce: others act between the resolutions of a pass; what they do between the statements of one resolution is the subject of the interleaved machine.
- Service.WagerService.ResolvePendingReference: single transactions without concurrent ones; races are the subject of the interleaved machine, and a lost race is modelled here only where the source retries it.
- Consumers.Consumer.Process: envelope decoding and sender authorisation are one input; calls to the queue take no time, and an answer at the very end of the grace counts as in time.
- ReferenceLifecycle.WaitsAreBounded: needs a clock that never goes back, and does not bound the passes that follow no claim since the pass before; RecoveryWorkers.PassesAreBounded bounds all passes when each comes from a claim of its own.
- Paging.CursorOfEntry: the cursor is the record its text carries; base64 and JSON are library code.
- Paging.FollowingCursorsReturnsEverything: a ledger that does not change between the pages; the database orders identities as UUIDs, the model as numbers.
- Projection.CanonicalJsonInjective: identifiers in their parsed formats, which need no JSON escaping.
- Liveness of a waiting credit that would overflow: it aborts on every attempt and does not reach the deadline check.
- The wallet version as a 64-bit counter: modelled unbounded, because wrapping it takes 2^63 postings.
- Equality of a transaction's player with its wallet's player: the code does not check it, so nothing is claimed about it.
- Publication order per wallet, and (createdAt, id) order as commit order across skewed clocks: not claimed.
- A row whose stored state text is not one of the five states: states are a closed type here.
- Single-row queries (wallet by identity, transaction by identity or by provider and external identity): they only repeat the lookups of the use cases.
