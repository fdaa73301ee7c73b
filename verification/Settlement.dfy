/** What one operation decides once its wallet, reference and claim have been read:
    the persistence-free part of internal/application/service.go:421-677. */
module Settlement {
  import opened Results
  import opened MoneyValue
  import opened Wager
  import opened Wallets
  import opened AppErrors
  import opened Resolution
  import opened Backoff
  import opened Tables

  /** What the surroundings supply to one attempt: its clock reading, the fresh identity its UUIDs stand for,
      its correlation and the 64-bit hash behind the retry jitter. */
  datatype Env = Env(serial: nat, now: Time, correlation: string, hash: nat)

  predicate EnvOk(env: Env) {
    env.serial > 0 && env.now > 0 && env.correlation != ""
  }

  datatype WagerResult = WagerResult(
    transactionId: TransactionId, origin: Origin, kind: Kind, providerId: ProviderId, externalId: ExternalId,
    walletId: WalletId, playerId: PlayerId, roundId: ExternalId, gameId: ExternalId, amount: Money,
    referenceExternal: ExternalId, state: State, observedBalance: Money, failureCode: FailureCode,
    referenceDeadline: Time, replay: bool, createdAt: Time, updatedAt: Time)

  function ResultOf(t: WagerTransaction, replay: bool): WagerResult {
    WagerResult(t.id, t.origin, t.kind, t.providerId, t.externalId, t.walletId, t.playerId, t.roundId, t.gameId,
                t.amount,
                t.referenceExternalId, t.state, t.observedBalance, t.failureCode, t.referenceDeadline, replay,
                t.createdAt, t.updatedAt)
  }

  datatype Transfer = Transfer(wallet: Wallet, entry: LedgerEntry, claim: Option<ReversalClaim>)

  /** The result tells the columns of the operation's row that never change. */
  predicate TellsCommand(r: WagerResult, t: WagerTransaction) {
    && r.transactionId == t.id && r.origin == t.origin && r.kind == t.kind
    && r.providerId == t.providerId && r.externalId == t.externalId
    && r.walletId == t.walletId && r.playerId == t.playerId && r.roundId == t.roundId && r.gameId == t.gameId
    && r.amount == t.amount && r.referenceExternal == t.referenceExternalId && r.createdAt == t.createdAt
  }

  /** And those of its outcome. */
  predicate TellsOutcome(r: WagerResult, t: WagerTransaction) {
    && r.state == t.state && r.observedBalance == t.observedBalance && r.failureCode == t.failureCode
    && r.referenceDeadline == t.referenceDeadline && r.updatedAt == t.updatedAt
  }

  predicate Tells(r: WagerResult, t: WagerTransaction) {
    TellsCommand(r, t) && TellsOutcome(r, t)
  }

  /** Column by column, a result is its row. */
  lemma ResultTells(t: WagerTransaction, replay: bool)
    ensures Tells(ResultOf(t, replay), t) && ResultOf(t, replay).replay == replay
  {
  }

  /** Everything one settled operation persists. */
  datatype Effect = Effect(row: Row, rescheduled: bool, transfer: Option<Transfer>, events: seq<Event>)

  datatype Settled = Settled(effect: Effect, result: WagerResult)

  function WrapInvariant<T, E>(r: Result<T, E>): Result<T, AppError> {
    match r
    case Ok(v) => Ok(v)
    case Err(_) => Err(Invariant)
  }

  function FirstEvent(env: Env): EventId { 2 * env.serial }
  function SecondEvent(env: Env): EventId { 2 * env.serial + 1 }

  function ProcessedEvent(id: EventId, wallet: Wallet, t: WagerTransaction, balance: Money,
                          env: Env): Result<Event, AppError> {
    NewEvent(id, wallet.id, env.correlation, env.now,
             ProcessedData(t.id, t.origin, t.providerId, t.externalId, wallet.id, wallet.playerId, t.roundId, t.gameId,
                           t.kind, t.amount, balance))
  }

  function RejectedEvent(id: EventId, wallet: Wallet, t: WagerTransaction, env: Env): Result<Event, AppError> {
    NewEvent(id, wallet.id, env.correlation, env.now,
             RejectedData(t.id, t.providerId, t.externalId, wallet.id, t.kind, t.amount, t.failureCode,
                          t.observedBalance,
                          t.referenceExternalId))
  }

  function PendingEvent(id: EventId, t: WagerTransaction, env: Env): Result<Event, AppError> {
    NewEvent(id, t.walletId, env.correlation, env.now,
             PendingReferenceData(t.id, t.providerId, t.externalId, t.walletId, t.kind, t.amount, t.referenceExternalId,
                                  t.referenceDeadline))
  }

  function BalanceEvent(id: EventId, wallet: Wallet, t: WagerTransaction, move: Movement, before: Money, after: Money,
                        env: Env)
    : Result<Event, AppError>
  {
    NewEvent(id, wallet.id, env.correlation, env.now,
             BalanceChangedData(wallet.id, t.id, move.direction, move.amount, before, after, wallet.version))
  }

  /** A terminal row: no schedule and no lease. */
  function Terminal(t: WagerTransaction): Row {
    Row(t, 0, 0, 0)
  }

  /** The reference of a claiming operation is looked up among the claims only once it is processed. */
  predicate NeedsClaimRead(txn: WagerTransaction, ref: Option<WagerTransaction>) {
    ref.Some? && IsClaimingKind(txn.kind) && ref.value.state == Processed
  }

  function PlanOperation(txn: WagerTransaction, ref: Option<WagerTransaction>, claimRead: bool): Result<Plan,
    AppError> {
    var claimExists := NeedsClaimRead(txn, ref) && claimRead;
    var plan :- WrapInvariant(Classify(txn, ref, claimExists));
    if ref.Some? && !plan.pending && plan.referenceId == 0 then Ok(plan.(referenceId := ref.value.id)) else Ok(plan)
  }

  function Reject(wall: Wallet, txn: WagerTransaction, reference: TransactionId, code: FailureCode, env: Env)
    : Result<Settled, AppError>
  {
    var rejected :- WrapInvariant(MarkRejected(txn, reference, code, wall.balance, env.now));
    var event :- RejectedEvent(FirstEvent(env), wall, rejected, env);
    Ok(Settled(Effect(Terminal(rejected), false, None, [event]), ResultOf(rejected, false)))
  }

  function AwaitReference(txn: WagerTransaction, env: Env): Result<Settled, AppError> {
    var pending :- WrapInvariant(MarkPendingReference(txn, env.now + REFERENCE_TTL, env.now));
    var event :- PendingEvent(FirstEvent(env), pending, env);
    Ok(Settled(Effect(Row(pending, ReferenceNextAttemptAt(0, env.hash, env.now), 0, 0), false, None, [event]),
               ResultOf(pending, false)))
  }

  function ProcessWithoutMovement(wall: Wallet, txn: WagerTransaction, plan: Plan, env: Env): Result<Settled,
    AppError> {
    var processed :- WrapInvariant(MarkProcessed(txn, plan.referenceId, wall.balance, env.now));
    var event :- ProcessedEvent(FirstEvent(env), wall, processed, wall.balance, env);
    Ok(Settled(Effect(Terminal(processed), false, None, [event]), ResultOf(processed, false)))
  }

  function ExecutePlan(wall: Wallet, txn: WagerTransaction, plan: Plan, env: Env): Result<Settled, AppError> {
    if plan.pending then AwaitReference(txn, env)
    else if plan.failure != NoFailure then Reject(wall, txn, plan.referenceId, plan.failure, env)
    else match plan.movement
      case None => ProcessWithoutMovement(wall, txn, plan, env)
      case Some(move) => ApplyMovement(wall, txn, plan, move, env)
  }

  function ApplyMovement(wall: Wallet, txn: WagerTransaction, plan: Plan, move: Movement,
                         env: Env): Result<Settled, AppError> {
    match if move.direction == Credit then CreditWallet(wall, move.amount, env.now)
      else DebitWallet(wall, move.amount, env.now)
    case Err(InsufficientBalance) =>
      Reject(wall, txn, plan.referenceId, if txn.kind != Bet then ReversalInsufficientFunds else InsufficientFunds, env)
    case Err(e) => Err(Domain(e))
    case Ok(updated) => Transferred(wall, updated, txn, plan, move, env)
  }

  function ClaimFor(txn: WagerTransaction, plan: Plan, env: Env): Result<Option<ReversalClaim>, AppError> {
    if !plan.claim then Ok(None)
    else
      var claim :- WrapInvariant(NewReversalClaim(env.serial, plan.referenceId, txn.id, env.now));
      Ok(Some(claim))
  }

  function Transferred(wall: Wallet, updated: Wallet, txn: WagerTransaction, plan: Plan, move: Movement, env: Env)
    : Result<Settled, AppError>
  {
    var entry :- WrapInvariant(NewLedgerEntry(LedgerEntry(
      env.serial, updated.id, txn.id, move.direction, move.amount, wall.balance, updated.balance, env.now)));
    var processed :- WrapInvariant(MarkProcessed(txn, plan.referenceId, updated.balance, env.now));
    var claim :- ClaimFor(txn, plan, env);
    var first :- ProcessedEvent(FirstEvent(env), updated, processed, updated.balance, env);
    var second :- BalanceEvent(SecondEvent(env), updated, processed, move, wall.balance, updated.balance, env);
    Ok(Settled(Effect(Terminal(processed), false, Some(Transfer(updated, entry, claim)), [first, second]),
               ResultOf(processed, false)))
  }

  function RescheduleReference(txn: WagerTransaction, attempts: nat, env: Env): Result<Settled, AppError> {
    var next := ReferenceNextAttemptAt(attempts + 1, env.hash, env.now);
    var rescheduled :- WrapInvariant(RehydrateTransaction(txn.(updatedAt := env.now)));
    Ok(Settled(Effect(Row(rescheduled, next, attempts + 1, 0), true, None, []), ResultOf(rescheduled, false)))
  }

  function Fail(wall: Wallet, txn: WagerTransaction, env: Env): Result<Settled, AppError> {
    var failed :- WrapInvariant(MarkFailed(txn, wall.balance, env.now));
    Ok(Settled(Effect(Terminal(failed), false, None, []), ResultOf(failed, false)))
  }

  /** The whole decision, for a first submission (txn PENDING) and for a recovery pass (txn PENDING_REFERENCE). */
  function Settle(wall: Wallet, txn: WagerTransaction, attempts: nat, ref: Result<Option<WagerTransaction>, AppError>,
                  claimRead: bool, env: Env)
    : Result<Settled, AppError>
  {
    match ref
    case Err(CorruptRecord) => Fail(wall, txn, env)
    case Err(e) => Err(e)
    case Ok(found) =>
      var plan :- PlanOperation(txn, found, claimRead);
      if txn.state == PendingReference && plan.pending then
        if env.now >= txn.referenceDeadline then Reject(wall, txn, 0, ReferenceNotFound, env)
        else RescheduleReference(txn, attempts, env)
      else
        ExecutePlan(wall, txn, plan, env)
  }

  /** The statements of a settled operation in source order, after the row exists. */
  function EventStatements(events: seq<Event>): seq<Statement> {
    seq(|events|, i requires 0 <= i < |events| => AppendEvent(events[i]))
  }

  function TransferStatements(t: Transfer): seq<Statement> {
    [SaveBalance(t.wallet), AppendLedger(t.entry)] + (if t.claim.Some? then [AppendClaim(t.claim.value)] else [])
  }

  function Statements(e: Effect): seq<Statement> {
    if e.rescheduled then [Reschedule(e.row.txn.id, e.row.txn.updatedAt, e.row.nextAttemptAt, e.row.attempts)]
    else (if e.transfer.Some? then TransferStatements(e.transfer.value) else [])
         + [UpdateRow(e.row)] + EventStatements(e.events)
  }

  /** The same change in one piece. */
  function ApplyTransfer(db: Db, t: Transfer): Db {
    db.(wallets := db.wallets[t.wallet.id := t.wallet],
        ledger := db.ledger + [t.entry],
        claims := if t.claim.Some? then db.claims + [t.claim.value] else db.claims)
  }

  function ApplyEffect(db: Db, e: Effect): Db {
    var moved := if e.transfer.Some? then ApplyTransfer(db, e.transfer.value) else db;
    PutRow(moved, e.row).(outbox := db.outbox + e.events)
  }
}
