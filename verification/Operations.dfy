/** Each use case as one whole operation on the committed tables: the meaning the imperative service
    and the interleaved processes are both measured against (internal/application/service.go). */
module Operations {
  import opened Results
  import opened MoneyValue
  import opened Wager
  import opened Wallets
  import opened AppErrors
  import opened Commands
  import opened Resolution
  import opened Tables
  import opened Settlement

  /** Transactions a submission starts at most, and rows a recovery claim takes at most. */
  const MAX_ATTEMPTS := 3
  const CLAIM_BATCH := 50

  /** What one operation does to the tables: nothing but an answer, one settled effect, or an abort. */
  datatype Outcome =
    | Answered(result: WagerResult)
    | Settles(settled: Settled)
    | Refused(error: AppError)

  // ----- Reads -----

  function Rehydrate(row: Row): Result<WagerTransaction, AppError> {
    if RehydrateTransaction(row.txn).Ok? then Ok(row.txn) else Err(CorruptRecord)
  }

  function ReadIndexed<K(==)>(rows: RowTable, index: map<K, TransactionId>, key: K)
    : Result<Option<WagerTransaction>, AppError>
  {
    if key in index && index[key] in rows then
      var txn :- Rehydrate(rows[index[key]]);
      Ok(Some(txn))
    else Ok(None)
  }

  function LookupKey(db: Db, key: ProviderKey): Result<Option<WagerTransaction>, AppError> {
    ReadIndexed(db.rows, db.byKey, key)
  }

  function LookupExternal(db: Db, key: ProviderExternal): Result<Option<WagerTransaction>, AppError> {
    ReadIndexed(db.rows, db.byExternal, key)
  }

  function LookupWallet(db: Db, id: WalletId): Result<Option<Wallet>, AppError> {
    if id in db.wallets then
      if RehydrateWallet(db.wallets[id]).Ok? then Ok(Some(db.wallets[id])) else Err(CorruptRecord)
    else Ok(None)
  }

  function LoadReference(db: Db, txn: WagerTransaction): Result<Option<WagerTransaction>, AppError> {
    if !NeedsReference(txn) then Ok(None) else LookupExternal(db, (txn.providerId, txn.referenceExternalId))
  }

  /** The claim lookup, as far as it is defined. */
  predicate ClaimRead(db: Db, ref: Result<Option<WagerTransaction>, AppError>) {
    ref.Ok? && ref.value.Some? && HasClaim(db.claims, ref.value.value.id)
  }

  // ----- Submission -----

  function ReplayOrConflict(existing: WagerTransaction, cmd: SubmitWagerCommand): Outcome {
    if existing.digest == DigestOf(cmd) && existing.digestVersion == Sha256JcsV1 then Answered(ResultOf(existing, true))
    else Refused(Conflict(IdempotencyConflict))
  }

  /** The answer of the second lookup when it finds a row. */
  function ExternalAnswer(found: WagerTransaction, cmd: SubmitWagerCommand): Outcome {
    if found.idempotencyKey == cmd.idempotencyKey then ReplayOrConflict(found, cmd)
    else Refused(Conflict(ExternalTransactionConflict))
  }

  function ParamsOf(cmd: SubmitWagerCommand, env: Env): ExternalParams {
    ExternalParams(env.serial, cmd.providerId, cmd.externalId, cmd.idempotencyKey, Sha256JcsV1, DigestOf(cmd),
                   cmd.walletId, cmd.playerId, cmd.roundId, cmd.gameId, cmd.kind, cmd.amount, cmd.referenceExternalId,
                     env.now)
  }

  /** The checks between taking the wallet lock and inserting the row. */
  function NewTransaction(wall: Result<Option<Wallet>, AppError>, cmd: SubmitWagerCommand, env: Env)
    : Result<WagerTransaction, AppError>
  {
    var found :- wall;
    if found.None? then Err(NotFound)
    else if found.value.currency != cmd.amount.currency then Err(Contract(UnsupportedCurrency))
    else match NewExternalTransaction(ParamsOf(cmd, env))
      case Err(_) => Err(Contract(InvalidRequest))
      case Ok(txn) => Ok(txn)
  }

  function SettleIn(db: Db, wall: Wallet, txn: WagerTransaction, attempts: nat, env: Env): Outcome {
    var ref := LoadReference(db, txn);
    match Settle(wall, txn, attempts, ref, ClaimRead(db, ref), env)
    case Err(e) => Refused(e)
    case Ok(settled) => Settles(settled)
  }

  function SubmitFresh(db: Db, cmd: SubmitWagerCommand, env: Env): Outcome {
    match NewTransaction(LookupWallet(db, cmd.walletId), cmd, env)
    case Err(e) => Refused(e)
    case Ok(txn) =>
      if cmd.walletId in db.wallets then SettleIn(Apply(db, InsertRow(txn)), db.wallets[cmd.walletId], txn, 0, env)
      else Refused(NotFound)
  }

  function SubmitWithinTx(db: Db, cmd: SubmitWagerCommand, env: Env): Outcome {
    match LookupKey(db, (cmd.providerId, cmd.idempotencyKey))
    case Err(e) => Refused(e)
    case Ok(Some(existing)) => ReplayOrConflict(existing, cmd)
    case Ok(None) =>
      match LookupExternal(db, (cmd.providerId, cmd.externalId))
      case Err(e) => Refused(e)
      case Ok(Some(found)) => ExternalAnswer(found, cmd)
      case Ok(None) => SubmitFresh(db, cmd, env)
  }

  function Submit(db: Db, cmd: SubmitWagerCommand, env: Env): Outcome {
    match Validate(cmd)
    case Err(e) => Refused(e)
    case Ok(_) => SubmitWithinTx(db, cmd, env)
  }

  // ----- Recovery -----

  function Resolve(db: Db, id: TransactionId, env: Env): Outcome {
    if id == 0 then Refused(Contract(InvalidRequest))
    else if id !in db.rows then Refused(NotFound)
    else match Rehydrate(db.rows[id])
      case Err(e) => Refused(e)
      case Ok(txn) =>
        if txn.state.IsTerminal() then Answered(ResultOf(txn, false))
        else if txn.state != PendingReference then Refused(Contract(InvalidRequest))
        else match LookupWallet(db, txn.walletId)
          case Err(e) => Refused(e)
          case Ok(None) => Refused(CorruptRecord)
          case Ok(Some(wall)) => SettleIn(db, wall, txn, db.rows[id].attempts, env)
  }

  /** The committed tables after an outcome: an abort rolls everything back. */
  function After(db: Db, o: Outcome): Db {
    if o.Settles? then ApplyEffect(db, o.settled.effect) else db
  }

  // ----- Inbox -----

  function InboxKeyOf(d: InboxDelivery): InboxKey {
    (d.consumerName, d.messageId)
  }

  datatype InboxOutcome = Duplicate | Handled(outcome: Outcome)

  function SubmitFromInbox(db: Db, cmd: SubmitWagerCommand, delivery: InboxDelivery, env: Env): InboxOutcome {
    match (Validate(cmd), ValidateDelivery(delivery))
    case (Err(e), _) => Handled(Refused(e))
    case (Ok(_), Err(e)) => Handled(Refused(e))
    case (Ok(_), Ok(_)) =>
      if InboxKeyOf(delivery) !in db.inbox then Handled(SubmitWithinTx(db, cmd, env))
      else if db.inbox[InboxKeyOf(delivery)].digest == delivery.digest then Duplicate
      else Handled(Refused(Conflict(InboxPayloadConflict)))
  }

  function CompletedInbox(db: Db, delivery: InboxDelivery, completedAt: Time): Db {
    db.(inbox := db.inbox[InboxKeyOf(delivery) := InboxRow(delivery.digest, delivery.receivedAt, completedAt)])
  }

  /** A duplicate and an abort leave the tables alone; every other answer completes the delivery in the same commit. */
  function AfterInbox(db: Db, o: InboxOutcome, delivery: InboxDelivery, completedAt: Time): Db {
    if o.Duplicate? || o.outcome.Refused? then db
    else CompletedInbox(After(db, o.outcome), delivery, completedAt)
  }

  // ----- Opening -----

  function OpeningEffect(wallet: Wallet, env: Env): Result<Effect, AppError> {
    var opening :- WrapInvariant(NewInternalOpening(env.serial, wallet.id, wallet.playerId, wallet.balance, env.now));
    var processed :- WrapInvariant(MarkProcessed(opening, 0, wallet.balance, env.now));
    var zero := Money(0, wallet.currency);
    var entry :- WrapInvariant(NewLedgerEntry(LedgerEntry(
      env.serial, wallet.id, processed.id, Credit, wallet.balance, zero, wallet.balance, env.now)));
    var first :- ProcessedEvent(FirstEvent(env), wallet, processed, wallet.balance, env);
    var second :- BalanceEvent(SecondEvent(env), wallet, processed, Movement(Credit, wallet.balance), zero,
                               wallet.balance, env);
    Ok(Effect(Terminal(processed), false, Some(Transfer(wallet, entry, None)), [first, second]))
  }

  datatype Opened = Opened(wallet: Wallet, opening: Option<Effect>)

  function OpenWallet(db: Db, cmd: OpenWalletCommand, id: WalletId, env: Env): Result<Opened, AppError> {
    var _ :- ValidateOpen(cmd);
    match NewWallet(id, cmd.playerId, cmd.initialBalance.currency, cmd.initialBalance, env.now)
    case Err(_) => Err(Contract(InvalidRequest))
    case Ok(wallet) =>
      if (wallet.playerId, wallet.currency) in db.owners then Err(Conflict(WalletAlreadyExists))
      else if !wallet.balance.IsPositive() then Ok(Opened(wallet, None))
      else
        var effect :- OpeningEffect(wallet, env);
        Ok(Opened(wallet, Some(effect)))
  }

  function ApplyOpened(db: Db, o: Opened): Db {
    var inserted := Apply(db, InsertWallet(o.wallet));
    if o.opening.Some? then ApplyEffect(inserted, o.opening.value) else inserted
  }

  // ----- Leases -----

  predicate DueReference(row: Row, now: Time) {
    row.txn.state == PendingReference && row.nextAttemptAt <= now && row.claimedUntil <= now
  }

  function LeaseReference(db: Db, id: TransactionId, now: Time, lease: nat): Db {
    if id in db.rows && DueReference(db.rows[id], now) then
      db.(rows := db.rows[id := db.rows[id].(claimedUntil := now + lease, txn := db.rows[id].txn.(updatedAt := now))])
    else db
  }

  /** One ClaimDueReferences statement that picked the given rows. */
  function LeaseReferences(db: Db, picked: seq<TransactionId>, now: Time, lease: nat): Db
    decreases picked
  {
    if picked == [] then db else LeaseReferences(LeaseReference(db, picked[0], now, lease), picked[1..], now, lease)
  }
}
