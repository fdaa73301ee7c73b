/** The tables, their unique indexes and the statements that write them
    (internal/adapters/postgres, migrations, internal/domain/event/event.go). */
module Tables {
  import opened Results
  import opened MoneyValue
  import opened Wager
  import opened Wallets
  import opened AppErrors
  import opened Commands

  /** A wager_transactions row: the operation and its retry schedule (0 is NULL). */
  datatype Row = Row(txn: WagerTransaction, nextAttemptAt: Time, attempts: nat, claimedUntil: Time)

  datatype EventData =
    | ProcessedData(
        transactionId: TransactionId, origin: Origin, providerId: ProviderId, externalId: ExternalId,
          walletId: WalletId,
        playerId: PlayerId, roundId: ExternalId, gameId: ExternalId, kind: Kind, money: Money, balance: Money)
    | RejectedData(
        transactionId: TransactionId, providerId: ProviderId, externalId: ExternalId, walletId: WalletId, kind: Kind,
        money: Money, failureCode: FailureCode, balance: Money, referenceExternalId: ExternalId)
    | BalanceChangedData(
        walletId: WalletId, transactionId: TransactionId, direction: Direction, money: Money,
        balanceBefore: Money, balanceAfter: Money, walletVersion: int)
    | PendingReferenceData(
        transactionId: TransactionId, providerId: ProviderId, externalId: ExternalId, walletId: WalletId, kind: Kind,
        money: Money, referenceExternalId: ExternalId, expiresAt: Time)

  datatype Event = Event(id: EventId, aggregateId: WalletId, correlationId: string, occurredAt: Time, data: EventData)

  /** The envelope constructor's metadata checks. */
  function NewEvent(id: EventId, aggregateId: WalletId, correlationId: string, occurredAt: Time, data: EventData)
    : Result<Event, AppError>
  {
    if id == 0 || aggregateId == "" || correlationId == "" || occurredAt == 0 then Err(Invariant)
    else Ok(Event(id, aggregateId, correlationId, occurredAt, data))
  }

  datatype InboxRow = InboxRow(digest: Body, receivedAt: Time, completedAt: Time)

  type ProviderKey = (ProviderId, IdempotencyKey)
  type ProviderExternal = (ProviderId, ExternalId)
  type InboxKey = (string, string)
  type OwnerKey = (PlayerId, string)

  type WalletTable = map<WalletId, Wallet>
  type RowTable = map<TransactionId, Row>

  /** The committed tables. owners, byKey and byExternal are the unique indexes a lookup reads and an insert checks.
      Ledger, claims and outbox are in commit order. Claims carry no index: their uniqueness is proved, not enforced. */
  datatype Db = Db(
    wallets: WalletTable,
    owners: map<OwnerKey, WalletId>,
    rows: RowTable,
    byKey: map<ProviderKey, TransactionId>,
    byExternal: map<ProviderExternal, TransactionId>,
    ledger: seq<LedgerEntry>,
    claims: seq<ReversalClaim>,
    outbox: seq<Event>,
    inbox: map<InboxKey, InboxRow>)

  const EMPTY := Db(map[], map[], map[], map[], map[], [], [], [], map[])

  function KeyOf(txn: WagerTransaction): ProviderKey {
    (txn.providerId, txn.idempotencyKey)
  }

  function ExternalOf(txn: WagerTransaction): ProviderExternal {
    (txn.providerId, txn.externalId)
  }

  predicate HasClaim(claims: seq<ReversalClaim>, reference: TransactionId) {
    exists i | 0 <= i < |claims| :: claims[i].reference == reference
  }

  datatype Statement =
    | InsertWallet(wallet: Wallet)
    | InsertRow(txn: WagerTransaction)
    | SaveBalance(wallet: Wallet)
    | AppendLedger(entry: LedgerEntry)
    | AppendClaim(claim: ReversalClaim)
    | UpdateRow(row: Row)
    | Reschedule(id: TransactionId, now: Time, nextAttemptAt: Time, attempts: nat)
    | AppendEvent(event: Event)
    | BeginInbox(key: InboxKey, digest: Body, receivedAt: Time)
    | CompleteInbox(key: InboxKey, completedAt: Time)

  /** The columns an UPDATE of a transaction row writes; all others keep their stored value. */
  function UpdatedRow(stored: Row, next: Row): Row {
    Row(stored.txn.(
          state := next.txn.state,
          failureCode := next.txn.failureCode,
          observedBalance := next.txn.observedBalance,
          referenceId := next.txn.referenceId,
          referenceDeadline := next.txn.referenceDeadline,
          updatedAt := next.txn.updatedAt),
        next.nextAttemptAt, next.attempts, 0)
  }

  /** One write statement. An UPDATE of a missing row changes nothing. */
  function Apply(db: Db, s: Statement): Db {
    match s
    case InsertWallet(w) => db.(wallets := db.wallets[w.id := w], owners := db.owners[(w.playerId, w.currency) := w.id])
    case InsertRow(txn) => PutRow(db, Row(txn, 0, 0, 0))
    case SaveBalance(w) =>
      if w.id in db.wallets
      then db.(wallets := db.wallets[w.id := db.wallets[w.id].(balance := w.balance, version := w.version,
                                                               updatedAt := w.updatedAt)])
      else db
    case AppendLedger(entry) => db.(ledger := db.ledger + [entry])
    case AppendClaim(claim) => db.(claims := db.claims + [claim])
    case UpdateRow(row) =>
      if row.txn.id in db.rows then db.(rows := db.rows[row.txn.id := UpdatedRow(db.rows[row.txn.id], row)]) else db
    case Reschedule(id, now, next, attempts) =>
      if id in db.rows
      then db.(rows := db.rows[id := Row(db.rows[id].txn.(updatedAt := now), next, attempts, 0)])
      else db
    case AppendEvent(event) => db.(outbox := db.outbox + [event])
    case BeginInbox(key, digest, receivedAt) => db.(inbox := db.inbox[key := InboxRow(digest, receivedAt, 0)])
    case CompleteInbox(key, completedAt) =>
      if key in db.inbox then db.(inbox := db.inbox[key := db.inbox[key].(completedAt := completedAt)]) else db
  }

  /** Stores a row and, for a provider operation, its two index entries (NULL keys are not indexed). */
  function PutRow(db: Db, row: Row): Db {
    if row.txn.origin == External then
      db.(rows := db.rows[row.txn.id := row],
          byKey := db.byKey[KeyOf(row.txn) := row.txn.id],
          byExternal := db.byExternal[ExternalOf(row.txn) := row.txn.id])
    else
      db.(rows := db.rows[row.txn.id := row])
  }

  function ApplyAll(db: Db, ss: seq<Statement>): Db
    decreases ss
  {
    if ss == [] then db else ApplyAll(Apply(db, ss[0]), ss[1..])
  }

  lemma {:induction false} ApplyAllConcat(db: Db, a: seq<Statement>, b: seq<Statement>)
    ensures ApplyAll(db, a + b) == ApplyAll(ApplyAll(db, a), b)
    decreases a
  {
    if a == [] {
      assert a + b == b;
    } else {
      assert (a + b)[1..] == a[1..] + b;
      ApplyAllConcat(Apply(db, a[0]), a[1..], b);
    }
  }
}
