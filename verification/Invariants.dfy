/** What every committed state satisfies. */
module Invariants {
  import opened MoneyValue
  import opened Wager
  import opened Wallets
  import opened Commands
  import opened Resolution
  import opened Backoff
  import opened Tables
  import opened Settlement

  // ----- Wallets -----

  function OwnerOf(w: Wallet): OwnerKey {
    (w.playerId, w.currency)
  }

  ghost predicate WalletsOk(wallets: WalletTable, owners: map<OwnerKey, WalletId>) {
    && (forall w | w in wallets ::
          WalletOk(wallets[w]) && wallets[w].id == w && OwnerOf(wallets[w]) in owners
            && owners[OwnerOf(wallets[w])] == w)
    && (forall k | k in owners :: owners[k] in wallets && OwnerOf(wallets[owners[k]]) == k)
  }

  // ----- Rows -----

  /** The command a provider row was accepted from. */
  function CommandOf(t: WagerTransaction): SubmitWagerCommand {
    SubmitWagerCommand(t.providerId, t.externalId, t.idempotencyKey, t.walletId, t.playerId, t.roundId, t.gameId,
                       t.kind, t.amount, t.referenceExternalId)
  }

  predicate StateOk(row: Row) {
    var t := row.txn;
    match t.state
    case Pending => false
    case Failed => false
    case PendingReference =>
      && t.failureCode == NoFailure && t.observedBalance == NO_MONEY && NeedsReference(t) && t.referenceId == 0
      && t.referenceDeadline == t.createdAt + REFERENCE_TTL && row.nextAttemptAt > t.createdAt
    case Processed =>
      && t.failureCode == NoFailure && t.observedBalance.currency == t.amount.currency
         && t.observedBalance.minorUnits >= 0
      && row == Terminal(t)
    case Rejected =>
      && t.failureCode != NoFailure && t.failureCode != PermanentInfrastructure
      && t.observedBalance.currency == t.amount.currency && t.observedBalance.minorUnits >= 0
      && row == Terminal(t)
  }

  predicate OriginOk(t: WagerTransaction) {
    if t.origin == External
    then Submittable(t) && t.digestVersion == Sha256JcsV1 && t.digest == DigestOf(CommandOf(t))
    else t.kind == Opening && t.amount.minorUnits > 0 && t.state == Processed && t.referenceId == 0
  }

  predicate RowOk(row: Row) {
    && RehydrateTransaction(row.txn).Ok? && OriginOk(row.txn) && StateOk(row)
    && (row.txn.referenceDeadline != 0 ==> NeedsReference(row.txn))
  }

  ghost predicate RowsOk(rows: RowTable, wallets: WalletTable) {
    forall id | id in rows ::
      && RowOk(rows[id]) && rows[id].txn.id == id
      && rows[id].txn.walletId in wallets
      && rows[id].txn.amount.currency == wallets[rows[id].txn.walletId].currency
      && (rows[id].txn.referenceId != 0 ==> rows[id].txn.referenceId in rows)
  }

  /** Each unique index maps exactly the provider rows. */
  ghost predicate IndexOk<K(!new)>(rows: RowTable, index: map<K, TransactionId>, key: WagerTransaction -> K) {
    && (forall k | k in index ::
          index[k] in rows && rows[index[k]].txn.origin == External && key(rows[index[k]].txn) == k)
    && (forall id | id in rows && rows[id].txn.origin == External ::
          key(rows[id].txn) in index && index[key(rows[id].txn)] == id)
  }

  // ----- Ledger -----

  predicate IsProcessed(rows: RowTable, id: TransactionId) {
    id in rows && rows[id].txn.state == Processed
  }

  /** Processed rows that moved money: all but LOSS. */
  predicate Posted(rows: RowTable, id: TransactionId) {
    IsProcessed(rows, id) && rows[id].txn.kind != Loss
  }

  /** The direction a processed row's kind and its reference's kind dictate. */
  function DirectionOf(rows: RowTable, t: WagerTransaction): Direction {
    match t.kind
    case Bet => Debit
    case Rollback => if t.referenceId in rows && rows[t.referenceId].txn.kind == Bet then Credit else Debit
    case _ => Credit
  }

  predicate EntryOk(rows: RowTable, e: LedgerEntry) {
    && Posted(rows, e.transactionId)
    && var t := rows[e.transactionId].txn;
       && e.id != 0 && e.createdAt != 0 && e.walletId == t.walletId && e.amount == t.amount && e.amount.minorUnits > 0
       && e.balanceAfter == t.observedBalance && e.direction == DirectionOf(rows, t)
       && e.balanceBefore.currency == t.amount.currency && e.balanceBefore.minorUnits >= 0
       && e.balanceAfter.minorUnits == e.balanceBefore.minorUnits + Signed(e)
  }

  predicate HasEntry(ledger: seq<LedgerEntry>, id: TransactionId) {
    exists i | 0 <= i < |ledger| :: ledger[i].transactionId == id
  }

  /** The balance the ledger leaves a wallet with: its last posting's, or zero. */
  function LastBalance(ledger: seq<LedgerEntry>, w: WalletId): int {
    if ledger == [] then 0
    else if ledger[|ledger| - 1].walletId == w then ledger[|ledger| - 1].balanceAfter.minorUnits
    else LastBalance(ledger[..|ledger| - 1], w)
  }

  /** Every posting starts at the balance its wallet's previous posting left. */
  predicate Chained(ledger: seq<LedgerEntry>) {
    forall i | 0 <= i < |ledger| :: ledger[i].balanceBefore.minorUnits == LastBalance(ledger[..i], ledger[i].walletId)
  }

  /** The postings of a wallet not made by its OPENING. */
  function Movements(rows: RowTable, ledger: seq<LedgerEntry>, w: WalletId): nat {
    if ledger == [] then 0
    else
      var e := ledger[|ledger| - 1];
      Movements(rows, ledger[..|ledger| - 1], w)
      + if e.walletId == w && e.transactionId in rows && rows[e.transactionId].txn.kind != Opening then 1 else 0
  }

  ghost predicate LedgerOk(rows: RowTable, ledger: seq<LedgerEntry>) {
    && (forall i | 0 <= i < |ledger| :: EntryOk(rows, ledger[i]))
    && (forall i, j | 0 <= i < j < |ledger| ::
          ledger[i].transactionId != ledger[j].transactionId && ledger[i].id != ledger[j].id)
    && (forall id | Posted(rows, id) :: HasEntry(ledger, id))
  }

  // ----- Claims -----

  /** A claim ties a processed compensation to the processed operation it reverses. */
  predicate ClaimOk(rows: RowTable, c: ReversalClaim) {
    && IsProcessed(rows, c.reference) && IsProcessed(rows, c.reversal) && c.reference != c.reversal
    && var x, y := rows[c.reversal].txn, rows[c.reference].txn;
       && x.referenceId == c.reference && MayReverse(x.kind, y.kind)
       && x.walletId == y.walletId && x.playerId == y.playerId && x.roundId == y.roundId && x.amount == y.amount
  }

  predicate IsReversal(claims: seq<ReversalClaim>, id: TransactionId) {
    exists i | 0 <= i < |claims| :: claims[i].reversal == id
  }

  ghost predicate ClaimsOk(rows: RowTable, claims: seq<ReversalClaim>) {
    && (forall i | 0 <= i < |claims| :: ClaimOk(rows, claims[i]))
    && (forall i, j | 0 <= i < j < |claims| ::
          claims[i].reference != claims[j].reference && claims[i].reversal != claims[j].reversal)
    && (forall id | IsProcessed(rows, id) && IsClaimingKind(rows[id].txn.kind) :: IsReversal(claims, id))
  }

  // ----- Events -----

  datatype EventKind = OfProcessed | OfRejected | OfBalance | OfPending

  function KindOfEvent(e: Event): EventKind {
    match e.data
    case ProcessedData(_, _, _, _, _, _, _, _, _, _, _) => OfProcessed
    case RejectedData(_, _, _, _, _, _, _, _, _) => OfRejected
    case BalanceChangedData(_, _, _, _, _, _, _) => OfBalance
    case PendingReferenceData(_, _, _, _, _, _, _, _) => OfPending
  }

  function Tally(outbox: seq<Event>, kind: EventKind, id: TransactionId): nat {
    if outbox == [] then 0
    else
      var e := outbox[|outbox| - 1];
      Tally(outbox[..|outbox| - 1], kind, id) + if KindOfEvent(e) == kind && e.data.transactionId == id then 1 else 0
  }

  /** How many events of each kind a row has caused. */
  function Expected(rows: RowTable, kind: EventKind, id: TransactionId): nat {
    if id !in rows then 0
    else
      var t := rows[id].txn;
      match kind
      case OfProcessed => if t.state == Processed then 1 else 0
      case OfRejected => if t.state == Rejected then 1 else 0
      case OfBalance => if t.state == Processed && t.kind != Loss then 1 else 0
      case OfPending => if t.referenceDeadline != 0 then 1 else 0
  }

  /** An event tells its row's story. */
  predicate EventOk(rows: RowTable, wallets: WalletTable, e: Event) {
    && e.id != 0 && e.data.transactionId in rows
    && var t := rows[e.data.transactionId].txn;
       && e.aggregateId == t.walletId && e.data.walletId == t.walletId && e.data.money == t.amount
       && match e.data
          case ProcessedData(_, origin, provider, external, w, player, round, game, kind, _, balance) =>
            && t.state == Processed && origin == t.origin && provider == t.providerId && external == t.externalId
            && w in wallets && player == wallets[w].playerId
            && round == t.roundId && game == t.gameId && kind == t.kind && balance == t.observedBalance
          case RejectedData(_, provider, external, _, kind, _, code, balance, reference) =>
            && t.state == Rejected && provider == t.providerId && external == t.externalId && kind == t.kind
            && code == t.failureCode && balance == t.observedBalance && reference == t.referenceExternalId
          case BalanceChangedData(_, _, direction, _, before, after, _) =>
            && t.state == Processed && t.kind != Loss && direction == DirectionOf(rows, t) && after == t.observedBalance
            && after.minorUnits == before.minorUnits + (if direction == Credit then t.amount.minorUnits
                                                        else -(t.amount.minorUnits as int))
          case PendingReferenceData(_, provider, external, _, kind, _, reference, expires) =>
            && provider == t.providerId && external == t.externalId && kind == t.kind
               && reference == t.referenceExternalId
            && t.referenceDeadline != 0 && expires == t.referenceDeadline
  }

  /** What a consumer of balance events knows about a wallet: the newest balance and version, (0, 1) before any
      event. */
  function Replay(outbox: seq<Event>, w: WalletId): (int, int) {
    if outbox == [] then (0, 1)
    else
      var e := outbox[|outbox| - 1];
      if KindOfEvent(e) == OfBalance && e.data.walletId == w then (e.data.balanceAfter.minorUnits, e.data.walletVersion)
      else Replay(outbox[..|outbox| - 1], w)
  }

  /** Balance events of a wallet follow on from one another and their versions rise by one;
      only an OPENING's event repeats the initial version. */
  predicate EventChain(rows: RowTable, outbox: seq<Event>, i: nat)
    requires i < |outbox|
  {
    var e := outbox[i];
    KindOfEvent(e) == OfBalance && e.data.transactionId in rows ==>
      && e.data.balanceBefore.minorUnits == Replay(outbox[..i], e.data.walletId).0
      && e.data.walletVersion == Replay(outbox[..i], e.data.walletId).1
                                 + (if rows[e.data.transactionId].txn.kind == Opening then 0 else 1)
  }

  ghost predicate EventsOk(rows: RowTable, wallets: WalletTable, outbox: seq<Event>) {
    && (forall i | 0 <= i < |outbox| :: EventOk(rows, wallets, outbox[i]))
    && (forall i, j | 0 <= i < j < |outbox| :: outbox[i].id != outbox[j].id)
  }

  ghost predicate TallyOk(rows: RowTable, outbox: seq<Event>) {
    forall kind, id :: Tally(outbox, kind, id) == Expected(rows, kind, id)
  }

  ghost predicate EventsChained(rows: RowTable, outbox: seq<Event>) {
    forall i | 0 <= i < |outbox| :: EventChain(rows, outbox, i)
  }

  // ----- Inbox -----

  /** A delivery is recorded only together with its operation. */
  ghost predicate InboxOk(inbox: map<InboxKey, InboxRow>, byKey: map<ProviderKey, TransactionId>) {
    forall k | k in inbox ::
      && inbox[k].completedAt != 0
      && (inbox[k].digest.command.providerId, inbox[k].digest.command.idempotencyKey) in byKey
  }

  // ----- Conservation -----

  /** The compensation that claimed an operation, or 0. */
  function ReversalOf(claims: seq<ReversalClaim>, id: TransactionId): TransactionId {
    if claims == [] then 0
    else if claims[|claims| - 1].reference == id then claims[|claims| - 1].reversal
    else ReversalOf(claims[..|claims| - 1], id)
  }

  /** A bet stands unless something compensates it; a refund that was itself rolled back no longer does. */
  predicate BetStands(rows: RowTable, claims: seq<ReversalClaim>, id: TransactionId) {
    var r := ReversalOf(claims, id);
    r == 0 || (r in rows && rows[r].txn.kind == Refund && ReversalOf(claims, r) != 0)
  }

  /** What an operation leaves on its wallet after all compensations. */
  function NetEffect(rows: RowTable, claims: seq<ReversalClaim>, id: TransactionId): int {
    if id !in rows then 0
    else
      var t := rows[id].txn;
      match t.kind
      case Opening => t.amount.minorUnits
      case Win => if ReversalOf(claims, id) == 0 then t.amount.minorUnits else 0
      case Bet => if BetStands(rows, claims, id) then -(t.amount.minorUnits as int) else 0
      case _ => 0
  }

  /** The net effects of all operations posted to a wallet. */
  function NetTotal(rows: RowTable, claims: seq<ReversalClaim>, ledger: seq<LedgerEntry>, w: WalletId): int {
    if ledger == [] then 0
    else
      var e := ledger[|ledger| - 1];
      NetTotal(rows, claims, ledger[..|ledger| - 1], w)
      + if e.walletId == w then NetEffect(rows, claims, e.transactionId) else 0
  }

  // ----- All together -----

  ghost predicate StructureOk(db: Db) {
    && WalletsOk(db.wallets, db.owners)
    && RowsOk(db.rows, db.wallets)
    && IndexOk(db.rows, db.byKey, KeyOf) && IndexOk(db.rows, db.byExternal, ExternalOf)
    && LedgerOk(db.rows, db.ledger) && Chained(db.ledger)
    && ClaimsOk(db.rows, db.claims)
    && EventsOk(db.rows, db.wallets, db.outbox) && TallyOk(db.rows, db.outbox) && EventsChained(db.rows, db.outbox)
    && InboxOk(db.inbox, db.byKey)
  }

  /** A wallet agrees with its ledger, with the events that announced it and with the sum of the net effects. */
  ghost predicate Agrees(w: Wallet, rows: RowTable, ledger: seq<LedgerEntry>, claims: seq<ReversalClaim>,
                         outbox: seq<Event>) {
    && w.balance.minorUnits == LastBalance(ledger, w.id)
    && w.version == 1 + Movements(rows, ledger, w.id)
    && Replay(outbox, w.id) == (w.balance.minorUnits as int, w.version)
    && NetTotal(rows, claims, ledger, w.id) == w.balance.minorUnits
  }

  ghost predicate WalletAgrees(db: Db, w: WalletId) {
    w in db.wallets && Agrees(db.wallets[w], db.rows, db.ledger, db.claims, db.outbox)
  }

  ghost predicate Inv(db: Db) {
    StructureOk(db) && forall w | w in db.wallets :: WalletAgrees(db, w)
  }

  /** No row, posting or event has used the identity yet. */
  ghost predicate SerialFresh(db: Db, serial: nat) {
    && serial !in db.rows
    && (forall i | 0 <= i < |db.ledger| :: db.ledger[i].id != serial)
    && (forall i | 0 <= i < |db.outbox| :: db.outbox[i].id != 2 * serial && db.outbox[i].id != 2 * serial + 1)
  }

  lemma EmptyIsGood()
    ensures Inv(EMPTY)
  {
  }
}
