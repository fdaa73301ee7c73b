/** What a transaction in progress knows about the committed tables, and why no other transaction can take it away
    (row locks and unique indexes under Read Committed: internal/application/service.go:205-332). */
module Noninterference {
  import opened Results
  import opened MoneyValue
  import opened Wager
  import opened Wallets
  import opened AppErrors
  import opened Commands
  import opened Resolution
  import opened Backoff
  import opened Tables
  import opened Settlement
  import opened Operations
  import opened Invariants
  import opened SettlementSafety
  import opened OperationSafety
  import opened Interleaving
  import OpeningSafety

  // ----- How the tables may change -----

  ghost predicate Extends<K(!new), V(!new)>(a: map<K, V>, b: map<K, V>) {
    forall k | k in a :: k in b && b[k] == a[k]
  }

  /** Rows keep the command they were accepted from, and terminal rows never change again. */
  ghost predicate RowsGrow(a: RowTable, b: RowTable) {
    forall id | id in a ::
             id in b && SameCommand(a[id].txn, b[id].txn) && (a[id].txn.state.IsTerminal() ==> b[id] == a[id])
  }

  /** Nothing stored is lost: identities stay, logs only grow. */
  ghost predicate Grows(a: Db, b: Db) {
    && (forall w | w in a.wallets :: w in b.wallets && OwnerOf(a.wallets[w]) == OwnerOf(b.wallets[w]))
    && Extends(a.owners, b.owners)
    && RowsGrow(a.rows, b.rows)
    && Extends(a.byKey, b.byKey) && Extends(a.byExternal, b.byExternal) && Extends(a.inbox, b.inbox)
    && a.ledger <= b.ledger && a.claims <= b.claims && a.outbox <= b.outbox
  }

  ghost predicate NewKeysIn<K(!new), V(!new)>(a: map<K, V>, b: map<K, V>, held: set<K>) {
    forall k | k in b && k !in held :: k in a
  }

  ghost predicate WalletsWithin(a: WalletTable, b: WalletTable, held: set<WalletId>) {
    forall w | w in b && w !in held :: w in a && b[w] == a[w]
  }

  ghost predicate RowsWithin(a: RowTable, b: RowTable, held: set<TransactionId>) {
    forall id | id in b && id !in held :: id in a && b[id] == a[id]
  }

  /** States and claims change, and rows appear, only on the wallets held. */
  ghost predicate DecisionsWithin(a: Db, b: Db, held: set<WalletId>) {
    forall id | id in b.rows && b.rows[id].txn.walletId !in held ::
      && id in a.rows && b.rows[id].txn.state == a.rows[id].txn.state
      && HasClaim(b.claims, id) == HasClaim(a.claims, id)
  }

  /** The change touches nothing outside what was held. */
  ghost predicate Within(a: Db, b: Db, f: Footprint) {
    && WalletsWithin(a.wallets, b.wallets, f.wallets)
    && RowsWithin(a.rows, b.rows, f.rows)
    && DecisionsWithin(a, b, f.wallets)
    && NewKeysIn(a.owners, b.owners, f.owners)
    && NewKeysIn(a.byKey, b.byKey, f.keys) && NewKeysIn(a.byExternal, b.byExternal, f.externals)
    && NewKeysIn(a.inbox, b.inbox, f.inboxes)
  }

  lemma GrowthComposes(a: Db, b: Db, c: Db)
    requires Grows(a, b) && Grows(b, c)
    ensures Grows(a, c)
  {
  }

  // ----- What a transaction in progress knows -----

  predicate OpOk(op: Op) {
    && Precheck(op).Ok?
    && (op.Submission? && op.delivery.Some? ==> op.delivery.value.digest.command == op.cmd)
  }

  /** The writes a submission has made before its operation's own. */
  function InboxPrefix(op: Op): seq<Statement> {
    if op.Submission? && op.delivery.Some?
    then [BeginInbox(InboxKeyOf(op.delivery.value), op.delivery.value.digest, op.delivery.value.receivedAt)] else []
  }

  predicate InboxFree(db: Db, op: Op) {
    op.Submission? && op.delivery.Some? ==> InboxKeyOf(op.delivery.value) !in db.inbox
  }

  predicate Begun(db: Db, pr: Proc) {
    pr.op.Submission? && InboxFree(db, pr.op) && pr.done == InboxPrefix(pr.op) && pr.todo == []
  }

  /** The wallet is locked and the operation to decide is known. */
  ghost predicate Locked(db: Db, op: Op, w: Work) {
    && EnvOk(w.env) && WalletRead(db, w.wall, w.txn) && RehydrateWallet(w.wall).Ok?
    && match op
       case Submission(cmd, _) =>
         && w.attempts == 0 && NewTransaction(Ok(Some(w.wall)), cmd, w.env) == Ok(w.txn)
            && w.txn.walletId == cmd.walletId
       case Recovery(id) =>
         && id == w.txn.id && id in db.rows && db.rows[id].txn == w.txn && db.rows[id].attempts == w.attempts
       case OpenAccount(_, _) => false
  }

  /** The operation's row is in place, uncommitted for a submission, locked for a recovery pass. */
  ghost predicate InPlace(db: Db, op: Op, w: Work) {
    Locked(db, op, w) && Settleable(db, w.txn, w.env) && InboxFree(db, op)
      && (op.Submission? ==> w.txn.state == Pending)
  }

  function WorkPrefix(op: Op, w: Work): seq<Statement> {
    InboxPrefix(op) + if op.Submission? then [InsertRow(w.txn)] else []
  }

  /** Not finding the reference stays true on the locked wallet: it may only have appeared on another one. */
  ghost predicate StillAbsent(db: Db, t: WagerTransaction) {
    var key := (t.providerId, t.referenceExternalId);
    && key != ExternalOf(t)
    && (key in db.byExternal ==>
          db.byExternal[key] in db.rows && db.rows[db.byExternal[key]].txn.walletId != t.walletId)
  }

  /** The reference was found under the external identity the operation names. */
  predicate FoundUnder(db: Db, t: WagerTransaction, id: TransactionId) {
    var key := (t.providerId, t.referenceExternalId);
    if id == t.id then key == ExternalOf(t) else key in db.byExternal && db.byExternal[key] == id
  }

  ghost predicate ReferenceKnown(db: Db, t: WagerTransaction, ref: Result<Option<WagerTransaction>, AppError>,
                                 claimRead: bool) {
    && ref.Ok? && ReferenceRead(db, t, ref.value, claimRead)
    && (ref.value.Some? ==> FoundUnder(db, t, ref.value.value.id))
    && (ref.value.None? && NeedsReference(t) ==> StillAbsent(db, t))
  }

  /** An answer about a row tells its command and, once the operation has ended, its outcome; until then it tells that
      the operation waits, and until when. */
  predicate Witnesses(t: WagerTransaction, result: WagerResult) {
    && TellsCommand(result, t)
    && if result.state.IsTerminal() then TellsOutcome(result, t)
       else result.state == PendingReference && result.failureCode == NoFailure && result.observedBalance == NO_MONEY
              && result.referenceDeadline == t.createdAt + REFERENCE_TTL
  }

  /** The row behind an answer: it is stored under the command's own key and projection. */
  predicate AnsweredBy(db: Db, cmd: SubmitWagerCommand, result: WagerResult) {
    var k := (cmd.providerId, cmd.idempotencyKey);
    && k in db.byKey && db.byKey[k] in db.rows && result.transactionId == db.byKey[k]
    && var t := db.rows[db.byKey[k]].txn;
       t.digest == DigestOf(cmd) && t.digestVersion == Sha256JcsV1 && Witnesses(t, result)
  }

  /** The row behind the answer of a recovery pass. */
  predicate ResolvedBy(db: Db, id: TransactionId, result: WagerResult) {
    id in db.rows && result.transactionId == id && !result.replay && Witnesses(db.rows[id].txn, result)
  }

  ghost predicate Wrote(pr: Proc, w: Work, settled: Settled, completedAt: Time) {
    && completedAt != 0
    && pr.done + pr.todo == WorkPrefix(pr.op, w) + Statements(settled.effect) + CompletionOf(pr.op, completedAt)
  }

  ghost predicate AccountReady(db: Db, o: Opened, env: Env) {
    && EnvOk(env) && WalletOk(o.wallet) && o.wallet.version == 1
    && o.wallet.id !in db.wallets && OwnerOf(o.wallet) !in db.owners && env.serial !in db.rows
    && o.opening == (if o.wallet.balance.minorUnits > 0 then Some(OpeningSafety.OpenedEffect(o.wallet, env)) else None)
  }

  ghost predicate AccountWriting(db: Db, pr: Proc, o: Opened, env: Env) {
    && pr.op.OpenAccount? && o.wallet.id == pr.op.walletId && AccountReady(db, o, env)
    && o.wallet.balance == pr.op.open.initialBalance && o.wallet.playerId == pr.op.open.playerId
    && o.wallet.createdAt == env.now == o.wallet.updatedAt
    && pr.done + pr.todo == OpenStatements(o)
  }

  ghost predicate PhaseOk(db: Db, pr: Proc) {
    match pr.phase
    case BeginningInbox => pr.op.Submission? && pr.op.delivery.Some? && pr.done == [] && pr.todo == []
    case LookingUpKey => Begun(db, pr)
    case LookingUpExternal => Begun(db, pr)
    case LockingWallet => Begun(db, pr)
    case Inserting(w) => Begun(db, pr) && Locked(db, pr.op, w)
    case LockingRow => pr.op.Recovery? && pr.done == [] && pr.todo == []
    case LockingRowWallet(row) =>
      && pr.op.Recovery? && pr.done == [] && pr.todo == []
      && pr.op.id in db.rows && db.rows[pr.op.id] == row && row.txn.id == pr.op.id && row.txn.state == PendingReference
    case ReadingReference(w) => InPlace(db, pr.op, w) && pr.done == WorkPrefix(pr.op, w) && pr.todo == []
    case ReadingClaim(w, ref) =>
      && InPlace(db, pr.op, w) && pr.done == WorkPrefix(pr.op, w) && pr.todo == []
      && ReferenceKnown(db, w.txn, ref, ClaimRead(db, ref))
    case Writing(w, ref, claimRead, settled, completedAt) =>
      && InPlace(db, pr.op, w) && ReferenceKnown(db, w.txn, ref, claimRead)
      && Settle(w.wall, w.txn, w.attempts, ref, claimRead, w.env) == Ok(settled)
      && Wrote(pr, w, settled, completedAt)
    case Completing(result, completedAt) =>
      && pr.op.Submission? && pr.op.delivery.Some? && InboxFree(db, pr.op) && completedAt != 0
      && pr.done + pr.todo == InboxPrefix(pr.op) + CompletionOf(pr.op, completedAt)
      && AnsweredBy(db, pr.op.cmd, result) && result.replay
    case InsertingAccount(openedAt) => openedAt != 0 && pr.op.OpenAccount? && pr.done == [] && pr.todo == []
    case WritingAccount(o, env) => AccountWriting(db, pr, o, env)
    case Finished(_) => true
  }

  /** Every final answer is witnessed by committed rows. */
  ghost predicate AnswerOk(db: Db, op: Op, a: Answer) {
    match a
    case Success(result) =>
      && (op.Submission? ==>
            && AnsweredBy(db, op.cmd, result)
            && (op.delivery.Some? ==>
                  InboxKeyOf(op.delivery.value) in db.inbox
                    && db.inbox[InboxKeyOf(op.delivery.value)].digest == op.delivery.value.digest))
      && (op.Recovery? ==> ResolvedBy(db, op.id, result))
    case DuplicateDelivery =>
      && op.Submission? && op.delivery.Some? && InboxKeyOf(op.delivery.value) in db.inbox
      && db.inbox[InboxKeyOf(op.delivery.value)].digest == op.delivery.value.digest
    case AccountOpened => op.OpenAccount? && op.walletId in db.wallets
    case Failure(error) => ConflictOk(db, op, error)
    case GaveUp => true
  }

  /** A conflict answer names a committed row that differs from the command. */
  ghost predicate ConflictOk(db: Db, op: Op, error: AppError) {
    match error
    case Conflict(IdempotencyConflict) =>
      && op.Submission? && (op.cmd.providerId, op.cmd.idempotencyKey) in db.byKey
      && db.byKey[(op.cmd.providerId, op.cmd.idempotencyKey)] in db.rows
      && db.rows[db.byKey[(op.cmd.providerId, op.cmd.idempotencyKey)]].txn.digest != DigestOf(op.cmd)
    case Conflict(ExternalTransactionConflict) =>
      && op.Submission? && (op.cmd.providerId, op.cmd.externalId) in db.byExternal
      && db.byExternal[(op.cmd.providerId, op.cmd.externalId)] in db.rows
      && db.rows[db.byExternal[(op.cmd.providerId, op.cmd.externalId)]].txn.idempotencyKey != op.cmd.idempotencyKey
    case Conflict(InboxPayloadConflict) =>
      && op.Submission? && op.delivery.Some? && InboxKeyOf(op.delivery.value) in db.inbox
      && db.inbox[InboxKeyOf(op.delivery.value)].digest != op.delivery.value.digest
    case Conflict(WalletAlreadyExists) =>
      op.OpenAccount? && (op.open.playerId, op.open.initialBalance.currency) in db.owners
    case Conflict(_) => false
    case _ => true
  }

  ghost predicate ProcOk(db: Db, pr: Proc) {
    if pr.phase.Finished? then AnswerOk(db, pr.op, pr.phase.answer) else OpOk(pr.op) && PhaseOk(db, pr)
  }

  // ----- Knowledge survives changes elsewhere -----

  lemma DisjointParts(a: Footprint, b: Footprint)
    requires Disjoint(a, b)
    ensures forall w | w in b.wallets :: w !in a.wallets
    ensures forall id | id in b.rows :: id !in a.rows
    ensures forall k | k in b.keys :: k !in a.keys
    ensures forall k | k in b.externals :: k !in a.externals
    ensures forall k | k in b.inboxes :: k !in a.inboxes
    ensures forall k | k in b.owners :: k !in a.owners
  {
  }

  lemma WalletReadKept(a: Db, b: Db, f: Footprint, wall: Wallet, t: WagerTransaction)
    requires Grows(a, b) && Within(a, b, f) && WalletRead(a, wall, t) && t.walletId !in f.wallets
    ensures WalletRead(b, wall, t)
  {
    assert t.walletId in b.wallets;
  }

  lemma LockedKept(a: Db, b: Db, f: Footprint, op: Op, w: Work)
    requires Grows(a, b) && Within(a, b, f) && Locked(a, op, w) && w.txn.walletId !in f.wallets
    requires op.Recovery? ==> w.txn.id !in f.rows
    ensures Locked(b, op, w)
  {
    WalletReadKept(a, b, f, w.wall, w.txn);
  }

  lemma SettleableKept(a: Db, b: Db, f: Footprint, t: WagerTransaction, env: Env)
    requires Grows(a, b) && Within(a, b, f) && Settleable(a, t, env) && t.id !in f.rows
    requires t.state == Pending ==> KeyOf(t) !in f.keys && ExternalOf(t) !in f.externals
    ensures Settleable(b, t, env)
  {
    assert t.id in b.rows <==> t.id in a.rows;
  }

  lemma InboxFreeKept(a: Db, b: Db, f: Footprint, op: Op)
    requires Within(a, b, f) && InboxFree(a, op) && forall k | k in InboxHeld(op) :: k !in f.inboxes
    ensures InboxFree(b, op)
  {
    if op.Submission? && op.delivery.Some? {
      assert InboxKeyOf(op.delivery.value) in InboxHeld(op);
    }
  }

  lemma InPlaceKept(a: Db, b: Db, f: Footprint, op: Op, w: Work)
    requires Grows(a, b) && Within(a, b, f) && InPlace(a, op, w) && Disjoint(f, WorkHeld(op, w))
    ensures InPlace(b, op, w)
  {
    DisjointParts(f, WorkHeld(op, w));
    assert w.txn.walletId in WorkHeld(op, w).wallets && w.txn.id in WorkHeld(op, w).rows;
    if op.Submission? {
      assert KeyOf(w.txn) in WorkHeld(op, w).keys && ExternalOf(w.txn) in WorkHeld(op, w).externals;
    }
    LockedKept(a, b, f, op, w);
    SettleableKept(a, b, f, w.txn, w.env) by {
      assert w.txn.state == Pending ==> op.Submission?;
    }
    InboxFreeKept(a, b, f, op);
  }

  /** A reference's state and its claim can change the decision only when the reference is on the locked wallet. */
  lemma ReferenceReadKept(a: Db, b: Db, f: Footprint, t: WagerTransaction, ref: Option<WagerTransaction>,
                          claimRead: bool)
    requires Grows(a, b) && Within(a, b, f) && ReferenceRead(a, t, ref, claimRead) && t.walletId !in f.wallets
    ensures ReferenceRead(b, t, ref, claimRead)
  {
    if ref.Some? && ref.value.id != t.id {
      var r := ref.value;
      assert r.id in b.rows && SameCommand(a.rows[r.id].txn, b.rows[r.id].txn);
    }
  }

  lemma StillAbsentKept(a: Db, b: Db, f: Footprint, t: WagerTransaction)
    requires Grows(a, b) && Within(a, b, f) && StillAbsent(a, t) && t.walletId !in f.wallets
    requires IndexOk(a.rows, a.byExternal, ExternalOf) && IndexOk(b.rows, b.byExternal, ExternalOf)
    ensures StillAbsent(b, t)
  {
    var key := (t.providerId, t.referenceExternalId);
    if key in b.byExternal {
      var id := b.byExternal[key];
      if id in a.rows {
        assert SameCommand(a.rows[id].txn, b.rows[id].txn);
        assert a.byExternal[ExternalOf(a.rows[id].txn)] == id;
      } else {
        assert b.rows[id].txn.walletId in f.wallets;
      }
    }
  }

  lemma ReferenceKnownKept(a: Db, b: Db, f: Footprint, t: WagerTransaction,
                           ref: Result<Option<WagerTransaction>, AppError>, claimRead: bool)
    requires Grows(a, b) && Within(a, b, f) && ReferenceKnown(a, t, ref, claimRead) && t.walletId !in f.wallets
    requires IndexOk(a.rows, a.byExternal, ExternalOf) && IndexOk(b.rows, b.byExternal, ExternalOf)
    ensures ReferenceKnown(b, t, ref, claimRead)
  {
    ReferenceReadKept(a, b, f, t, ref.value, claimRead);
    if ref.value.None? && NeedsReference(t) {
      StillAbsentKept(a, b, f, t);
    }
  }

  /** Before the claim is read nothing depends on it, so what is known holds for whatever is read. */
  lemma ClaimReadIsCurrent(a: Db, b: Db, t: WagerTransaction, ref: Result<Option<WagerTransaction>, AppError>)
    requires ReferenceKnown(b, t, ref, ClaimRead(a, ref))
    ensures ReferenceKnown(b, t, ref, ClaimRead(b, ref))
  {
  }

  lemma AnsweredByKept(a: Db, b: Db, cmd: SubmitWagerCommand, result: WagerResult)
    requires Grows(a, b) && AnsweredBy(a, cmd, result)
    ensures AnsweredBy(b, cmd, result)
  {
    hide Witnesses;
    var id := a.byKey[(cmd.providerId, cmd.idempotencyKey)];
    assert id in b.rows && SameCommand(a.rows[id].txn, b.rows[id].txn);
    WitnessKept(a.rows[id].txn, b.rows[id].txn, result);
  }

  lemma WitnessKept(a: WagerTransaction, b: WagerTransaction, result: WagerResult)
    requires Witnesses(a, result) && SameCommand(a, b) && (a.state.IsTerminal() ==> b == a)
    ensures Witnesses(b, result)
  {
  }

  lemma ResolvedByKept(a: Db, b: Db, id: TransactionId, result: WagerResult)
    requires Grows(a, b) && ResolvedBy(a, id, result)
    ensures ResolvedBy(b, id, result)
  {
    hide Witnesses;
    WitnessKept(a.rows[id].txn, b.rows[id].txn, result);
  }

  lemma AccountReadyKept(a: Db, b: Db, f: Footprint, o: Opened, env: Env)
    requires Within(a, b, f) && AccountReady(a, o, env)
    requires o.wallet.id !in f.wallets && OwnerOf(o.wallet) !in f.owners && env.serial !in f.rows
    ensures AccountReady(b, o, env)
  {
  }

  lemma ConflictKept(a: Db, b: Db, op: Op, error: AppError)
    requires Grows(a, b) && ConflictOk(a, op, error)
    ensures ConflictOk(b, op, error)
  {
    if op.Submission? {
      var k, x := (op.cmd.providerId, op.cmd.idempotencyKey), (op.cmd.providerId, op.cmd.externalId);
      if k in a.byKey && a.byKey[k] in a.rows {
        assert SameCommand(a.rows[a.byKey[k]].txn, b.rows[a.byKey[k]].txn);
      }
      if x in a.byExternal && a.byExternal[x] in a.rows {
        assert SameCommand(a.rows[a.byExternal[x]].txn, b.rows[a.byExternal[x]].txn);
      }
    }
  }

  lemma AnswerKept(a: Db, b: Db, op: Op, answer: Answer)
    requires Grows(a, b) && AnswerOk(a, op, answer)
    ensures AnswerOk(b, op, answer)
  {
    hide ConflictOk, AnsweredBy, ResolvedBy;
    match answer
    case Success(result) =>
      if op.Submission? {
        AnsweredByKept(a, b, op.cmd, result);
      } else if op.Recovery? {
        ResolvedByKept(a, b, op.id, result);
      }
    case Failure(error) => ConflictKept(a, b, op, error);
    case DuplicateDelivery =>
    case AccountOpened =>
    case GaveUp =>
  }

  lemma WorkPhaseKept(a: Db, b: Db, f: Footprint, pr: Proc)
    requires Grows(a, b) && Within(a, b, f) && PhaseOk(a, pr) && Disjoint(f, Holdings(pr))
    requires IndexOk(a.rows, a.byExternal, ExternalOf) && IndexOk(b.rows, b.byExternal, ExternalOf)
    requires pr.phase.ReadingReference? || pr.phase.ReadingClaim? || pr.phase.Writing?
    ensures PhaseOk(b, pr)
  {
    hide Grows, Within, InPlace, IndexOk, ReferenceKnown, ClaimRead, Settle, Statements, CompletionOf, WorkPrefix,
         Disjoint, Wrote;
    var w := pr.phase.work;
    InPlaceKept(a, b, f, pr.op, w);
    HeldWallet(f, pr.op, w);
    match pr.phase
    case ReadingReference(_) =>
    case ReadingClaim(_, ref) =>
      ReferenceKnownKept(a, b, f, w.txn, ref, ClaimRead(a, ref));
      ClaimReadIsCurrent(a, b, w.txn, ref);
    case Writing(_, ref, claimRead, _, _) =>
      ReferenceKnownKept(a, b, f, w.txn, ref, claimRead);
  }

  lemma HeldWallet(f: Footprint, op: Op, w: Work)
    requires Disjoint(f, WorkHeld(op, w))
    ensures w.txn.walletId !in f.wallets
  {
    assert w.txn.walletId in WorkHeld(op, w).wallets;
  }

  lemma EarlyPhaseKept(a: Db, b: Db, f: Footprint, pr: Proc)
    requires Grows(a, b) && Within(a, b, f) && PhaseOk(a, pr) && Disjoint(f, Holdings(pr))
    requires !(pr.phase.ReadingReference? || pr.phase.ReadingClaim? || pr.phase.Writing?)
    ensures PhaseOk(b, pr)
  {
    hide InboxFree, Locked, AccountReady, AnsweredBy;
    DisjointParts(f, Holdings(pr));
    match pr.phase
    case BeginningInbox =>
    case LookingUpKey => InboxFreeKept(a, b, f, pr.op);
    case LookingUpExternal => InboxFreeKept(a, b, f, pr.op);
    case LockingWallet => InboxFreeKept(a, b, f, pr.op);
    case Inserting(w) =>
      InboxFreeKept(a, b, f, pr.op);
      assert w.txn.walletId in Holdings(pr).wallets;
      LockedKept(a, b, f, pr.op, w);
    case LockingRow =>
    case LockingRowWallet(row) =>
      assert row.txn.id in Holdings(pr).rows;
    case Completing(result, _) =>
      InboxFreeKept(a, b, f, pr.op);
      AnsweredByKept(a, b, pr.op.cmd, result);
    case InsertingAccount(_) =>
    case WritingAccount(o, env) =>
      assert o.wallet.id in Holdings(pr).wallets && OwnerOf(o.wallet) in Holdings(pr).owners
             && env.serial in Holdings(pr).rows;
      AccountReadyKept(a, b, f, o, env);
    case Finished(_) =>
  }

  /** Noninterference: what a transaction knows survives every change that stays off what it holds. */
  lemma ProcKept(a: Db, b: Db, f: Footprint, pr: Proc)
    requires Inv(a) && Inv(b) && Grows(a, b) && Within(a, b, f)
    requires ProcOk(a, pr) && Disjoint(f, Holdings(pr))
    ensures ProcOk(b, pr)
  {
    hide Inv, IndexOk, Grows, Within, Disjoint, PhaseOk, AnswerOk, OpOk, Holdings;
    IndexesOf(a);
    IndexesOf(b);
    match pr.phase
    case Finished(answer) => AnswerKept(a, b, pr.op, answer);
    case ReadingReference(_) => WorkPhaseKept(a, b, f, pr);
    case ReadingClaim(_, _) => WorkPhaseKept(a, b, f, pr);
    case Writing(_, _, _, _, _) => WorkPhaseKept(a, b, f, pr);
    case _ => EarlyPhaseKept(a, b, f, pr);
  }
}
