/** Whole submissions, recovery passes, deliveries and openings by the columns of the tables they start from and leave:
    what is accepted, what is refused and how it ends (internal/application/service.go:98-332, 421-677). */
module Submissions {
  import opened Results
  import opened MoneyValue
  import opened Wager
  import opened Wallets
  import opened AppErrors
  import opened Commands
  import opened Tables
  import opened Settlement
  import opened Operations
  import opened Invariants
  import opened SettlementSafety
  import opened OperationSafety
  import opened Rulings
  import Commitment
  import OpeningSafety
  import Readings

  // ----- What an operation finds -----

  /** The row of a command that has just been accepted. */
  function Accepted(cmd: SubmitWagerCommand, env: Env): WagerTransaction {
    WagerTransaction(
      env.serial, External, cmd.kind, cmd.providerId, cmd.externalId, cmd.idempotencyKey, Sha256JcsV1,
      Some(ProjectionInput(cmd.providerId, cmd.externalId, cmd.playerId, cmd.walletId, cmd.roundId, cmd.gameId,
                           cmd.kind, cmd.amount, cmd.referenceExternalId)),
      cmd.walletId, cmd.playerId, cmd.roundId, cmd.gameId, cmd.amount, cmd.referenceExternalId, 0,
      Pending, NoFailure, NO_MONEY, 0, env.now, env.now)
  }

  /** The operation's reference: the row its provider stored under the external identity it names, or itself. */
  function Named(db: Db, t: WagerTransaction): Option<WagerTransaction> {
    var key := (t.providerId, t.referenceExternalId);
    if t.referenceExternalId == "" then None
    else if t.referenceExternalId == t.externalId then Some(t)
    else if key in db.byExternal && db.byExternal[key] in db.rows then Some(db.rows[db.byExternal[key]].txn)
    else None
  }

  predicate IsClaimed(db: Db, ref: Option<WagerTransaction>) {
    ref.Some? && exists i | 0 <= i < |db.claims| :: db.claims[i].reference == ref.value.id
  }

  /** A wallet can be read back: it was saved no earlier than it was created. */
  predicate Readable(w: Wallet) {
    0 < w.createdAt <= w.updatedAt
  }

  /** An outcome without an answer from an earlier operation, as a decision. */
  function DecisionOf(o: Outcome): Result<Settled, AppError>
    requires !o.Answered?
  {
    if o.Settles? then Ok(o.settled) else Err(o.error)
  }

  /** The tables once a decision about a provider operation is stored: its row, its keys and its events, and the wallet,
      posting and claim it moved money with; everything else is as it was. */
  predicate Stores(db: Db, e: Effect, after: Db) {
    var t := e.row.txn;
    && after.rows == db.rows[t.id := e.row]
    && after.byKey == db.byKey[(t.providerId, t.idempotencyKey) := t.id]
    && after.byExternal == db.byExternal[(t.providerId, t.externalId) := t.id]
    && after.outbox == db.outbox + e.events
    && after.owners == db.owners && after.inbox == db.inbox
    && match e.transfer
       case None => after.wallets == db.wallets && after.ledger == db.ledger && after.claims == db.claims
       case Some(tr) =>
         && after.wallets == db.wallets[tr.wallet.id := tr.wallet]
         && after.ledger == db.ledger + [tr.entry]
         && after.claims == db.claims + if tr.claim.Some? then [tr.claim.value] else []
  }

  // ----- Submissions -----

  predicate FreeKeys(db: Db, cmd: SubmitWagerCommand) {
    (cmd.providerId, cmd.idempotencyKey) !in db.byKey && (cmd.providerId, cmd.externalId) !in db.byExternal
  }

  /** The wallet is there, readable and in the command's currency. */
  predicate Acceptable(db: Db, cmd: SubmitWagerCommand) {
    && cmd.walletId in db.wallets && Readable(db.wallets[cmd.walletId])
    && db.wallets[cmd.walletId].currency == cmd.amount.currency
  }

  lemma WalletLookup(db: Db, id: WalletId)
    requires Inv(db)
    ensures LookupWallet(db, id) ==
            if id !in db.wallets then Ok(None)
            else if Readable(db.wallets[id]) then Ok(Some(db.wallets[id]))
            else Err(CorruptRecord)
  {
    hide Inv, LookupWallet;
    Readings.WalletReads(db, id);
  }

  /** A validated command for an acceptable wallet makes exactly the accepted row. */
  lemma NewIsAccepted(wall: Wallet, cmd: SubmitWagerCommand, env: Env)
    requires Validate(cmd).Ok? && EnvOk(env) && wall.currency == cmd.amount.currency
    ensures NewTransaction(Ok(Some(wall)), cmd, env) == Ok(Accepted(cmd, env))
  {
    ValidationAgreesWithConstructor(cmd, env);
  }

  /** The lookups of a new submission read the named reference and its claim. */
  lemma SubmissionFinds(db: Db, t: WagerTransaction, env: Env)
    requires Inv(db) && Settleable(db, t, env) && t.state == Pending
    ensures var mine := Apply(db, InsertRow(t));
            LoadReference(mine, t) == Ok(Named(db, t))
              && ClaimRead(mine, Ok(Named(db, t))) == IsClaimed(db, Named(db, t))
  {
    hide Inv, IndexOk;
    IndexesOf(db);
    var key := (t.providerId, t.referenceExternalId);
    IndexedRow(db, db.byExternal, ExternalOf, key);
    if key == ExternalOf(t) {
      assert Rehydrate(Row(t, 0, 0, 0)) == Ok(t);
    } else if key in db.byExternal {
      assert db.byExternal[key] != t.id;
      StoredRowRehydrates(db, db.byExternal[key]);
    }
  }

  lemma PassFinds(db: Db, t: WagerTransaction)
    requires Inv(db) && t.id in db.rows && db.rows[t.id].txn == t && t.origin == External
    ensures LoadReference(db, t) == Ok(Named(db, t)) && ClaimRead(db, Ok(Named(db, t))) == IsClaimed(db, Named(db, t))
  {
    hide Inv, IndexOk;
    IndexesOf(db);
    StoredKeyIsIndexed(db, t.id);
    var key := (t.providerId, t.referenceExternalId);
    IndexedRow(db, db.byExternal, ExternalOf, key);
  }

  /** What is named is sensible to decide with. */
  lemma NamedIsSensible(db: Db, wall: Wallet, t: WagerTransaction, env: Env, claimRead: bool)
    requires SettleReady(db, wall, t, Named(db, t), claimRead, env)
    requires Inv(db) && (t.id in db.rows ==> db.rows[t.id].txn == t)
    ensures InOrder(wall, t, Named(db, t), env)
  {
    SettleableIsDecidable(db, wall, t, env);
    hide Inv, Decidable;
  }

  lemma EffectStores(db: Db, e: Effect)
    requires e.row.txn.origin == External
    ensures Stores(db, e, ApplyEffect(db, e))
  {
    Commitment.AppliedParts(db, e);
  }

  lemma FreshUnfolds(db: Db, cmd: SubmitWagerCommand, env: Env)
    requires Inv(db) && FreeKeys(db, cmd) && Validate(cmd).Ok?
    ensures Submit(db, cmd, env) == SubmitFresh(db, cmd, env)
  {
    hide Inv, Validate, SubmitFresh, SubmitWithinTx;
    SubmitWithinTxUnfolds(db, cmd, env);
  }

  lemma FreshRefusals(db: Db, cmd: SubmitWagerCommand, env: Env)
    requires Inv(db) && !Acceptable(db, cmd)
    ensures SubmitFresh(db, cmd, env) ==
            Refused(if cmd.walletId !in db.wallets then NotFound
                    else if !Readable(db.wallets[cmd.walletId]) then CorruptRecord
                    else Contract(UnsupportedCurrency))
  {
    hide Inv, LookupWallet, SettleIn;
    WalletLookup(db, cmd.walletId);
  }

  lemma FreshDecides(db: Db, cmd: SubmitWagerCommand, env: Env)
    requires Inv(db) && EnvOk(env) && SerialFresh(db, env.serial) && Validate(cmd).Ok?
    requires FreeKeys(db, cmd) && Acceptable(db, cmd)
    ensures var t, wall := Accepted(cmd, env), db.wallets[cmd.walletId];
            && InOrder(wall, t, Named(db, t), env)
            && !SubmitFresh(db, cmd, env).Answered?
            && DecisionOf(SubmitFresh(db, cmd, env)) ==
               Settle(wall, t, 0, Ok(Named(db, t)), IsClaimed(db, Named(db, t)), env)
  {
    hide Inv, LookupWallet, SerialFresh, Validate, NewTransaction, SettleReady, Settle, LoadReference, ClaimRead, Apply,
         Named, IsClaimed, InOrder, Accepted;
    var t, wall := Accepted(cmd, env), db.wallets[cmd.walletId];
    WalletLookup(db, cmd.walletId);
    NewIsAccepted(wall, cmd, env);
    SerialIsUnused(db, env.serial);
    NewTransactionIsSettleable(db, cmd, LookupWallet(db, cmd.walletId), env);
    FreshSubmissionIsReady(db, cmd, env);
    SubmitFreshIsSettle(db, cmd, env);
    SubmissionFinds(db, t, env);
    NamedIsSensible(db, wall, t, env, IsClaimed(db, Named(db, t)));
  }

  lemma SerialIsUnused(db: Db, serial: nat)
    requires SerialFresh(db, serial)
    ensures serial !in db.rows
  {
  }

  /** A new command: it is refused because the wallet is unknown, unreadable or in another currency, exactly then; it
      aborts exactly on a credit beyond 64 bits; and otherwise it settles by the rules. */
  lemma SubmissionsByTheRules(db: Db, cmd: SubmitWagerCommand, env: Env)
    requires Inv(db) && EnvOk(env) && SerialFresh(db, env.serial) && Validate(cmd).Ok? && FreeKeys(db, cmd)
    ensures var o := Submit(db, cmd, env);
            && !o.Answered?
            && (o == Refused(NotFound) <==> cmd.walletId !in db.wallets)
            && (o == Refused(CorruptRecord) <==>
                  cmd.walletId in db.wallets && !Readable(db.wallets[cmd.walletId]))
            && (o == Refused(Contract(UnsupportedCurrency)) <==>
                  cmd.walletId in db.wallets && Readable(db.wallets[cmd.walletId])
                  && db.wallets[cmd.walletId].currency != cmd.amount.currency)
            && (Acceptable(db, cmd) ==>
                  var t, wall := Accepted(cmd, env), db.wallets[cmd.walletId];
                  var ref := Named(db, t);
                  var rule := Rule(t, ref, IsClaimed(db, ref));
                  && ByTheRules(DecisionOf(o), wall, t, 0, ref, IsClaimed(db, ref), env)
                  && (o.Settles? <==>
                        !(rule == Posts(Credit) && wall.balance.minorUnits + cmd.amount.minorUnits > MAX_INT64))
                  && (o.Refused? ==> o.error == Domain(MoneyFailure(Overflow))))
            && (o.Settles? ==>
                  && Acceptable(db, cmd) && Stores(db, o.settled.effect, After(db, o))
                  && o.settled.effect.row.txn.id == env.serial && CommandOf(o.settled.effect.row.txn) == cmd
                  && o.settled.effect.row.txn.createdAt == env.now
                  && After(db, o).byKey[(cmd.providerId, cmd.idempotencyKey)] == env.serial
                  && After(db, o).rows[env.serial] == o.settled.effect.row)
  {
    hide Inv, SerialFresh, Validate, Submit, SubmitFresh, Settle, Stores, Named, IsClaimed, Rule, InOrder, ByTheRules,
         ApplyEffect;
    FreshUnfolds(db, cmd, env);
    if Acceptable(db, cmd) {
      FreshDecides(db, cmd, env);
      var t, wall := Accepted(cmd, env), db.wallets[cmd.walletId];
      var ref := Named(db, t);
      SettlesByTheRules(wall, t, 0, ref, IsClaimed(db, ref), env);
      var r := DecisionOf(Submit(db, cmd, env));
      DecidedKeeps(r, wall, t, 0, ref, IsClaimed(db, ref), env);
      if r.Ok? {
        EffectStores(db, r.value.effect);
        StoredThere(db, r.value.effect, After(db, Submit(db, cmd, env)));
      }
    } else {
      FreshRefusals(db, cmd, env);
    }
  }

  lemma StoredThere(db: Db, e: Effect, after: Db)
    requires Stores(db, e, after)
    ensures var t := e.row.txn;
            && t.id in after.rows && after.rows[t.id] == e.row
            && (t.providerId, t.idempotencyKey) in after.byKey
            && after.byKey[(t.providerId, t.idempotencyKey)] == t.id
  {
  }

  /** When a decision aborts, and that it keeps the columns of the command. */
  lemma DecidedKeeps(r: Result<Settled, AppError>, wall: Wallet, t: WagerTransaction, attempts: nat,
                     ref: Option<WagerTransaction>, claimed: bool, env: Env)
    requires ByTheRules(r, wall, t, attempts, ref, claimed, env) && InOrder(wall, t, ref, env)
    ensures r.Ok? ==>
              var s := r.value.effect.row.txn;
              s.id == t.id && CommandOf(s) == CommandOf(t) && s.createdAt == t.createdAt && s.origin == t.origin
    ensures var overflows := Rule(t, ref, claimed) == Posts(Credit)
                             && wall.balance.minorUnits + t.amount.minorUnits > MAX_INT64;
            && (r == Err(Domain(MoneyFailure(Overflow))) <==> overflows)
            && (t.state == Pending ==> (r.Err? <==> overflows))
  {
    hide Rule, Stamped, Tells;
    OrderParts(wall, t, env);
  }

  /** A compensation that names a processed operation of its own player, round, wallet, kind and amount is rejected as
      already reversed if and only if that operation has been claimed; the wallet stays as it is. */
  lemma ClaimedReferenceIsRefused(db: Db, cmd: SubmitWagerCommand, env: Env)
    requires Inv(db) && EnvOk(env) && SerialFresh(db, env.serial) && Validate(cmd).Ok? && FreeKeys(db, cmd)
    requires Acceptable(db, cmd) && (cmd.kind == Refund || cmd.kind == Rollback)
    requires var key := (cmd.providerId, cmd.referenceExternalId);
             && key in db.byExternal && db.byExternal[key] in db.rows
             && var r := db.rows[db.byExternal[key]].txn;
                && KindFits(cmd.kind, r.kind) && r.walletId == cmd.walletId && r.playerId == cmd.playerId
                && r.roundId == cmd.roundId && r.amount == cmd.amount && r.state == Processed
    ensures var o, r := Submit(db, cmd, env), db.byExternal[(cmd.providerId, cmd.referenceExternalId)];
            && (o.Settles? && o.settled.effect.row.txn.failureCode == AlreadyReversed <==>
                  exists i | 0 <= i < |db.claims| :: db.claims[i].reference == r)
            && (IsClaimed(db, Some(db.rows[r].txn)) ==>
                  && o.Settles?
                  && EndsRejected(o.settled.effect, db.wallets[cmd.walletId], Accepted(cmd, env), r, AlreadyReversed)
                  && After(db, o).wallets == db.wallets && After(db, o).ledger == db.ledger
                  && After(db, o).claims == db.claims)
  {
    hide Inv, SerialFresh, Submit, Stamped, Tells, Submit, ApplyEffect;
    SubmissionsByTheRules(db, cmd, env);
    var t, id := Accepted(cmd, env), db.byExternal[(cmd.providerId, cmd.referenceExternalId)];
    StoredRowRehydrates(db, id);
    assert cmd.referenceExternalId != "" by { CompensationsName(cmd); }
    assert Named(db, t) == Some(db.rows[id].txn);
  }

  lemma CompensationsName(cmd: SubmitWagerCommand)
    requires Validate(cmd).Ok? && (cmd.kind == Refund || cmd.kind == Rollback)
    ensures cmd.referenceExternalId != ""
  {
  }

  /** A free key whose external identity is taken is a conflict, whatever else the command says. */
  lemma TakenIdentityIsAConflict(db: Db, cmd: SubmitWagerCommand, env: Env)
    requires Inv(db) && Validate(cmd).Ok?
    requires (cmd.providerId, cmd.idempotencyKey) !in db.byKey && (cmd.providerId, cmd.externalId) in db.byExternal
    ensures Submit(db, cmd, env) == Refused(Conflict(ExternalTransactionConflict))
    ensures After(db, Submit(db, cmd, env)) == db
  {
    hide Inv, Validate, SubmitFresh, SubmitWithinTx, ReplayOrConflict, IndexOk;
    SubmitWithinTxUnfolds(db, cmd, env);
    IndexesOf(db);
    var x := (cmd.providerId, cmd.externalId);
    IndexEntry(db.rows, db.byExternal, ExternalOf, x);
    StoredKeyIsIndexed(db, db.byExternal[x]);
  }

  // ----- Recovery passes -----

  lemma PassUnfolds(db: Db, id: TransactionId, env: Env)
    requires Inv(db) && id in db.rows
    ensures var t := db.rows[id].txn;
            && id != 0 && t.id == id && (t.state.IsTerminal() || t.state == PendingReference)
            && t.walletId in db.wallets
            && Resolve(db, id, env) ==
               (if t.state.IsTerminal() then Answered(ResultOf(t, false))
                else if !Readable(db.wallets[t.walletId]) then Refused(CorruptRecord)
                else SettleIn(db, db.wallets[t.walletId], t, db.rows[id].attempts, env))
  {
    StoredRowRehydrates(db, id);
    hide Inv, LookupWallet, SettleIn;
    WalletLookup(db, db.rows[id].txn.walletId);
  }

  lemma PassDecides(db: Db, id: TransactionId, env: Env)
    requires Inv(db) && EnvOk(env) && SerialFresh(db, env.serial)
    requires id in db.rows && db.rows[id].txn.state == PendingReference
    ensures var t := db.rows[id].txn;
            && t.walletId in db.wallets && t.id == id
            && InOrder(db.wallets[t.walletId], t, Named(db, t), env)
            && var o := SettleIn(db, db.wallets[t.walletId], t, db.rows[id].attempts, env);
               && !o.Answered?
               && DecisionOf(o) == Settle(db.wallets[t.walletId], t, db.rows[id].attempts, Ok(Named(db, t)),
                                          IsClaimed(db, Named(db, t)), env)
  {
    hide Inv, SerialFresh, SettleReady, Settle, LoadReference, ClaimRead, Named, IsClaimed, InOrder, RowOk;
    StoredRowRehydrates(db, id);
    WaitingRowIsReady(db, id, env);
    var t := db.rows[id].txn;
    WaitingIsExternal(db, id);
    PassFinds(db, t);
    NamedIsSensible(db, db.wallets[t.walletId], t, env, IsClaimed(db, Named(db, t)));
  }

  lemma WaitingIsExternal(db: Db, id: TransactionId)
    requires Inv(db) && id in db.rows && db.rows[id].txn.state == PendingReference
    ensures db.rows[id].txn.origin == External
  {
    assert RowOk(db.rows[id]);
  }

  /** A recovery pass: an operation that has ended is answered with its row and nothing changes; one that waits is
      decided anew by the rules, against its reference, the claims and its wallet as they stand. */
  lemma PassesByTheRules(db: Db, id: TransactionId, env: Env)
    requires Inv(db) && EnvOk(env) && SerialFresh(db, env.serial)
    ensures var o := Resolve(db, id, env);
            && (o == Refused(Contract(InvalidRequest)) <==> id == 0)
            && (o == Refused(NotFound) <==> id != 0 && id !in db.rows)
            && (o.Answered? <==> id in db.rows && db.rows[id].txn.state != PendingReference)
            && (o.Answered? ==> Tells(o.result, db.rows[id].txn) && !o.result.replay && After(db, o) == db)
            && (o == Refused(CorruptRecord) <==>
                  id in db.rows && db.rows[id].txn.state == PendingReference
                  && !Readable(db.wallets[db.rows[id].txn.walletId]))
            && (id in db.rows && db.rows[id].txn.state == PendingReference
                && Readable(db.wallets[db.rows[id].txn.walletId]) ==>
                  var t := db.rows[id].txn;
                  var ref := Named(db, t);
                  && ByTheRules(DecisionOf(o), db.wallets[t.walletId], t, db.rows[id].attempts, ref,
                                IsClaimed(db, ref), env)
                  && (o.Settles? ==> Stores(db, o.settled.effect, After(db, o)))
                  && (o.Refused? ==> o.error == Domain(MoneyFailure(Overflow)) || o.error == Invariant))
  {
    hide Inv, SerialFresh, Settle, Stores, Named, IsClaimed, Rule, InOrder, ByTheRules, ApplyEffect, SettleIn, Tells,
         ResultOf;
    if id in db.rows {
      PassUnfolds(db, id, env);
      ResultTells(db.rows[id].txn, false);
      if db.rows[id].txn.state == PendingReference {
        PassDecides(db, id, env);
        var t, attempts := db.rows[id].txn, db.rows[id].attempts;
        var wall, ref := db.wallets[t.walletId], Named(db, t);
        SettlesByTheRules(wall, t, attempts, ref, IsClaimed(db, ref), env);
        var r := DecisionOf(SettleIn(db, wall, t, attempts, env));
        DecidedKeeps(r, wall, t, attempts, ref, IsClaimed(db, ref), env);
        AbortsOfPass(r, wall, t, attempts, ref, IsClaimed(db, ref), env);
        if r.Ok? {
          WaitingIsExternal(db, id);
          EffectStores(db, r.value.effect);
        }
      }
    } else {
      ZeroIsNoRow(db);
    }
  }

  lemma ZeroIsNoRow(db: Db)
    requires Inv(db)
    ensures 0 !in db.rows
  {
    if 0 in db.rows {
      StoredRowRehydrates(db, 0);
    }
  }

  lemma AbortsOfPass(r: Result<Settled, AppError>, wall: Wallet, t: WagerTransaction, attempts: nat,
                     ref: Option<WagerTransaction>, claimed: bool, env: Env)
    requires ByTheRules(r, wall, t, attempts, ref, claimed, env) && t.state == PendingReference
    ensures r.Err? ==> r.error == Domain(MoneyFailure(Overflow)) || r.error == Invariant
  {
    hide Rule, Stamped, Tells;
  }

  // ----- Deliveries -----

  /** A delivery that passes the checks: a body recorded before is a duplicate, another body under its message is a
      conflict, and neither changes anything; a new message is the submission of its command, recorded as completed in
      the same commit unless it is refused. */
  lemma DeliveriesAreJudged(db: Db, d: InboxDelivery, env: Env, completedAt: Time)
    requires Inv(db) && Validate(d.digest.command).Ok?
    requires d.consumerName != "" && d.messageId != "" && d.receivedAt != 0
    ensures var o, key := SubmitFromInbox(db, d.digest.command, d, env), (d.consumerName, d.messageId);
            var submitted, after := Submit(db, d.digest.command, env), AfterInbox(db, o, d, completedAt);
            && (key in db.inbox ==>
                  && after == db
                  && o == (if db.inbox[key].digest == d.digest then Duplicate
                           else Handled(Refused(Conflict(InboxPayloadConflict)))))
            && (key !in db.inbox ==>
                  && o == Handled(submitted)
                  && after == (if submitted.Refused? then db
                               else After(db, submitted).(
                                      inbox := db.inbox[key := InboxRow(d.digest, d.receivedAt, completedAt)])))
  {
    hide Inv, Validate, SubmitWithinTx, ApplyEffect;
    if Submit(db, d.digest.command, env).Settles? {
      Commitment.AppliedParts(db, Submit(db, d.digest.command, env).settled.effect);
    }
  }

  // ----- Openings -----

  /** An opening: it is refused for a missing player, for money without currency or below zero, and because the player
      already has a wallet in the currency, exactly then; otherwise the wallet starts with its balance and version 1,
      and a positive balance is recorded as an OPENING with its posting and its two events. */
  lemma OpeningsByTheRules(db: Db, cmd: OpenWalletCommand, id: WalletId, env: Env)
    requires EnvOk(env) && id != "" && id !in db.wallets
    ensures var r, m := OpenWallet(db, cmd, id, env), cmd.initialBalance;
            && (r == Err(Contract(InvalidRequest)) <==> cmd.playerId == "")
            && (r == Err(Contract(InvalidMoney)) <==> cmd.playerId != "" && (m.currency == "" || m.minorUnits < 0))
            && (r == Err(Conflict(WalletAlreadyExists)) <==>
                  && cmd.playerId != "" && m.currency != "" && m.minorUnits >= 0
                  && (cmd.playerId, m.currency) in db.owners)
            && (r.Ok? <==>
                  && cmd.playerId != "" && m.currency != "" && m.minorUnits >= 0
                  && (cmd.playerId, m.currency) !in db.owners)
            && (r.Ok? ==>
                  var w := Wallet(id, cmd.playerId, m.currency, m, 1, env.now, env.now);
                  var after := ApplyOpened(db, r.value);
                  && after.wallets == db.wallets[id := w] && after.owners == db.owners[(cmd.playerId, m.currency) := id]
                  && after.byKey == db.byKey && after.byExternal == db.byExternal && after.inbox == db.inbox
                  && after.claims == db.claims
                  && (m.minorUnits == 0 ==>
                        after.rows == db.rows && after.ledger == db.ledger && after.outbox == db.outbox)
                  && (m.minorUnits > 0 ==>
                        var e := OpeningSafety.OpenedEffect(w, env);
                        && after.rows == db.rows[env.serial := e.row]
                        && after.ledger == db.ledger + [e.transfer.value.entry]
                        && after.outbox == db.outbox + e.events))
  {
    hide ApplyEffect;
    if cmd.initialBalance.currency != "" && cmd.initialBalance.minorUnits > 0 {
      var w := Wallet(id, cmd.playerId, cmd.initialBalance.currency, cmd.initialBalance, 1, env.now, env.now);
      if WalletOk(w) {
        OpeningSafety.OpeningSucceeds(w, env);
        OpenedStores(Apply(db, InsertWallet(w)), w, env);
      }
    }
  }

  lemma OpenedStores(db: Db, w: Wallet, env: Env)
    requires w.id in db.wallets && db.wallets[w.id] == w
    ensures var e, after := OpeningSafety.OpenedEffect(w, env), ApplyEffect(db, OpeningSafety.OpenedEffect(w, env));
            after == db.(rows := db.rows[env.serial := e.row], ledger := db.ledger + [e.transfer.value.entry],
                         outbox := db.outbox + e.events)
  {
  }
}
