/** Every whole operation keeps every invariant, whatever it answers. */
module OperationSafety {
  import opened Results
  import opened Wager
  import opened Wallets
  import opened AppErrors
  import opened Commands
  import opened Resolution
  import opened Tables
  import opened Settlement
  import opened Operations
  import opened Invariants
  import opened EffectSafety
  import opened SettlementSafety
  import opened StatementRuns

  // ----- Lookups -----

  lemma StoredRowRehydrates(db: Db, id: TransactionId)
    requires Inv(db) && id in db.rows
    ensures RowOk(db.rows[id]) && db.rows[id].txn.id == id && id != 0 && Rehydrate(db.rows[id]) == Ok(db.rows[id].txn)
    ensures db.rows[id].txn.walletId in db.wallets
    ensures db.rows[id].txn.amount.currency == db.wallets[db.rows[id].txn.walletId].currency
  {
  }

  lemma IndexesOf(db: Db)
    requires Inv(db)
    ensures IndexOk(db.rows, db.byKey, KeyOf) && IndexOk(db.rows, db.byExternal, ExternalOf)
  {
  }

  lemma IndexEntry<K(!new)>(rows: RowTable, index: map<K, TransactionId>, key: WagerTransaction -> K, k: K)
    requires IndexOk(rows, index, key) && k in index
    ensures index[k] in rows && key(rows[index[k]].txn) == k && rows[index[k]].txn.origin == External
  {
  }

  lemma IndexedRow<K(!new)>(db: Db, index: map<K, TransactionId>, key: WagerTransaction -> K, k: K)
    requires Inv(db) && IndexOk(db.rows, index, key)
    ensures ReadIndexed(db.rows, index, k) ==
            if k in index && index[k] in db.rows then Ok(Some(db.rows[index[k]].txn)) else Ok(None)
    ensures k in index ==>
              index[k] in db.rows && key(db.rows[index[k]].txn) == k && db.rows[index[k]].txn.id == index[k]
                           && RowOk(db.rows[index[k]]) && db.rows[index[k]].txn.origin == External
  {
    hide Inv, IndexOk, RowOk;
    if k in index {
      IndexEntry(db.rows, index, key, k);
      StoredRowRehydrates(db, index[k]);
    }
  }

  /** A lookup by a unique key finds the stored row exactly when there is one, and never a corrupt one. */
  lemma LookupsAreExact(db: Db, cmd: SubmitWagerCommand)
    requires Inv(db)
    ensures var k := (cmd.providerId, cmd.idempotencyKey);
            && LookupKey(db, k) == (if k in db.byKey && db.byKey[k] in db.rows then Ok(Some(db.rows[db.byKey[k]].txn))
                                    else Ok(None))
            && (k in db.byKey ==> db.byKey[k] in db.rows && KeyOf(db.rows[db.byKey[k]].txn) == k)
    ensures var x := (cmd.providerId, cmd.externalId);
            && LookupExternal(db, x) == (if x in db.byExternal && db.byExternal[x] in db.rows
                                         then Ok(Some(db.rows[db.byExternal[x]].txn)) else Ok(None))
            && (x in db.byExternal ==> db.byExternal[x] in db.rows && ExternalOf(db.rows[db.byExternal[x]].txn) == x)
  {
    hide Inv, IndexOk, RowOk;
    IndexesOf(db);
    IndexedRow(db, db.byKey, KeyOf, (cmd.providerId, cmd.idempotencyKey));
    IndexedRow(db, db.byExternal, ExternalOf, (cmd.providerId, cmd.externalId));
  }

  // ----- Submission -----

  /** The command's own validation and the record's constructor accept the same commands,
      except that only the validation refuses a LOSS with a reference. */
  lemma ValidationAgreesWithConstructor(cmd: SubmitWagerCommand, env: Env)
    requires EnvOk(env)
    ensures Validate(cmd).Ok? <==>
            NewExternalTransaction(ParamsOf(cmd, env)).Ok? && !(cmd.kind == Loss && cmd.referenceExternalId != "")
  {
  }

  /** A validated command whose keys are free gives a transaction the tables can settle. */
  lemma NewTransactionIsSettleable(db: Db, cmd: SubmitWagerCommand, wall: Result<Option<Wallet>, AppError>, env: Env)
    requires Validate(cmd).Ok? && NewTransaction(wall, cmd, env).Ok? && env.serial !in db.rows && EnvOk(env)
    requires (cmd.providerId, cmd.idempotencyKey) !in db.byKey && (cmd.providerId, cmd.externalId) !in db.byExternal
    ensures var t := NewTransaction(wall, cmd, env).value;
            && Settleable(db, t, env) && t.id == env.serial && t.walletId == cmd.walletId && CommandOf(t) == cmd
            && t.state == Pending
            && wall.Ok? && wall.value.Some? && wall.value.value.currency == t.amount.currency
  {
  }

  /** The reference a submission reads, its own uncommitted row included. */
  lemma SubmissionReadsReference(db: Db, t: WagerTransaction, env: Env)
    requires Inv(db) && Settleable(db, t, env) && t.state == Pending
    ensures var mine := Apply(db, InsertRow(t));
            && LoadReference(mine, t).Ok?
            && ReferenceRead(db, t, LoadReference(mine, t).value, ClaimRead(mine, LoadReference(mine, t)))
            && (LoadReference(mine, t).value.Some? ==> NeedsReference(t))
  {
    hide Inv, IndexOk;
    IndexesOf(db);
    var key := (t.providerId, t.referenceExternalId);
    IndexedRow(db, db.byExternal, ExternalOf, key);
    if key == ExternalOf(t) {
      assert Rehydrate(Row(t, 0, 0, 0)) == Ok(t);
    }
  }

  lemma FreshSubmissionIsReady(db: Db, cmd: SubmitWagerCommand, env: Env)
    requires Inv(db) && EnvOk(env) && SerialFresh(db, env.serial) && Validate(cmd).Ok?
    requires (cmd.providerId, cmd.idempotencyKey) !in db.byKey && (cmd.providerId, cmd.externalId) !in db.byExternal
    requires NewTransaction(LookupWallet(db, cmd.walletId), cmd, env).Ok?
    ensures cmd.walletId in db.wallets
    ensures var t, wall := NewTransaction(LookupWallet(db, cmd.walletId), cmd, env).value, db.wallets[cmd.walletId];
            var mine := Apply(db, InsertRow(t));
            && LoadReference(mine, t).Ok?
            && SettleReady(db, wall, t, LoadReference(mine, t).value, ClaimRead(mine, LoadReference(mine, t)), env)
            && CommandOf(t) == cmd && t.id == env.serial
  {
    var wall := LookupWallet(db, cmd.walletId);
    NewTransactionIsSettleable(db, cmd, wall, env);
    var t := NewTransaction(wall, cmd, env).value;
    SubmissionReadsReference(db, t, env);
  }

  lemma SubmitFreshIsSettle(db: Db, cmd: SubmitWagerCommand, env: Env)
    requires cmd.walletId in db.wallets && NewTransaction(LookupWallet(db, cmd.walletId), cmd, env).Ok?
    ensures var t, wall := NewTransaction(LookupWallet(db, cmd.walletId), cmd, env).value, db.wallets[cmd.walletId];
            SubmitFresh(db, cmd, env) == SettleIn(Apply(db, InsertRow(t)), wall, t, 0, env)
  {
  }

  lemma SubmitWithinTxUnfolds(db: Db, cmd: SubmitWagerCommand, env: Env)
    requires Inv(db)
    ensures var k, x := (cmd.providerId, cmd.idempotencyKey), (cmd.providerId, cmd.externalId);
            SubmitWithinTx(db, cmd, env) ==
            if k in db.byKey && db.byKey[k] in db.rows then ReplayOrConflict(db.rows[db.byKey[k]].txn, cmd)
            else if x in db.byExternal && db.byExternal[x] in db.rows
                    then ExternalAnswer(db.rows[db.byExternal[x]].txn, cmd)
            else SubmitFresh(db, cmd, env)
  {
    LookupsAreExact(db, cmd);
  }

  lemma SubmitFreshKeeps(db: Db, cmd: SubmitWagerCommand, env: Env)
    requires Inv(db) && EnvOk(env) && SerialFresh(db, env.serial) && Validate(cmd).Ok?
    requires (cmd.providerId, cmd.idempotencyKey) !in db.byKey && (cmd.providerId, cmd.externalId) !in db.byExternal
    ensures !SubmitFresh(db, cmd, env).Answered?
    ensures SubmitFresh(db, cmd, env).Settles? ==>
              && EffectOk(db, SubmitFresh(db, cmd, env).settled.effect, env.serial)
              && KeyOf(SubmitFresh(db, cmd, env).settled.effect.row.txn) == (cmd.providerId, cmd.idempotencyKey)
              && SubmitFresh(db, cmd, env).settled.effect.row.txn.origin == External
              && Inv(After(db, SubmitFresh(db, cmd, env)))
  {
    var created := NewTransaction(LookupWallet(db, cmd.walletId), cmd, env);
    if created.Ok? {
      FreshSubmissionIsReady(db, cmd, env);
      SubmitFreshIsSettle(db, cmd, env);
      var t, wall := created.value, db.wallets[cmd.walletId];
      var mine := Apply(db, InsertRow(t));
      var ref := LoadReference(mine, t);
      SettleIsSafe(db, wall, t, 0, ref.value, ClaimRead(mine, ref), env);
      if Settle(wall, t, 0, ref, ClaimRead(mine, ref), env).Ok? {
        SettledEffectPreserves(db, wall, t, 0, ref.value, ClaimRead(mine, ref), env);
        SettleIsShaped(wall, t, 0, ref, ClaimRead(mine, ref), env);
      }
    }
  }

  /** Submitting keeps the invariants. A successful answer is about a row stored under the command's own key. */
  lemma SubmitKeeps(db: Db, cmd: SubmitWagerCommand, env: Env)
    requires Inv(db) && EnvOk(env) && SerialFresh(db, env.serial)
    ensures Inv(After(db, Submit(db, cmd, env)))
    ensures !Submit(db, cmd, env).Refused? ==>
              (cmd.providerId, cmd.idempotencyKey) in After(db, Submit(db, cmd, env)).byKey
  {
    if Validate(cmd).Ok? {
      SubmitWithinTxKeeps(db, cmd, env);
    }
  }

  lemma SubmitWithinTxKeeps(db: Db, cmd: SubmitWagerCommand, env: Env)
    requires Inv(db) && EnvOk(env) && SerialFresh(db, env.serial) && Validate(cmd).Ok?
    ensures Inv(After(db, SubmitWithinTx(db, cmd, env)))
    ensures !SubmitWithinTx(db, cmd, env).Refused? ==>
              (cmd.providerId, cmd.idempotencyKey) in After(db, SubmitWithinTx(db, cmd, env)).byKey
  {
    hide Inv, IndexOk, RowOk, SubmitFresh, SubmitWithinTx, EffectOk, SerialFresh, ProjectionOf, Validate;
    var k, x := (cmd.providerId, cmd.idempotencyKey), (cmd.providerId, cmd.externalId);
    LookupsAreExact(db, cmd);
    SubmitWithinTxUnfolds(db, cmd, env);
    IndexesOf(db);
    if k !in db.byKey {
      if x in db.byExternal {
        IndexedRow(db, db.byExternal, ExternalOf, x);
        StoredKeyIsIndexed(db, db.byExternal[x]);
      } else {
        SubmitFreshKeeps(db, cmd, env);
      }
    }
  }

  lemma StoredKeyIsIndexed(db: Db, id: TransactionId)
    requires Inv(db) && id in db.rows && db.rows[id].txn.origin == External
    ensures KeyOf(db.rows[id].txn) in db.byKey && db.byKey[KeyOf(db.rows[id].txn)] == id
    ensures ExternalOf(db.rows[id].txn) in db.byExternal && db.byExternal[ExternalOf(db.rows[id].txn)] == id
  {
  }

  /** A taken key answers with its stored row if and only if the command is the one the row was accepted from;
      any other business field, the reference included, is a conflict, and the stored row is not touched. */
  lemma ReplayIsForTheSameCommand(db: Db, cmd: SubmitWagerCommand, env: Env)
    requires Inv(db) && Validate(cmd).Ok? && (cmd.providerId, cmd.idempotencyKey) in db.byKey
    ensures var id := db.byKey[(cmd.providerId, cmd.idempotencyKey)];
            && id in db.rows
            && (if CommandOf(db.rows[id].txn) == cmd
                then Submit(db, cmd, env).Answered? && Tells(Submit(db, cmd, env).result, db.rows[id].txn)
                     && Submit(db, cmd, env).result.replay
                else Submit(db, cmd, env) == Refused(Conflict(IdempotencyConflict)))
            && After(db, Submit(db, cmd, env)) == db
  {
    hide Inv, IndexOk, RowOk, SubmitFresh, SubmitWithinTx, Validate, Tells;
    var k := (cmd.providerId, cmd.idempotencyKey);
    SubmitWithinTxUnfolds(db, cmd, env);
    IndexesOf(db);
    IndexEntry(db.rows, db.byKey, KeyOf, k);
    StoredProviderDigest(db, db.byKey[k]);
    DigestsAgreeWhen(CommandOf(db.rows[db.byKey[k]].txn), cmd);
    ResultTells(db.rows[db.byKey[k]].txn, true);
  }

  lemma StoredProviderDigest(db: Db, id: TransactionId)
    requires Inv(db) && id in db.rows && db.rows[id].txn.origin == External
    ensures var t := db.rows[id].txn; t.digest == DigestOf(CommandOf(t)) && t.digestVersion == Sha256JcsV1
  {
  }

  // ----- Recovery -----

  lemma WaitingRowIsReady(db: Db, id: TransactionId, env: Env)
    requires Inv(db) && EnvOk(env) && SerialFresh(db, env.serial)
    requires id in db.rows && db.rows[id].txn.state == PendingReference
    ensures var t := db.rows[id].txn;
            && t.walletId in db.wallets && LoadReference(db, t).Ok?
            && SettleReady(db, db.wallets[t.walletId], t, LoadReference(db, t).value,
                           ClaimRead(db, LoadReference(db, t)), env)
  {
    hide Inv, IndexOk, SerialFresh;
    StoredRowRehydrates(db, id);
    IndexesOf(db);
    var t := db.rows[id].txn;
    IndexedRow(db, db.byExternal, ExternalOf, (t.providerId, t.referenceExternalId));
    assert Settleable(db, t, env);
  }

  lemma ResolveKeeps(db: Db, id: TransactionId, env: Env)
    requires Inv(db) && EnvOk(env) && SerialFresh(db, env.serial)
    ensures Inv(After(db, Resolve(db, id, env)))
  {
    hide Inv, SerialFresh, Settle, RowOk, SettleReady, LoadReference;
    if id != 0 && id in db.rows {
      StoredRowRehydrates(db, id);
      var t := db.rows[id].txn;
      if t.state == PendingReference && LookupWallet(db, t.walletId).Ok? && LookupWallet(db, t.walletId).value.Some? {
        WaitingRowIsReady(db, id, env);
        var ref := LoadReference(db, t);
        if Settle(db.wallets[t.walletId], t, db.rows[id].attempts, ref, ClaimRead(db, ref), env).Ok? {
          SettledEffectPreserves(db, db.wallets[t.walletId], t, db.rows[id].attempts, ref.value, ClaimRead(db, ref),
                                 env);
        }
      }
    }
  }

  // ----- Inbox -----

  lemma InvParts(db: Db)
    requires Inv(db)
    ensures InboxOk(db.inbox, db.byKey)
  {
  }

  /** The delivery records are a concern of their own. */
  lemma InvFromParts(db: Db, after: Db)
    requires Inv(db) && after == db.(inbox := after.inbox) && InboxOk(after.inbox, after.byKey)
    ensures Inv(after)
  {
    hide WalletsOk, RowsOk, IndexOk, LedgerOk, Chained, ClaimsOk, EventsOk, TallyOk, EventsChained, InboxOk, Agrees;
    forall w | w in after.wallets ensures WalletAgrees(after, w) {
      assert WalletAgrees(db, w);
    }
  }

  lemma InboxRowExtends(inbox: map<InboxKey, InboxRow>, byKey: map<ProviderKey, TransactionId>, k: InboxKey,
                        row: InboxRow)
    requires InboxOk(inbox, byKey) && row.completedAt != 0
    requires (row.digest.command.providerId, row.digest.command.idempotencyKey) in byKey
    ensures InboxOk(inbox[k := row], byKey)
  {
  }

  lemma InboxExtends(db: Db, delivery: InboxDelivery, completedAt: Time)
    requires Inv(db) && completedAt != 0
    requires (delivery.digest.command.providerId, delivery.digest.command.idempotencyKey) in db.byKey
    ensures Inv(CompletedInbox(db, delivery, completedAt))
  {
    hide Inv, InboxOk;
    InvParts(db);
    InboxRowExtends(db.inbox, db.byKey, InboxKeyOf(delivery),
                    InboxRow(delivery.digest, delivery.receivedAt, completedAt));
    InvFromParts(db, CompletedInbox(db, delivery, completedAt));
  }

  lemma SubmitFromInboxKeeps(db: Db, delivery: InboxDelivery, env: Env, completedAt: Time)
    requires Inv(db) && EnvOk(env) && SerialFresh(db, env.serial) && completedAt != 0
    ensures Inv(AfterInbox(db, SubmitFromInbox(db, delivery.digest.command, delivery, env), delivery, completedAt))
  {
    hide Inv;
    var cmd := delivery.digest.command;
    var o := SubmitFromInbox(db, cmd, delivery, env);
    if o.Handled? && !o.outcome.Refused? {
      SubmitWithinTxKeeps(db, cmd, env);
      InboxExtends(After(db, o.outcome), delivery, completedAt);
    }
  }

  // ----- Leases -----

  /** A lease keeps its row from being claimed again exactly until it ends, and touches no other row. */
  lemma LeaseHoldsOff(db: Db, id: TransactionId, now: Time, lease: nat, later: Time)
    requires id in db.rows && DueReference(db.rows[id], now) && now <= later
    ensures var after := LeaseReference(db, id, now, lease);
            && id in after.rows && (DueReference(after.rows[id], later) <==> now + lease <= later)
            && after.rows[id].attempts == db.rows[id].attempts
               && after.rows[id].nextAttemptAt == db.rows[id].nextAttemptAt
            && forall other | other in db.rows && other != id ::
                 other in after.rows && after.rows[other] == db.rows[other]
  {
  }

  lemma LeaseIsQuietEffect(db: Db, id: TransactionId, now: Time, lease: nat)
    requires Inv(db) && id in db.rows && DueReference(db.rows[id], now)
    ensures var leased := db.rows[id].(claimedUntil := now + lease, txn := db.rows[id].txn.(updatedAt := now));
            && RowFits(db, leased) && leased.txn.id in db.rows
            && LeaseReference(db, id, now, lease) == ApplyEffect(db, Effect(leased, true, None, []))
  {
    hide Inv;
    StoredRowRehydrates(db, id);
    var leased := db.rows[id].(claimedUntil := now + lease, txn := db.rows[id].txn.(updatedAt := now));
    StoredKeyIsIndexed(db, id);
    var after := ApplyEffect(db, Effect(leased, true, None, []));
    assert after.byKey == db.byKey && after.byExternal == db.byExternal;
    assert db.outbox + [] == db.outbox;
  }

  lemma {:induction false} FreeEventIds(outbox: seq<Event>) returns (serial: nat)
    ensures serial > 0 && forall i | 0 <= i < |outbox| :: outbox[i].id < 2 * serial
  {
    serial := 1;
    if outbox != [] {
      var s := FreeEventIds(outbox[..|outbox| - 1]);
      serial := s + outbox[|outbox| - 1].id + 1;
      forall i | 0 <= i < |outbox| ensures outbox[i].id < 2 * serial {
        if i < |outbox| - 1 {
          assert outbox[..|outbox| - 1][i] == outbox[i];
        }
      }
    }
  }

  lemma LeaseIsEffectOk(db: Db, leased: Row, serial: nat)
    requires RowFits(db, leased) && leased.txn.state == PendingReference && leased.txn.id in db.rows
    requires forall i | 0 <= i < |db.outbox| :: db.outbox[i].id < 2 * serial
    ensures EffectOk(db, Effect(leased, true, None, []), serial)
  {
    hide RowFits;
  }

  lemma InvIsStructure(db: Db)
    requires Inv(db)
    ensures StructureOk(db) && forall w | w in db.wallets :: WalletAgrees(db, w)
  {
    hide StructureOk, Agrees;
  }

  lemma LeaseOneKeeps(db: Db, id: TransactionId, now: Time, lease: nat)
    requires Inv(db)
    ensures Inv(LeaseReference(db, id, now, lease))
  {
    hide Inv, StructureOk, WalletAgrees, RowFits, EffectOk, ApplyEffect;
    if id in db.rows && DueReference(db.rows[id], now) {
      LeaseIsQuietEffect(db, id, now, lease);
      var leased := db.rows[id].(claimedUntil := now + lease, txn := db.rows[id].txn.(updatedAt := now));
      var serial := FreeEventIds(db.outbox);
      LeaseIsEffectOk(db, leased, serial);
      InvIsStructure(db);
      EffectPreserves(db, Effect(leased, true, None, []), serial);
    }
  }

  /** Leasing any batch of due rows keeps the invariants. */
  lemma {:induction false} LeaseKeeps(db: Db, picked: seq<TransactionId>, now: Time, lease: nat)
    requires Inv(db)
    ensures Inv(LeaseReferences(db, picked, now, lease))
    decreases picked
  {
    if picked != [] {
      LeaseOneKeeps(db, picked[0], now, lease);
      LeaseKeeps(LeaseReference(db, picked[0], now, lease), picked[1..], now, lease);
    }
  }
}
