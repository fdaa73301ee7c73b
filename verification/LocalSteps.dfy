/** Every statement of a process establishes what the process needs to know next. */
module LocalSteps {
  import opened Results
  import opened Wager
  import opened Wallets
  import opened AppErrors
  import opened Commands
  import opened Tables
  import opened Settlement
  import opened Operations
  import opened Invariants
  import opened SettlementSafety
  import opened StatementRuns
  import opened OperationSafety
  import opened OpeningSafety
  import opened Interleaving
  import opened Noninterference

  lemma PlainFailureIsOk(db: Db, pr: Proc, e: AppError)
    requires !e.Conflict?
    ensures ProcOk(db, Finish(pr, Failure(e)))
  {
  }

  lemma StartedIsOk(db: Db, op: Op, now: Time)
    requires now != 0 && (op.Submission? && op.delivery.Some? ==> op.delivery.value.digest.command == op.cmd)
    ensures ProcOk(db, Started(op, now))
  {
    hide Validate;
    if Precheck(op).Err? {
      PrecheckNeverConflicts(op);
    }
  }

  lemma PrecheckNeverConflicts(op: Op)
    requires Precheck(op).Err?
    ensures !Precheck(op).error.Conflict?
  {
  }

  lemma StartOverIsOk(db: Db, pr: Proc)
    requires OpOk(pr.op)
    ensures ProcOk(db, StartOver(pr))
  {
    hide OpOk;
  }

  lemma OpSurvives(db: Db, pr: Proc)
    requires ProcOk(db, pr) && !pr.phase.Finished?
    ensures OpOk(pr.op) && PhaseOk(db, pr)
  {
  }

  lemma BeginInboxIsOk(db: Db, pr: Proc)
    requires ProcOk(db, pr) && pr.phase.BeginningInbox? && pr.op.Submission? && pr.op.delivery.Some?
    ensures ProcOk(db, AfterBeginInbox(db, pr))
  {
    hide OpOk;
  }

  // ----- Lookups -----

  /** A found row answers exactly the command it was accepted from. */
  lemma ReplayIsAnswered(db: Db, cmd: SubmitWagerCommand, id: TransactionId)
    requires id in db.rows && db.rows[id].txn.id == id
    requires (cmd.providerId, cmd.idempotencyKey) in db.byKey && db.byKey[(cmd.providerId, cmd.idempotencyKey)] == id
    requires db.rows[id].txn.digestVersion == Sha256JcsV1 && RowOk(db.rows[id])
    ensures var o := ReplayOrConflict(db.rows[id].txn, cmd);
            && (o.Answered? ==> AnsweredBy(db, cmd, o.result) && o.result.replay)
            && (o.Refused? ==> o.error == Conflict(IdempotencyConflict) && db.rows[id].txn.digest != DigestOf(cmd))
            && !o.Settles?
  {
    hide DigestOf;
  }

  lemma FoundRowIsOk(db: Db, pr: Proc, o: Outcome, completedAt: Time)
    requires OpOk(pr.op) && Begun(db, pr) && completedAt != 0 && !o.Settles?
    requires o.Answered? ==> AnsweredBy(db, pr.op.cmd, o.result) && o.result.replay
    requires o.Refused? ==> ConflictOk(db, pr.op, o.error)
    requires o.Answered? ==> pr.op.delivery.Some? || AnswerOk(db, pr.op, Success(o.result))
    ensures ProcOk(db, FoundRow(pr, o, completedAt))
  {
    hide OpOk, AnsweredBy, ConflictOk;
    match o
    case Refused(_) =>
    case Answered(result) =>
      if pr.op.delivery.Some? {
        assert FoundRow(pr, o, completedAt).phase == Completing(result, completedAt);
      }
  }

  lemma StoredProviderRow(db: Db, id: TransactionId)
    requires Inv(db) && id in db.rows && db.rows[id].txn.origin == External
    ensures db.rows[id].txn.digestVersion == Sha256JcsV1 && db.rows[id].txn.id == id && RowOk(db.rows[id])
  {
  }

  lemma LookupKeyIsOk(db: Db, pr: Proc, completedAt: Time)
    requires Inv(db) && ProcOk(db, pr) && pr.phase.LookingUpKey? && pr.op.Submission? && completedAt != 0
    ensures ProcOk(db, AfterLookupKey(db, pr, completedAt))
  {
    hide Inv, IndexOk, OpOk, LookupKey, ReplayOrConflict, AnsweredBy, FoundRow;
    LookupsAreExact(db, pr.op.cmd);
    var k := (pr.op.cmd.providerId, pr.op.cmd.idempotencyKey);
    if k in db.byKey {
      IndexesOf(db);
      IndexEntry(db.rows, db.byKey, KeyOf, k);
      StoredProviderRow(db, db.byKey[k]);
      ReplayIsAnswered(db, pr.op.cmd, db.byKey[k]);
      FoundRowIsOk(db, pr, ReplayOrConflict(db.rows[db.byKey[k]].txn, pr.op.cmd), completedAt);
    }
  }

  lemma ExternalAnswerUnfolds(found: WagerTransaction, cmd: SubmitWagerCommand)
    ensures ExternalAnswer(found, cmd) ==
            if found.idempotencyKey == cmd.idempotencyKey then ReplayOrConflict(found, cmd)
            else Refused(Conflict(ExternalTransactionConflict))
  {
  }

  lemma LookupExternalIsOk(db: Db, pr: Proc, completedAt: Time)
    requires Inv(db) && ProcOk(db, pr) && pr.phase.LookingUpExternal? && pr.op.Submission? && completedAt != 0
    ensures ProcOk(db, AfterLookupExternal(db, pr, completedAt))
  {
    hide Inv, IndexOk, OpOk, LookupExternal, ReplayOrConflict, ExternalAnswer, AnsweredBy, FoundRow;
    LookupsAreExact(db, pr.op.cmd);
    var x := (pr.op.cmd.providerId, pr.op.cmd.externalId);
    if x in db.byExternal {
      var id := db.byExternal[x];
      IndexesOf(db);
      IndexEntry(db.rows, db.byExternal, ExternalOf, x);
      StoredProviderRow(db, id);
      StoredKeyIsIndexed(db, id);
      ExternalAnswerUnfolds(db.rows[id].txn, pr.op.cmd);
      if db.rows[id].txn.idempotencyKey == pr.op.cmd.idempotencyKey {
        ReplayIsAnswered(db, pr.op.cmd, id);
      }
      FoundRowIsOk(db, pr, ExternalAnswer(db.rows[id].txn, pr.op.cmd), completedAt);
    }
  }

  // ----- Locks and the insert -----

  lemma NewTransactionErrors(wall: Result<Option<Wallet>, AppError>, cmd: SubmitWagerCommand, env: Env)
    requires NewTransaction(wall, cmd, env).Err? && (wall.Err? ==> wall.error == CorruptRecord)
    ensures !NewTransaction(wall, cmd, env).error.Conflict?
  {
  }

  lemma NewTransactionFacts(wall: Result<Option<Wallet>, AppError>, cmd: SubmitWagerCommand, env: Env)
    requires NewTransaction(wall, cmd, env).Ok?
    ensures wall.Ok? && wall.value.Some?
    ensures var t := NewTransaction(wall, cmd, env).value;
            && t.walletId == cmd.walletId && t.id == env.serial && t.amount.currency == wall.value.value.currency
            && t.state == Pending && KeyOf(t) == (cmd.providerId, cmd.idempotencyKey)
               && ExternalOf(t) == (cmd.providerId, cmd.externalId)
  {
  }

  lemma LockWalletIsOk(db: Db, pr: Proc, env: Env)
    requires ProcOk(db, pr) && pr.phase.LockingWallet? && pr.op.Submission? && EnvOk(env)
    ensures ProcOk(db, AfterLockWallet(db, pr, env))
  {
    hide OpOk, NewTransaction, RehydrateWallet;
    var wall := LookupWallet(db, pr.op.cmd.walletId);
    var created := NewTransaction(wall, pr.op.cmd, env);
    if created.Ok? {
      NewTransactionFacts(wall, pr.op.cmd, env);
      var w := Work(wall.value.value, created.value, 0, env);
      assert Locked(db, pr.op, w);
    } else {
      NewTransactionErrors(wall, pr.op.cmd, env);
      PlainFailureIsOk(db, pr, created.error);
    }
  }

  lemma InsertIsOk(db: Db, pr: Proc)
    requires ProcOk(db, pr) && pr.phase.Inserting? && pr.phase.work.env.serial !in db.rows
    ensures ProcOk(db, AfterInsert(db, pr))
  {
    hide OpOk, NewTransaction, RehydrateWallet, Settleable, InboxPrefix;
    OpSurvives(db, pr);
    var w := pr.phase.work;
    if KeyOf(w.txn) in db.byKey || ExternalOf(w.txn) in db.byExternal {
      StartOverIsOk(db, pr.(collided := true));
    } else {
      ValidatedCommand(pr.op);
      NewTransactionFacts(Ok(Some(w.wall)), pr.op.cmd, w.env);
      NewTransactionIsSettleable(db, pr.op.cmd, Ok(Some(w.wall)), w.env);
      assert AfterInsert(db, pr).done == WorkPrefix(pr.op, w);
    }
  }

  lemma ValidatedCommand(op: Op)
    requires OpOk(op) && op.Submission?
    ensures Validate(op.cmd).Ok? && (op.delivery.Some? ==> ValidateDelivery(op.delivery.value).Ok?)
  {
  }

  lemma LockRowIsOk(db: Db, pr: Proc)
    requires Inv(db) && ProcOk(db, pr) && pr.phase.LockingRow? && pr.op.Recovery?
    ensures ProcOk(db, AfterLockRow(db, pr))
  {
    hide Inv, OpOk, RowOk;
    if pr.op.id in db.rows {
      StoredRowRehydrates(db, pr.op.id);
    }
  }

  lemma StoredWaitingRow(db: Db, id: TransactionId, env: Env)
    requires Inv(db) && id in db.rows && db.rows[id].txn.state == PendingReference
    ensures Settleable(db, db.rows[id].txn, env) && db.rows[id].txn.id == id
    ensures db.rows[id].txn.walletId in db.wallets
    ensures WalletRead(db, db.wallets[db.rows[id].txn.walletId], db.rows[id].txn)
  {
    assert RowOk(db.rows[id]);
  }

  lemma LockRowWalletIsOk(db: Db, pr: Proc, env: Env)
    requires Inv(db) && ProcOk(db, pr) && pr.phase.LockingRowWallet? && EnvOk(env)
    ensures ProcOk(db, AfterLockRowWallet(db, pr, env))
  {
    hide Inv, OpOk, Settleable, RehydrateWallet;
    StoredWaitingRow(db, pr.op.id, env);
  }

  // ----- Reads -----

  lemma RunNone(db: Db)
    ensures ApplyAll(db, []) == db
  {
  }

  lemma InsertIsApart(db: Db, t: WagerTransaction)
    ensures Apply(db, InsertRow(t)).claims == db.claims
  {
  }

  lemma BegunIsApart(db: Db, d: InboxDelivery, t: WagerTransaction)
    ensures var v := Apply(Apply(db, BeginInbox(InboxKeyOf(d), d.digest, d.receivedAt)), InsertRow(t));
            && v.claims == db.claims && v.rows == Apply(db, InsertRow(t)).rows
               && v.byExternal == Apply(db, InsertRow(t)).byExternal
  {
    hide KeyOf, ExternalOf;
  }

  lemma OwnViewIsInsert(db: Db, op: Op, w: Work)
    ensures var v := ApplyAll(db, WorkPrefix(op, w));
            && v.claims == db.claims
            && (op.Submission? ==>
                  v.rows == Apply(db, InsertRow(w.txn)).rows && v.byExternal == Apply(db, InsertRow(w.txn)).byExternal)
            && (!op.Submission? ==> v == db)
  {
    hide Apply, ApplyAll;
    var tail := if op.Submission? then [InsertRow(w.txn)] else [];
    ApplyAllConcat(db, InboxPrefix(op), tail);
    if op.Submission? {
      if op.delivery.Some? {
        RunOne(db, InboxPrefix(op)[0]);
        RunOne(Apply(db, InboxPrefix(op)[0]), InsertRow(w.txn));
        BegunIsApart(db, op.delivery.value, w.txn);
      } else {
        RunOne(db, InsertRow(w.txn));
        RunNone(db);
        InsertIsApart(db, w.txn);
      }
    } else {
      RunNone(db);
    }
  }

  lemma LookupReads(a: Db, b: Db, t: WagerTransaction)
    requires a.rows == b.rows && a.byExternal == b.byExternal
    ensures LoadReference(a, t) == LoadReference(b, t)
  {
  }

  lemma ClaimReads(a: Db, b: Db, ref: Result<Option<WagerTransaction>, AppError>)
    requires a.claims == b.claims
    ensures ClaimRead(a, ref) == ClaimRead(b, ref)
  {
  }

  /** What a submission's lookup of its reference says about the committed tables. */
  lemma SubmissionKnowsReference(db: Db, t: WagerTransaction, env: Env)
    requires Inv(db) && Settleable(db, t, env) && t.state == Pending
    ensures var ref := LoadReference(Apply(db, InsertRow(t)), t);
            ReferenceKnown(db, t, ref, ClaimRead(db, ref))
  {
    hide Inv, IndexOk;
    IndexesOf(db);
    SubmissionReadsReference(db, t, env);
    var key := (t.providerId, t.referenceExternalId);
    IndexedRow(db, db.byExternal, ExternalOf, key);
    if key == ExternalOf(t) {
      assert Rehydrate(Row(t, 0, 0, 0)) == Ok(t);
    }
  }

  lemma RecoveryKnowsReference(db: Db, t: WagerTransaction)
    requires Inv(db) && t.id in db.rows && db.rows[t.id].txn == t && t.origin == External
    ensures var ref := LoadReference(db, t);
            ReferenceKnown(db, t, ref, ClaimRead(db, ref))
  {
    hide Inv, IndexOk;
    IndexesOf(db);
    var key := (t.providerId, t.referenceExternalId);
    IndexedRow(db, db.byExternal, ExternalOf, key);
    StoredKeyIsIndexed(db, t.id);
  }

  lemma ReadReferenceIsOk(db: Db, pr: Proc)
    requires Inv(db) && ProcOk(db, pr) && pr.phase.ReadingReference?
    ensures ProcOk(db, AfterReadReference(db, pr))
  {
    hide Inv, OpOk, Settleable, LoadReference, ReferenceKnown, ApplyAll, WorkPrefix, Apply, NewTransaction,
         RehydrateWallet;
    var w := pr.phase.work;
    var view := View(db, pr);
    OwnViewIsInsert(db, pr.op, w);
    if pr.op.Submission? {
      LookupReads(view, Apply(db, InsertRow(w.txn)), w.txn);
      SubmissionKnowsReference(db, w.txn, w.env);
    } else {
      SettleableIsProvider(db, w.txn, w.env);
      RecoveryKnowsReference(db, w.txn);
    }
    ClaimReads(view, db, LoadReference(view, w.txn));
  }

  lemma SettleableIsProvider(db: Db, t: WagerTransaction, env: Env)
    requires Settleable(db, t, env)
    ensures t.origin == External
  {
  }

  /** A decision made on what is known never ends in a conflict answer. */
  lemma DecisionIsPlain(db: Db, pr: Proc, w: Work, ref: Result<Option<WagerTransaction>, AppError>, claimRead: bool)
    requires Inv(db) && InPlace(db, pr.op, w) && ReferenceKnown(db, w.txn, ref, claimRead)
    requires SerialFresh(db, w.env.serial)
    requires Settle(w.wall, w.txn, w.attempts, ref, claimRead, w.env).Err?
    ensures !Settle(w.wall, w.txn, w.attempts, ref, claimRead, w.env).error.Conflict?
  {
    hide Inv, Settleable, Settle, ReferenceRead, SerialFresh, NewTransaction, RehydrateWallet;
    SettleIsSafe(db, w.wall, w.txn, w.attempts, ref.value, claimRead, w.env);
  }

  lemma ReadClaimIsOk(db: Db, pr: Proc, completedAt: Time)
    requires Inv(db) && ProcOk(db, pr) && pr.phase.ReadingClaim? && completedAt != 0
             && SerialFresh(db, pr.phase.work.env.serial)
    ensures ProcOk(db, AfterReadClaim(db, pr, completedAt))
  {
    hide Inv, OpOk, InPlace, ReferenceKnown, ApplyAll, WorkPrefix, Settle, Statements, CompletionOf, SerialFresh;
    var w, ref := pr.phase.work, pr.phase.ref;
    OwnViewIsInsert(db, pr.op, w);
    ClaimReads(View(db, pr), db, ref);
    var claimRead := ClaimRead(db, ref);
    match Settle(w.wall, w.txn, w.attempts, ref, claimRead, w.env)
    case Err(e) =>
      DecisionIsPlain(db, pr, w, ref, claimRead);
      PlainFailureIsOk(db, pr, e);
    case Ok(settled) =>
      var next := AfterReadClaim(db, pr, completedAt);
      assert next.done + next.todo ==
               WorkPrefix(pr.op, w) + Statements(settled.effect) + CompletionOf(pr.op, completedAt);
      assert Wrote(next, w, settled, completedAt);
  }

  // ----- Opening and writing -----

  lemma OpenErrors(db: Db, cmd: OpenWalletCommand, id: WalletId, env: Env)
    requires OpenWallet(db, cmd, id, env).Err? && EnvOk(env)
    ensures OpenWallet(db, cmd, id, env).error.Conflict? ==>
              OpenWallet(db, cmd, id, env).error == Conflict(WalletAlreadyExists)
                && (cmd.playerId, cmd.initialBalance.currency) in db.owners
  {
  }

  lemma OpenInstants(db: Db, cmd: OpenWalletCommand, id: WalletId, env: Env)
    requires OpenWallet(db, cmd, id, env).Ok?
    ensures OpenWallet(db, cmd, id, env).value.wallet.createdAt == env.now ==
              OpenWallet(db, cmd, id, env).value.wallet.updatedAt
  {
  }

  lemma InsertAccountIsOk(db: Db, pr: Proc, env: Env)
    requires ProcOk(db, pr) && pr.phase.InsertingAccount? && pr.op.OpenAccount? && EnvOk(env)
    requires pr.op.walletId !in db.wallets && env.serial !in db.rows
    ensures ProcOk(db, AfterInsertAccount(db, pr, env))
  {
    hide OpOk, OpenWallet, OpenStatements, OpenedEffect, WalletOk;
    match OpenWallet(db, pr.op.open, pr.op.walletId, env)
    case Err(e) => OpenErrors(db, pr.op.open, pr.op.walletId, env);
    case Ok(o) =>
      OpenedWalletFacts(db, pr.op.open, pr.op.walletId, env);
      OpenInstants(db, pr.op.open, pr.op.walletId, env);
      assert AccountReady(db, o, env);
      assert [] + OpenStatements(o) == OpenStatements(o);
  }

  lemma WriteIsOk(db: Db, pr: Proc)
    requires ProcOk(db, pr) && (pr.phase.Writing? || pr.phase.Completing? || pr.phase.WritingAccount?) && pr.todo != []
    ensures ProcOk(db, AfterWrite(pr))
  {
    hide OpOk, InPlace, ReferenceKnown, Settle, Statements, CompletionOf, WorkPrefix, AccountReady, OpenStatements,
         AnsweredBy, InboxFree, InboxPrefix;
    assert AfterWrite(pr).done + AfterWrite(pr).todo == pr.done + pr.todo;
  }

  // ----- All of them -----

  lemma LocalIsOk(s: System, pr: Proc, a: Action)
    requires Inv(s.db) && ProcOk(s.db, pr) && PhaseFits(pr, a) && s.clock != 0 && s.nextSerial != 0
    requires SerialOf(pr) != 0 ==> SerialFresh(s.db, SerialOf(pr))
    requires SerialFresh(s.db, s.nextSerial)
    requires a.InsertAccountStep? ==> pr.op.OpenAccount? && pr.op.walletId !in s.db.wallets
    ensures ProcOk(s.db, AfterAction(s, pr, a))
  {
    hide Inv, OpOk, PhaseOk, AnswerOk, AfterBeginInbox, AfterLookupKey, AfterLookupExternal, AfterLockWallet,
         AfterInsert, AfterLockRow, AfterLockRowWallet, AfterReadReference, AfterReadClaim, AfterInsertAccount,
         AfterWrite, StartOver, Finish;
    match a
    case BeginInboxStep => BeginInboxIsOk(s.db, pr);
    case LookupKeyStep(t) => LookupKeyIsOk(s.db, pr, t);
    case LookupExternalStep(t) => LookupExternalIsOk(s.db, pr, t);
    case LockWalletStep(c, h) => LockWalletIsOk(s.db, pr, NewEnv(s, c, h));
    case InsertStep =>
      EnvOfWork(s.db, pr);
      InsertIsOk(s.db, pr);
    case LockRowStep => LockRowIsOk(s.db, pr);
    case LockRowWalletStep(c, h) => LockRowWalletIsOk(s.db, pr, NewEnv(s, c, h));
    case ReadReferenceStep => ReadReferenceIsOk(s.db, pr);
    case ReadClaimStep(t) =>
      EnvOfWork(s.db, pr);
      ReadClaimIsOk(s.db, pr, t);
    case InsertAccountStep(c, h) =>
      OpeningReading(s.db, pr);
      InsertAccountIsOk(s.db, pr, AccountEnv(s, pr.phase.openedAt, c, h));
    case WriteStep => WriteIsOk(s.db, pr);
    case DeadlockStep => StartOverIsOk(s.db, pr.(deadlocks := pr.deadlocks + 1));
    case StoreErrorStep => PlainFailureIsOk(s.db, pr, Transient);
  }

  lemma OpeningReading(db: Db, pr: Proc)
    requires ProcOk(db, pr) && pr.phase.InsertingAccount?
    ensures pr.phase.openedAt != 0
  {
  }

  lemma EnvOfWork(db: Db, pr: Proc)
    requires ProcOk(db, pr)
             && (pr.phase.Inserting? || pr.phase.ReadingReference? || pr.phase.ReadingClaim? || pr.phase.Writing?)
    ensures EnvOk(pr.phase.work.env)
  {
    hide Settleable, NewTransaction, RehydrateWallet, ReferenceKnown, Settle, Statements;
  }
}
