/** What a commit does: it keeps every invariant, changes nothing outside what the transaction held
    and makes its answer true. */
module Commitment {
  import opened Results
  import opened Wager
  import opened Wallets
  import opened AppErrors
  import opened Commands
  import opened Tables
  import opened Settlement
  import opened Operations
  import opened Invariants
  import opened Preservation
  import opened EffectSafety
  import opened SettlementSafety
  import opened StatementRuns
  import opened OperationSafety
  import opened OpeningSafety
  import opened Interleaving
  import opened Noninterference
  import LocalSteps

  // ----- An effect lands inside the footprint of its operation -----

  ghost predicate Covers(f: Footprint, db: Db, t: WagerTransaction) {
    && t.walletId in f.wallets && t.id in f.rows
    && (t.id !in db.rows && t.origin == External ==> KeyOf(t) in f.keys && ExternalOf(t) in f.externals)
  }

  lemma RowLands(rows: RowTable, row: Row, held: set<TransactionId>)
    requires Placed(rows, row.txn) && row.txn.id in held
    ensures RowsGrow(rows, rows[row.txn.id := row]) && RowsWithin(rows, rows[row.txn.id := row], held)
  {
  }

  lemma EntryLands<K(!new), V(!new)>(index: map<K, V>, k: K, v: V, held: set<K>)
    requires if k in index then index[k] == v else k in held
    ensures Extends(index, index[k := v]) && NewKeysIn(index, index[k := v], held)
  {
  }

  lemma WalletLands(wallets: WalletTable, w: Wallet, held: set<WalletId>)
    requires w.id in held
    ensures WalletsWithin(wallets, wallets[w.id := w], held)
  {
  }

  /** The parts of EffectOk a change of tables depends on. */
  lemma EffectParts(db: Db, e: Effect, serial: nat, f: Footprint)
    requires Inv(db) && EffectOk(db, e, serial) && Covers(f, db, e.row.txn)
    ensures Placed(db.rows, e.row.txn)
    ensures e.transfer.Some? ==>
              var w := e.transfer.value.wallet;
              w.id == e.row.txn.walletId && w.id in db.wallets && OwnerOf(w) == OwnerOf(db.wallets[w.id])
    ensures e.row.txn.origin == External ==>
              && (if KeyOf(e.row.txn) in db.byKey then db.byKey[KeyOf(e.row.txn)] == e.row.txn.id
                  else KeyOf(e.row.txn) in f.keys)
              && (if ExternalOf(e.row.txn) in db.byExternal then db.byExternal[ExternalOf(e.row.txn)] == e.row.txn.id
                  else ExternalOf(e.row.txn) in f.externals)
  {
    hide Inv, EventsFit, IndexOk, EntryOk, NewClaim, StartsAtBalance, WalletOk, RowOk;
    if e.row.txn.id in db.rows {
      StoredKeyIsIndexed(db, e.row.txn.id);
    }
  }

  lemma AppliedParts(db: Db, e: Effect)
    ensures var after := ApplyEffect(db, e);
            && after.wallets == (if e.transfer.Some?
                                 then db.wallets[e.transfer.value.wallet.id := e.transfer.value.wallet] else db.wallets)
            && after.owners == db.owners && after.inbox == db.inbox
            && after.rows == db.rows[e.row.txn.id := e.row]
            && after.byKey == (if e.row.txn.origin == External then db.byKey[KeyOf(e.row.txn) := e.row.txn.id]
                               else db.byKey)
            && after.byExternal == (if e.row.txn.origin == External
                                    then db.byExternal[ExternalOf(e.row.txn) := e.row.txn.id] else db.byExternal)
            && db.ledger <= after.ledger && db.claims <= after.claims && db.outbox <= after.outbox
  {
  }

  lemma ClaimOnOwnWallet(db: Db, e: Effect, serial: nat, id: TransactionId)
    requires EffectOk(db, e, serial) && id in ApplyEffect(db, e).rows
             && ApplyEffect(db, e).rows[id].txn.walletId != e.row.txn.walletId
    ensures HasClaim(ApplyEffect(db, e).claims, id) == HasClaim(db.claims, id)
  {
    if e.transfer.Some? && e.transfer.value.claim.Some? {
      var c := e.transfer.value.claim.value;
      assert NewClaim(db.rows, db.claims, e.row, c);
      HasClaimOfAppend(db.claims, c, id);
    }
  }

  lemma DecisionsLand(db: Db, e: Effect, serial: nat, held: set<WalletId>)
    requires EffectOk(db, e, serial) && e.row.txn.walletId in held
    ensures DecisionsWithin(db, ApplyEffect(db, e), held)
  {
    hide EffectOk, HasClaim, ApplyEffect;
    AppliedParts(db, e);
    var after := ApplyEffect(db, e);
    forall id | id in after.rows && after.rows[id].txn.walletId !in held
      ensures id in db.rows && after.rows[id].txn.state == db.rows[id].txn.state
              && HasClaim(after.claims, id) == HasClaim(db.claims, id)
    {
      ClaimOnOwnWallet(db, e, serial, id);
    }
  }

  /** An effect loses nothing and stays within the footprint of its operation. */
  lemma EffectLands(db: Db, e: Effect, serial: nat, f: Footprint)
    requires Inv(db) && EffectOk(db, e, serial) && Covers(f, db, e.row.txn)
    ensures Grows(db, ApplyEffect(db, e)) && Within(db, ApplyEffect(db, e), f)
  {
    hide Inv, EffectOk, HasClaim, ApplyEffect, Placed, RowsGrow, RowsWithin, DecisionsWithin;
    EffectParts(db, e, serial, f);
    AppliedParts(db, e);
    RowLands(db.rows, e.row, f.rows);
    DecisionsLand(db, e, serial, f.wallets);
    if e.row.txn.origin == External {
      EntryLands(db.byKey, KeyOf(e.row.txn), e.row.txn.id, f.keys);
      EntryLands(db.byExternal, ExternalOf(e.row.txn), e.row.txn.id, f.externals);
    }
    if e.transfer.Some? {
      WalletLands(db.wallets, e.transfer.value.wallet, f.wallets);
    }
  }

  /** The identities an effect uses up all come from its own serial. */
  lemma EffectUses(db: Db, e: Effect, serial: nat, n: nat)
    requires EffectOk(db, e, serial) && SerialFresh(db, n) && n != serial
    requires e.row.txn.id in db.rows || e.row.txn.id == serial
    requires e.transfer.Some? ==> e.transfer.value.entry.id == serial
    ensures SerialFresh(ApplyEffect(db, e), n)
  {
    hide RowFits, TransferFits;
  }

  /** A change of the delivery record on top of another change. */
  lemma DeliveryLands(a: Db, b: Db, f: Footprint, d: InboxDelivery, completedAt: Time)
    requires Grows(a, b) && Within(a, b, f) && InboxKeyOf(d) in f.inboxes && InboxKeyOf(d) !in b.inbox
    ensures Grows(a, CompletedInbox(b, d, completedAt)) && Within(a, CompletedInbox(b, d, completedAt), f)
  {
  }

  lemma NothingLands(db: Db, f: Footprint)
    ensures Grows(db, db) && Within(db, db, f)
  {
  }

  // ----- Submissions and recovery passes -----

  lemma WorkIsReady(db: Db, op: Op, w: Work, ref: Result<Option<WagerTransaction>, AppError>, claimRead: bool)
    requires Inv(db) && InPlace(db, op, w) && ReferenceKnown(db, w.txn, ref, claimRead) && SerialFresh(db, w.env.serial)
    ensures SettleReady(db, w.wall, w.txn, ref.value, claimRead, w.env)
  {
    hide Inv, Settleable, ReferenceRead, SerialFresh, NewTransaction, RehydrateWallet;
  }

  lemma WorkInPlace(db: Db, op: Op, w: Work, s: Settled)
    requires Inv(db) && InPlace(db, op, w) && ShapeOk(w.wall, w.txn, w.env, s)
    ensures WalletInPlace(db, s.effect) && (op.Recovery? ==> RowInPlace(db, s.effect))
    ensures op.Submission? || op.Recovery?
    ensures w.txn.origin == External && s.effect.row.txn.id == w.txn.id && KeyOf(s.effect.row.txn) == KeyOf(w.txn)
    ensures w.txn.id in db.rows || w.txn.id == w.env.serial
    ensures w.txn.id in db.rows <==> op.Recovery?
  {
    hide Inv, NewTransaction, RehydrateWallet, IndexOk;
    WalletIsOk(db, w.wall, w.txn);
    if op.Recovery? {
      StoredKeyIsIndexed(db, w.txn.id);
    }
  }

  /** The statements of a transaction amount to the operation's effect and, for a delivery, its completed record. */
  function Committed(db: Db, op: Op, s: Settled, completedAt: Time): Db {
    if op.Submission? && op.delivery.Some? then CompletedInbox(ApplyEffect(db, s.effect), op.delivery.value,
                                                               completedAt)
    else ApplyEffect(db, s.effect)
  }

  function CoreStatements(op: Op, w: Work, s: Settled): seq<Statement> {
    (if op.Submission? then [InsertRow(w.txn)] else []) + Statements(s.effect)
  }

  lemma CoreRuns(db: Db, op: Op, w: Work, s: Settled)
    requires Inv(db) && InPlace(db, op, w) && ShapeOk(w.wall, w.txn, w.env, s)
    ensures ApplyAll(db, CoreStatements(op, w, s)) == ApplyEffect(db, s.effect)
    ensures forall i | 0 <= i < |CoreStatements(op, w, s)| :: !TouchesInbox(CoreStatements(op, w, s)[i])
  {
    hide Inv, InPlace, ApplyAll, Statements, TouchesInbox;
    WorkInPlace(db, op, w, s);
    StatementsAvoidInbox(s.effect);
    assert !TouchesInbox(InsertRow(w.txn)) by { RowsAreNotDeliveries(w.txn); }
    if op.Submission? {
      InsertedRowRuns(db, w.txn, s.effect);
    } else {
      StatementsRun(db, s.effect);
      assert [] + Statements(s.effect) == Statements(s.effect);
    }
  }

  lemma RowsAreNotDeliveries(t: WagerTransaction)
    ensures !TouchesInbox(InsertRow(t))
  {
  }

  lemma CommitRuns(db: Db, op: Op, w: Work, s: Settled, completedAt: Time)
    requires Inv(db) && InPlace(db, op, w) && ShapeOk(w.wall, w.txn, w.env, s)
    ensures ApplyAll(db, WorkPrefix(op, w) + Statements(s.effect) + CompletionOf(op, completedAt)) ==
              Committed(db, op, s, completedAt)
  {
    hide Inv, InPlace, ShapeOk, ApplyAll, Statements, TouchesInbox, ApplyEffect;
    var core := CoreStatements(op, w, s);
    CoreRuns(db, op, w, s);
    assert WorkPrefix(op, w) + Statements(s.effect) + CompletionOf(op, completedAt) ==
             InboxPrefix(op) + core + CompletionOf(op, completedAt);
    if op.Submission? && op.delivery.Some? {
      var d := op.delivery.value;
      DeliveryRuns(db, InboxKeyOf(d), d.digest, d.receivedAt, core, completedAt);
      EffectLeavesInbox(db, s.effect);
    } else {
      assert [] + core + [] == core;
    }
  }

  lemma EffectLeavesInbox(db: Db, e: Effect)
    ensures ApplyEffect(db, e).inbox == db.inbox
  {
  }

  lemma EffectIndexes(db: Db, e: Effect)
    requires e.row.txn.origin == External
    ensures var after := ApplyEffect(db, e);
            && KeyOf(e.row.txn) in after.byKey && after.byKey[KeyOf(e.row.txn)] == e.row.txn.id
            && e.row.txn.id in after.rows && after.rows[e.row.txn.id] == e.row
  {
  }

  lemma WorkIsCovered(db: Db, op: Op, w: Work, s: Settled)
    requires InPlace(db, op, w) && ShapeOk(w.wall, w.txn, w.env, s)
    ensures Covers(WorkHeld(op, w), db, s.effect.row.txn)
  {
    hide NewTransaction, RehydrateWallet;
  }

  /** The answer tells the row its effect stores. */
  lemma SettledTells(wall: Wallet, t: WagerTransaction, env: Env, s: Settled)
    requires ShapeOk(wall, t, env, s) && RowOk(s.effect.row)
    ensures Tells(s.result, s.effect.row.txn) && Witnesses(s.effect.row.txn, s.result) && !s.result.replay
  {
  }

  lemma EffectRowOk(db: Db, e: Effect, serial: nat)
    requires EffectOk(db, e, serial)
    ensures RowOk(e.row)
  {
    hide RowOk, TransferFits, EventsFit;
  }

  lemma PassAnswerIsTheRow(db: Db, op: Op, w: Work, s: Settled)
    requires op.Recovery? && InPlace(db, op, w) && ShapeOk(w.wall, w.txn, w.env, s) && RowOk(s.effect.row)
    ensures ResolvedBy(ApplyEffect(db, s.effect), op.id, s.result)
  {
    hide RehydrateWallet, Settleable, RowOk, Witnesses, ApplyEffect;
    SettledTells(w.wall, w.txn, w.env, s);
    AppliedParts(db, s.effect);
  }

  lemma AnswerIsTheRow(db: Db, op: Op, w: Work, s: Settled)
    requires op.Submission? && InPlace(db, op, w) && ShapeOk(w.wall, w.txn, w.env, s) && RowOk(s.effect.row)
    ensures AnsweredBy(ApplyEffect(db, s.effect), op.cmd, s.result)
  {
    hide RehydrateWallet, InboxFree, RowOk, Witnesses;
    SettledTells(w.wall, w.txn, w.env, s);
    EffectIndexes(db, s.effect);
    NewTransactionIsOfCommand(w, op.cmd);
    assert KeyOf(s.effect.row.txn) == (op.cmd.providerId, op.cmd.idempotencyKey);
  }

  lemma NewTransactionIsOfCommand(w: Work, cmd: SubmitWagerCommand)
    requires NewTransaction(Ok(Some(w.wall)), cmd, w.env) == Ok(w.txn)
    ensures w.txn.digest == DigestOf(cmd) && w.txn.digestVersion == Sha256JcsV1 && w.txn.origin == External
    ensures KeyOf(w.txn) == (cmd.providerId, cmd.idempotencyKey) && w.txn.state == Pending && w.txn.id == w.env.serial
  {
  }

  lemma AnsweredByIgnoresInbox(db: Db, cmd: SubmitWagerCommand, result: WagerResult, d: InboxDelivery,
                               completedAt: Time)
    requires AnsweredBy(db, cmd, result)
    ensures AnsweredBy(CompletedInbox(db, d, completedAt), cmd, result)
  {
  }

  lemma SerialsIgnoreInbox(db: Db, n: nat, d: InboxDelivery, completedAt: Time)
    requires SerialFresh(db, n)
    ensures SerialFresh(CompletedInbox(db, d, completedAt), n)
  {
  }

  ghost predicate Landed(a: Db, b: Db, pr: Proc) {
    Inv(b) && Grows(a, b) && Within(a, b, Holdings(pr)) && AnswerOk(b, pr.op, CommitAnswer(pr))
  }

  /** The effect of a decided operation, before its delivery is completed. */
  lemma WorkLands(db: Db, op: Op, w: Work, ref: Result<Option<WagerTransaction>, AppError>, claimRead: bool, s: Settled)
    requires Inv(db) && InPlace(db, op, w) && ReferenceKnown(db, w.txn, ref, claimRead) && SerialFresh(db, w.env.serial)
    requires Settle(w.wall, w.txn, w.attempts, ref, claimRead, w.env) == Ok(s)
    ensures ShapeOk(w.wall, w.txn, w.env, s) && EffectOk(db, s.effect, w.env.serial)
    ensures Inv(ApplyEffect(db, s.effect)) && Grows(db, ApplyEffect(db, s.effect))
    ensures Within(db, ApplyEffect(db, s.effect), WorkHeld(op, w))
    ensures op.Submission? ==> AnsweredBy(ApplyEffect(db, s.effect), op.cmd, s.result)
    ensures op.Recovery? ==> ResolvedBy(ApplyEffect(db, s.effect), op.id, s.result)
  {
    hide Inv, InPlace, SettleReady, ReferenceKnown, SerialFresh, Settle, EffectOk, ShapeOk, ApplyEffect, AnsweredBy,
         ResolvedBy, RowOk, Within, Grows, WorkHeld;
    WorkIsReady(db, op, w, ref, claimRead);
    SettleIsShaped(w.wall, w.txn, w.attempts, ref, claimRead, w.env);
    assert ref == Ok(ref.value) by { KnownIsOk(db, w.txn, ref, claimRead); }
    SettleIsSafe(db, w.wall, w.txn, w.attempts, ref.value, claimRead, w.env);
    SettledEffectPreserves(db, w.wall, w.txn, w.attempts, ref.value, claimRead, w.env);
    WorkIsCovered(db, op, w, s);
    EffectLands(db, s.effect, w.env.serial, WorkHeld(op, w));
    EffectRowOk(db, s.effect, w.env.serial);
    if op.Submission? {
      AnswerIsTheRow(db, op, w, s);
    } else if op.Recovery? {
      PassAnswerIsTheRow(db, op, w, s);
    }
  }

  lemma KnownIsOk(db: Db, t: WagerTransaction, ref: Result<Option<WagerTransaction>, AppError>, claimRead: bool)
    requires ReferenceKnown(db, t, ref, claimRead)
    ensures ref.Ok?
  {
  }

  lemma DeliveryCommits(db: Db, mid: Db, pr: Proc, result: WagerResult, completedAt: Time)
    requires OpOk(pr.op) && pr.op.Submission? && pr.op.delivery.Some? && completedAt != 0
             && CommitAnswer(pr) == Success(result)
    requires Inv(mid) && Grows(db, mid) && Within(db, mid, Holdings(pr)) && AnsweredBy(mid, pr.op.cmd, result)
    requires InboxKeyOf(pr.op.delivery.value) !in mid.inbox && InboxKeyOf(pr.op.delivery.value) in Holdings(pr).inboxes
    ensures Landed(db, CompletedInbox(mid, pr.op.delivery.value, completedAt), pr)
  {
    hide Inv, Grows, Within, Holdings;
    var d := pr.op.delivery.value;
    var after := CompletedInbox(mid, d, completedAt);
    DeliveryLands(db, mid, Holdings(pr), d, completedAt);
    AnsweredByIgnoresInbox(mid, pr.op.cmd, result, d, completedAt);
    InboxExtends(mid, d, completedAt);
  }

  lemma WritingHoldings(pr: Proc)
    requires pr.phase.Writing?
    ensures Holdings(pr) == WorkHeld(pr.op, pr.phase.work)
    ensures pr.op.Submission? && pr.op.delivery.Some? ==> InboxKeyOf(pr.op.delivery.value) in Holdings(pr).inboxes
  {
  }

  lemma InPlaceInbox(db: Db, op: Op, w: Work)
    requires InPlace(db, op, w)
    ensures InboxFree(db, op) && (op.Submission? || op.Recovery?)
  {
    hide InboxFree;
  }

  lemma WritingCommits(db: Db, pr: Proc)
    requires Inv(db) && ProcOk(db, pr) && pr.phase.Writing? && pr.todo == []
    requires SerialFresh(db, pr.phase.work.env.serial)
    ensures ApplyAll(db, pr.done) == Committed(db, pr.op, pr.phase.settled, pr.phase.completedAt)
    ensures Landed(db, ApplyAll(db, pr.done), pr)
  {
    hide Inv, InPlace, ReferenceKnown, SerialFresh, Settle, EffectOk, ShapeOk, ApplyEffect, ApplyAll, AnsweredBy,
         ResolvedBy, Within, Grows, OpOk, Holdings, WorkHeld, Statements, CompletionOf, WorkPrefix;
    var w, s := pr.phase.work, pr.phase.settled;
    WorkLands(db, pr.op, w, pr.phase.ref, pr.phase.claimRead, s);
    CommitRuns(db, pr.op, w, s, pr.phase.completedAt);
    assert pr.done + [] == pr.done;
    WritingHoldings(pr);
    InPlaceInbox(db, pr.op, w);
    EffectLeavesInbox(db, s.effect);
    if pr.op.Submission? && pr.op.delivery.Some? {
      DeliveryCommits(db, ApplyEffect(db, s.effect), pr, s.result, pr.phase.completedAt);
    }
  }

  lemma SettledShape(db: Db, pr: Proc)
    requires ProcOk(db, pr) && pr.phase.Writing?
    ensures ShapeOk(pr.phase.work.wall, pr.phase.work.txn, pr.phase.work.env, pr.phase.settled)
  {
    hide OpOk, InPlace, ReferenceKnown, Settle, ShapeOk, Statements;
    var w := pr.phase.work;
    SettleIsShaped(w.wall, w.txn, w.attempts, pr.phase.ref, pr.phase.claimRead, w.env);
  }

  /** A delivery of an operation that already had its row. */
  lemma CompletingCommits(db: Db, pr: Proc)
    requires Inv(db) && ProcOk(db, pr) && pr.phase.Completing? && pr.todo == []
    ensures pr.op.Submission? && pr.op.delivery.Some?
    ensures ApplyAll(db, pr.done) == CompletedInbox(db, pr.op.delivery.value, pr.phase.completedAt)
    ensures Landed(db, ApplyAll(db, pr.done), pr)
  {
    hide Inv, AnsweredBy, OpOk, ApplyAll;
    var d := pr.op.delivery.value;
    assert pr.done + [] == pr.done;
    assert InboxPrefix(pr.op) + [] + CompletionOf(pr.op, pr.phase.completedAt) == pr.done;
    DeliveryRuns(db, InboxKeyOf(d), d.digest, d.receivedAt, [], pr.phase.completedAt);
    assert ApplyAll(db, []) == db by { RunNothing(db); }
    NothingLands(db, Holdings(pr));
    DeliveryCommits(db, db, pr, pr.phase.result, pr.phase.completedAt);
  }

  lemma RunNothing(db: Db)
    ensures ApplyAll(db, []) == db
  {
  }

  // ----- Openings -----

  lemma OpenRuns(db: Db, o: Opened, env: Env)
    requires AccountReady(db, o, env)
    ensures ApplyAll(db, OpenStatements(o)) == ApplyOpened(db, o)
  {
    var inserted := Apply(db, InsertWallet(o.wallet));
    if o.opening.None? {
      assert OpenStatements(o) == [InsertWallet(o.wallet)];
      RunOne(db, InsertWallet(o.wallet));
    } else {
      var e := o.opening.value;
      var entry := e.transfer.value.entry;
      var rest := EventStatements(e.events);
      assert OpenStatements(o) == [InsertWallet(o.wallet)] + ([InsertRow(e.row.txn)] + ([AppendLedger(entry)] + rest));
      RunFirst(db, InsertWallet(o.wallet), [InsertRow(e.row.txn)] + ([AppendLedger(entry)] + rest));
      RunFirst(inserted, InsertRow(e.row.txn), [AppendLedger(entry)] + rest);
      var placed := Apply(inserted, InsertRow(e.row.txn));
      RunFirst(placed, AppendLedger(entry), rest);
      EventsAppended(Apply(placed, AppendLedger(entry)), e.events);
      assert inserted.wallets[o.wallet.id := o.wallet] == inserted.wallets;
    }
  }

  lemma AccountParts(db: Db, o: Opened, env: Env)
    requires AccountReady(db, o, env)
    ensures var after := ApplyOpened(db, o);
            && after.wallets == db.wallets[o.wallet.id := o.wallet]
            && after.owners == db.owners[OwnerOf(o.wallet) := o.wallet.id]
            && after.byKey == db.byKey && after.byExternal == db.byExternal && after.inbox == db.inbox
            && after.claims == db.claims && db.ledger <= after.ledger && db.outbox <= after.outbox
            && after.rows.Keys <= db.rows.Keys + {env.serial}
            && (forall id | id in db.rows :: id in after.rows && after.rows[id] == db.rows[id])
            && (env.serial in after.rows ==> after.rows[env.serial].txn.walletId == o.wallet.id)
  {
    var w := o.wallet;
    assert db.wallets[w.id := w][w.id := w] == db.wallets[w.id := w];
  }

  lemma AccountLands(db: Db, o: Opened, env: Env, f: Footprint)
    requires AccountReady(db, o, env)
    requires o.wallet.id in f.wallets && env.serial in f.rows && OwnerOf(o.wallet) in f.owners
    ensures Grows(db, ApplyOpened(db, o)) && Within(db, ApplyOpened(db, o), f)
    ensures o.wallet.id in ApplyOpened(db, o).wallets
  {
    hide ApplyOpened, HasClaim, OpenedEffect, WalletOk;
    AccountParts(db, o, env);
    EntryLands(db.owners, OwnerOf(o.wallet), o.wallet.id, f.owners);
    WalletLands(db.wallets, o.wallet, f.wallets);
  }

  lemma AccountUses(db: Db, o: Opened, env: Env, n: nat)
    requires AccountReady(db, o, env) && SerialFresh(db, n) && n != env.serial
    ensures SerialFresh(ApplyOpened(db, o), n)
  {
  }

  lemma AccountKeeps(db: Db, o: Opened, env: Env)
    requires Inv(db) && AccountReady(db, o, env) && SerialFresh(db, env.serial)
    ensures Inv(ApplyOpened(db, o))
  {
    hide Inv, StructureOk, WalletAgrees, ApplyOpened, OpenedEffect, WalletOk;
    UnknownWalletIsBlank(db, o.wallet.id);
    InsertedWalletKeeps(db, o.wallet);
    OpenedKeeps(db, o, env);
  }

  lemma AccountCommits(db: Db, pr: Proc)
    requires Inv(db) && ProcOk(db, pr) && pr.phase.WritingAccount? && pr.todo == []
    requires SerialFresh(db, pr.phase.env.serial)
    ensures ApplyAll(db, pr.done) == ApplyOpened(db, pr.phase.account)
    ensures Landed(db, ApplyAll(db, pr.done), pr)
  {
    hide Inv, AccountReady, ApplyAll, ApplyOpened, OpenStatements, Grows, Within, SerialFresh, OpOk;
    assert pr.done + [] == pr.done;
    var o, env := pr.phase.account, pr.phase.env;
    OpenRuns(db, o, env);
    AccountKeeps(db, o, env);
    AccountLands(db, o, env, Holdings(pr));
  }

  // ----- Any commit -----

  /** A commit keeps every invariant, stays within what its transaction held and makes its answer true. */
  lemma CommitLands(db: Db, pr: Proc)
    requires Inv(db) && ProcOk(db, pr) && ReadyToCommit(pr)
    requires SerialOf(pr) != 0 ==> SerialFresh(db, SerialOf(pr))
    ensures Landed(db, ApplyAll(db, pr.done), pr)
  {
    hide Inv, ApplyAll, SerialFresh, Landed, ProcOk;
    if pr.phase.Writing? {
      LocalSteps.EnvOfWork(db, pr);
      WritingCommits(db, pr);
    } else if pr.phase.Completing? {
      CompletingCommits(db, pr);
    } else {
      EnvOfAccount(db, pr);
      AccountCommits(db, pr);
    }
  }

  lemma EnvOfAccount(db: Db, pr: Proc)
    requires ProcOk(db, pr) && pr.phase.WritingAccount?
    ensures EnvOk(pr.phase.env) && AccountReady(db, pr.phase.account, pr.phase.env)
  {
  }

  /** A commit uses up no identity but its own. */
  lemma CommitUses(db: Db, pr: Proc, n: nat)
    requires Inv(db) && ProcOk(db, pr) && ReadyToCommit(pr)
    requires SerialOf(pr) != 0 ==> SerialFresh(db, SerialOf(pr))
    requires SerialFresh(db, n) && n != SerialOf(pr)
    ensures SerialFresh(ApplyAll(db, pr.done), n)
  {
    hide Inv, ApplyAll, SerialFresh, ProcOk, EffectOk, Landed, PhaseOk;
    if pr.phase.Writing? {
      LocalSteps.EnvOfWork(db, pr);
      WritingCommits(db, pr);
      WritingUses(db, pr, n);
    } else if pr.phase.Completing? {
      CompletingCommits(db, pr);
      SerialsIgnoreInbox(db, n, pr.op.delivery.value, pr.phase.completedAt);
    } else {
      EnvOfAccount(db, pr);
      AccountCommits(db, pr);
      AccountUses(db, pr.phase.account, pr.phase.env, n);
    }
  }

  lemma WritingUses(db: Db, pr: Proc, n: nat)
    requires Inv(db) && ProcOk(db, pr) && pr.phase.Writing? && SerialFresh(db, pr.phase.work.env.serial)
    requires SerialFresh(db, n) && n != pr.phase.work.env.serial
    ensures SerialFresh(Committed(db, pr.op, pr.phase.settled, pr.phase.completedAt), n)
  {
    hide Inv, InPlace, ReferenceKnown, SerialFresh, Settle, EffectOk, ApplyEffect, ApplyAll, AnsweredBy, Within, Grows,
         OpOk, Wrote;
    var w, s := pr.phase.work, pr.phase.settled;
    WorkLands(db, pr.op, w, pr.phase.ref, pr.phase.claimRead, s);
    WorkInPlace(db, pr.op, w, s);
    EffectUses(db, s.effect, w.env.serial, n);
    if pr.op.Submission? && pr.op.delivery.Some? {
      SerialsIgnoreInbox(ApplyEffect(db, s.effect), n, pr.op.delivery.value, pr.phase.completedAt);
    }
  }

  // ----- Leases -----

  lemma LeaseOneLands(db: Db, id: TransactionId, now: Time, lease: nat, f: Footprint)
    requires id in f.rows && (id in db.rows ==> db.rows[id].txn.id == id)
    ensures Grows(db, LeaseReference(db, id, now, lease)) && Within(db, LeaseReference(db, id, now, lease), f)
    ensures forall n :: SerialFresh(db, n) ==> SerialFresh(LeaseReference(db, id, now, lease), n)
  {
  }

  lemma WithinComposes(a: Db, b: Db, c: Db, f: Footprint)
    requires Grows(a, b) && Grows(b, c) && Within(a, b, f) && Within(b, c, f)
    ensures Within(a, c, f)
  {
  }

  /** Leasing a batch changes only the batch. */
  lemma {:induction false} LeaseLands(db: Db, picked: seq<TransactionId>, now: Time, lease: nat, f: Footprint)
    requires Inv(db) && forall i | 0 <= i < |picked| :: picked[i] in f.rows
    ensures Grows(db, LeaseReferences(db, picked, now, lease)) && Within(db, LeaseReferences(db, picked, now, lease), f)
    ensures forall n :: SerialFresh(db, n) ==> SerialFresh(LeaseReferences(db, picked, now, lease), n)
    decreases picked
  {
    hide Inv, Grows, Within, SerialFresh, LeaseReference;
    if picked == [] {
      NothingLands(db, f);
    } else {
      var next := LeaseReference(db, picked[0], now, lease);
      if picked[0] in db.rows {
        StoredRowRehydrates(db, picked[0]);
      }
      LeaseOneLands(db, picked[0], now, lease, f);
      LeaseOneKeeps(db, picked[0], now, lease);
      LeaseLands(next, picked[1..], now, lease, f);
      WithinComposes(db, next, LeaseReferences(db, picked, now, lease), f);
      GrowthComposes(db, next, LeaseReferences(db, picked, now, lease));
    }
  }
}
