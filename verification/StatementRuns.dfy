/** Running the statements of a settled operation one after the other amounts to its effect in one piece. */
module StatementRuns {
  import opened Results
  import opened Wager
  import opened Wallets
  import opened AppErrors
  import Commands
  import opened Resolution
  import opened Tables
  import opened Settlement

  // ----- The shape of a settled operation -----

  /** The settled row keeps its command, the answer is that row, a transfer saves the wallet it was decided on,
      and every new identity comes from the one drawn. */
  predicate ShapeOk(wall: Wallet, t: WagerTransaction, env: Env, s: Settled) {
    var e := s.effect;
    && SameCommand(t, e.row.txn) && Tells(s.result, e.row.txn) && !s.result.replay && e.row.claimedUntil == 0
    && (e.rescheduled ==>
          && e.transfer.None? && e.events == []
          && e.row.txn == t.(updatedAt := e.row.txn.updatedAt))
    && (e.transfer.Some? ==>
          var w := e.transfer.value.wallet;
          && w == wall.(balance := w.balance, version := w.version, updatedAt := env.now)
          && e.transfer.value.entry.id == env.serial)
  }

  predicate Shaped(wall: Wallet, t: WagerTransaction, env: Env, r: Result<Settled, AppError>) {
    r.Ok? ==> ShapeOk(wall, t, env, r.value)
  }

  lemma ErrorIsShaped(wall: Wallet, t: WagerTransaction, env: Env, e: AppError)
    ensures Shaped(wall, t, env, Err(e))
  {
  }

  lemma RejectIsShaped(wall: Wallet, t: WagerTransaction, reference: TransactionId, code: FailureCode, env: Env)
    ensures Shaped(wall, t, env, Reject(wall, t, reference, code, env))
  {
  }

  lemma AwaitIsShaped(wall: Wallet, t: WagerTransaction, env: Env)
    ensures Shaped(wall, t, env, AwaitReference(t, env))
  {
  }

  lemma LossIsShaped(wall: Wallet, t: WagerTransaction, plan: Plan, env: Env)
    ensures Shaped(wall, t, env, ProcessWithoutMovement(wall, t, plan, env))
  {
  }

  lemma WaitIsShaped(wall: Wallet, t: WagerTransaction, attempts: nat, env: Env)
    ensures Shaped(wall, t, env, RescheduleReference(t, attempts, env)) && Shaped(wall, t, env, Fail(wall, t, env))
  {
  }

  lemma TransferIsShaped(wall: Wallet, updated: Wallet, t: WagerTransaction, plan: Plan, move: Movement, env: Env)
    requires updated == wall.(balance := updated.balance, version := updated.version, updatedAt := env.now)
    ensures Shaped(wall, t, env, Transferred(wall, updated, t, plan, move, env))
  {
  }

  lemma MovementIsShaped(wall: Wallet, t: WagerTransaction, plan: Plan, move: Movement, env: Env)
    ensures Shaped(wall, t, env, ApplyMovement(wall, t, plan, move, env))
  {
    hide Shaped, Reject, Transferred;
    var r := if move.direction == Credit then CreditWallet(wall, move.amount, env.now)
        else DebitWallet(wall, move.amount, env.now);
    if r.Ok? {
      TransferIsShaped(wall, r.value, t, plan, move, env);
    } else if r.error == InsufficientBalance {
      RejectIsShaped(wall, t, plan.referenceId, if t.kind != Bet then ReversalInsufficientFunds
                     else InsufficientFunds, env);
    } else {
      ErrorIsShaped(wall, t, env, Domain(r.error));
    }
  }

  /** Whatever is decided keeps the shape. */
  lemma SettleIsShaped(wall: Wallet, t: WagerTransaction, attempts: nat, ref: Result<Option<WagerTransaction>,
                       AppError>,
                       claimRead: bool, env: Env)
    ensures Shaped(wall, t, env, Settle(wall, t, attempts, ref, claimRead, env))
  {
    hide Shaped, Reject, AwaitReference, ProcessWithoutMovement, ApplyMovement, RescheduleReference, Fail,
         PlanOperation;
    WaitIsShaped(wall, t, attempts, env);
    match ref
    case Err(e) => ErrorIsShaped(wall, t, env, e);
    case Ok(found) =>
      match PlanOperation(t, found, claimRead)
      case Err(e) => ErrorIsShaped(wall, t, env, e);
      case Ok(plan) =>
        RejectIsShaped(wall, t, 0, ReferenceNotFound, env);
        RejectIsShaped(wall, t, plan.referenceId, plan.failure, env);
        AwaitIsShaped(wall, t, env);
        LossIsShaped(wall, t, plan, env);
        if plan.movement.Some? {
          MovementIsShaped(wall, t, plan, plan.movement.value, env);
        }
  }

  // ----- Running statements -----

  lemma {:induction false} EventsAppended(db: Db, events: seq<Event>)
    ensures ApplyAll(db, EventStatements(events)) == db.(outbox := db.outbox + events)
    decreases events
  {
    var ss := EventStatements(events);
    if events == [] {
      assert db.outbox + events == db.outbox;
    } else {
      var next := Apply(db, ss[0]);
      assert ss[1..] == EventStatements(events[1..]);
      EventsAppended(next, events[1..]);
      assert db.outbox + [events[0]] + events[1..] == db.outbox + events;
    }
  }

  /** The transaction's own row is in place, with the columns an UPDATE leaves alone as they will stay. */
  predicate RowInPlace(db: Db, e: Effect) {
    var id := e.row.txn.id;
    && id in db.rows && SameCommand(db.rows[id].txn, e.row.txn) && e.row.claimedUntil == 0
    && (e.row.txn.origin == External ==>
          && KeyOf(e.row.txn) in db.byKey && db.byKey[KeyOf(e.row.txn)] == id
          && ExternalOf(e.row.txn) in db.byExternal && db.byExternal[ExternalOf(e.row.txn)] == id)
    && (e.rescheduled ==>
          e.transfer.None? && e.events == [] && e.row.txn == db.rows[id].txn.(updatedAt := e.row.txn.updatedAt))
  }

  /** The wallet a transfer saves differs from the stored one in the saved columns only. */
  predicate WalletInPlace(db: Db, e: Effect) {
    e.transfer.Some? ==>
      var w := e.transfer.value.wallet;
      w.id in db.wallets && w == db.wallets[w.id].(balance := w.balance, version := w.version, updatedAt := w.updatedAt)
  }

  lemma UpdateIsPutRow(db: Db, e: Effect)
    requires RowInPlace(db, e)
    ensures Apply(db, UpdateRow(e.row)) == PutRow(db, e.row)
    ensures e.rescheduled ==>
              Apply(db, Reschedule(e.row.txn.id, e.row.txn.updatedAt, e.row.nextAttemptAt, e.row.attempts)) ==
                  PutRow(db, e.row)
  {
    var id := e.row.txn.id;
    assert UpdatedRow(db.rows[id], e.row) == e.row;
    if e.row.txn.origin == External {
      assert db.byKey[KeyOf(e.row.txn) := id] == db.byKey;
      assert db.byExternal[ExternalOf(e.row.txn) := id] == db.byExternal;
    }
  }

  lemma TransferRuns(db: Db, t: Transfer)
    requires t.wallet.id in db.wallets
    requires t.wallet == db.wallets[t.wallet.id].(balance := t.wallet.balance, version := t.wallet.version,
                                                  updatedAt := t.wallet.updatedAt)
    ensures ApplyAll(db, TransferStatements(t)) == ApplyTransfer(db, t)
  {
    var ss := TransferStatements(t);
    var one := Apply(db, ss[0]);
    var two := Apply(one, ss[1]);
    if t.claim.Some? {
      assert ss[1..][1..] == [AppendClaim(t.claim.value)];
      assert ApplyAll(two, ss[1..][1..]) == Apply(two, AppendClaim(t.claim.value));
    } else {
      assert ss[1..][1..] == [];
    }
    assert ApplyAll(db, ss) == ApplyAll(one, ss[1..]) == ApplyAll(two, ss[1..][1..]);
  }

  /** The statements of a settled operation, run on the tables that hold its row, amount to its effect. */
  lemma StatementsRun(db: Db, e: Effect)
    requires RowInPlace(db, e) && WalletInPlace(db, e)
    ensures ApplyAll(db, Statements(e)) == ApplyEffect(db, e)
  {
    if e.rescheduled {
      UpdateIsPutRow(db, e);
      assert Statements(e)[1..] == [];
      assert db.outbox + e.events == db.outbox;
    } else {
      var first := if e.transfer.Some? then TransferStatements(e.transfer.value) else [];
      var moved := if e.transfer.Some? then ApplyTransfer(db, e.transfer.value) else db;
      assert ApplyAll(db, first) == moved by {
        if e.transfer.Some? {
          TransferRuns(db, e.transfer.value);
        }
      }
      UpdateIsPutRow(moved, e);
      var updated := PutRow(moved, e.row);
      assert ApplyAll(moved, [UpdateRow(e.row)]) == updated by {
        assert [UpdateRow(e.row)][1..] == [];
      }
      ApplyAllConcat(db, first, [UpdateRow(e.row)]);
      ApplyAllConcat(db, first + [UpdateRow(e.row)], EventStatements(e.events));
      EventsAppended(updated, e.events);
    }
  }

  lemma RowOverridden(db: Db, first: Row, second: Row)
    requires first.txn.id == second.txn.id && first.txn.origin == second.txn.origin
    requires KeyOf(first.txn) == KeyOf(second.txn) && ExternalOf(first.txn) == ExternalOf(second.txn)
    ensures PutRow(PutRow(db, first), second) == PutRow(db, second)
  {
    var id, k, x := first.txn.id, KeyOf(first.txn), ExternalOf(first.txn);
    assert db.rows[id := first][id := second] == db.rows[id := second];
    assert db.byKey[k := id][k := id] == db.byKey[k := id];
    assert db.byExternal[x := id][x := id] == db.byExternal[x := id];
  }

  lemma PutRowMeetsTransfer(db: Db, row: Row, t: Transfer)
    ensures ApplyTransfer(PutRow(db, row), t) == PutRow(ApplyTransfer(db, t), row)
  {
    var wallets, ledger := db.wallets[t.wallet.id := t.wallet], db.ledger + [t.entry];
    var claims := if t.claim.Some? then db.claims + [t.claim.value] else db.claims;
    assert ApplyTransfer(db, t) == db.(wallets := wallets, ledger := ledger, claims := claims);
    hide KeyOf, ExternalOf;
    if row.txn.origin == External {
      assert ApplyTransfer(PutRow(db, row), t) == PutRow(db, row).(wallets := wallets, ledger := ledger,
                                                                   claims := claims);
    }
  }

  /** Writing the row first and its effect later is writing the effect. */
  lemma EffectOverridesInsert(db: Db, t: WagerTransaction, e: Effect)
    requires SameCommand(t, e.row.txn)
    ensures ApplyEffect(Apply(db, InsertRow(t)), e) == ApplyEffect(db, e)
  {
    var first := Row(t, 0, 0, 0);
    assert KeyOf(t) == KeyOf(e.row.txn) && ExternalOf(t) == ExternalOf(e.row.txn) && t.id == e.row.txn.id
           && t.origin == e.row.txn.origin;
    hide PutRow, ApplyTransfer, SameCommand;
    if e.transfer.Some? {
      PutRowMeetsTransfer(db, first, e.transfer.value);
      RowOverridden(ApplyTransfer(db, e.transfer.value), first, e.row);
    } else {
      RowOverridden(db, first, e.row);
    }
    OutboxApart(db, first);
  }

  lemma OutboxApart(db: Db, row: Row)
    ensures PutRow(db, row).outbox == db.outbox
  {
  }

  lemma InsertedRowRuns(db: Db, t: WagerTransaction, e: Effect)
    requires t.origin == External && SameCommand(t, e.row.txn) && e.row.claimedUntil == 0
    requires e.rescheduled ==> e.transfer.None? && e.events == [] && e.row.txn == t.(updatedAt := e.row.txn.updatedAt)
    requires WalletInPlace(db, e)
    ensures ApplyAll(db, [InsertRow(t)] + Statements(e)) == ApplyEffect(db, e)
  {
    var inserted := Apply(db, InsertRow(t));
    assert ([InsertRow(t)] + Statements(e))[1..] == Statements(e);
    StatementsRun(inserted, e);
    EffectOverridesInsert(db, t, e);
  }

  // ----- The delivery record around them -----

  predicate TouchesInbox(s: Statement) {
    s.BeginInbox? || s.CompleteInbox?
  }

  lemma RowIsApart(db: Db, inbox: map<InboxKey, InboxRow>, row: Row)
    ensures PutRow(db.(inbox := inbox), row) == PutRow(db, row).(inbox := inbox) && PutRow(db, row).inbox == db.inbox
  {
    hide KeyOf, ExternalOf;
  }

  lemma UpdateIsApart(db: Db, inbox: map<InboxKey, InboxRow>, s: Statement)
    requires s.UpdateRow? || s.Reschedule?
    ensures Apply(db.(inbox := inbox), s) == Apply(db, s).(inbox := inbox) && Apply(db, s).inbox == db.inbox
  {
    hide UpdatedRow, PutRow;
  }

  lemma LogIsApart(db: Db, inbox: map<InboxKey, InboxRow>, s: Statement)
    requires s.AppendLedger? || s.AppendClaim? || s.AppendEvent?
    ensures Apply(db.(inbox := inbox), s) == Apply(db, s).(inbox := inbox) && Apply(db, s).inbox == db.inbox
  {
    hide UpdatedRow, PutRow;
  }

  lemma WalletIsApart(db: Db, inbox: map<InboxKey, InboxRow>, s: Statement)
    requires s.InsertWallet? || s.SaveBalance?
    ensures Apply(db.(inbox := inbox), s) == Apply(db, s).(inbox := inbox) && Apply(db, s).inbox == db.inbox
  {
    hide UpdatedRow, PutRow;
  }

  lemma OneIsApart(db: Db, inbox: map<InboxKey, InboxRow>, s: Statement)
    requires !TouchesInbox(s)
    ensures Apply(db.(inbox := inbox), s) == Apply(db, s).(inbox := inbox) && Apply(db, s).inbox == db.inbox
  {
    if s.InsertRow? {
      RowIsApart(db, inbox, Row(s.txn, 0, 0, 0));
    } else {
      hide Apply;
      if s.UpdateRow? || s.Reschedule? {
        UpdateIsApart(db, inbox, s);
      } else if s.InsertWallet? || s.SaveBalance? {
        WalletIsApart(db, inbox, s);
      } else {
        LogIsApart(db, inbox, s);
      }
    }
  }

  /** Statements that leave the inbox alone do not see it. */
  lemma {:induction false} InboxIsApart(db: Db, inbox: map<InboxKey, InboxRow>, ss: seq<Statement>)
    requires forall i | 0 <= i < |ss| :: !TouchesInbox(ss[i])
    ensures ApplyAll(db.(inbox := inbox), ss) == ApplyAll(db, ss).(inbox := inbox)
    ensures ApplyAll(db, ss).inbox == db.inbox
    decreases ss
  {
    hide Apply, TouchesInbox;
    if ss != [] {
      OneIsApart(db, inbox, ss[0]);
      InboxIsApart(Apply(db, ss[0]), inbox, ss[1..]);
    }
  }

  lemma StatementsAvoidInbox(e: Effect)
    ensures forall i | 0 <= i < |Statements(e)| :: !TouchesInbox(Statements(e)[i])
  {
  }

  lemma RunOne(db: Db, s: Statement)
    ensures ApplyAll(db, [s]) == Apply(db, s)
  {
    assert [s][1..] == [];
  }

  lemma RunFirst(db: Db, s: Statement, ss: seq<Statement>)
    ensures ApplyAll(db, [s] + ss) == ApplyAll(Apply(db, s), ss)
  {
    assert ([s] + ss)[1..] == ss;
  }

  /** Recording a delivery, running the operation and completing the delivery, in that order. */
  lemma DeliveryRuns(db: Db, key: InboxKey, digest: Commands.Body, receivedAt: Time, ss: seq<Statement>,
                     completedAt: Time)
    requires forall i | 0 <= i < |ss| :: !TouchesInbox(ss[i])
    ensures ApplyAll(db, [BeginInbox(key, digest, receivedAt)] + ss + [CompleteInbox(key, completedAt)]) ==
            ApplyAll(db, ss).(inbox := db.inbox[key := InboxRow(digest, receivedAt, completedAt)])
  {
    var begin, complete := BeginInbox(key, digest, receivedAt), CompleteInbox(key, completedAt);
    var begun := db.inbox[key := InboxRow(digest, receivedAt, 0)];
    assert Apply(db, begin) == db.(inbox := begun);
    var run := ApplyAll(db, ss).(inbox := begun);
    assert Apply(run, complete) == ApplyAll(db,
                                            ss).(inbox := db.inbox[key := InboxRow(digest, receivedAt,
                                                                                   completedAt)]) by {
      assert begun[key := begun[key].(completedAt := completedAt)] ==
               db.inbox[key := InboxRow(digest, receivedAt, completedAt)];
    }
    hide ApplyAll, Apply, TouchesInbox;
    assert [begin] + ss + [complete] == [begin] + (ss + [complete]);
    RunFirst(db, begin, ss + [complete]);
    ApplyAllConcat(db.(inbox := begun), ss, [complete]);
    InboxIsApart(db, begun, ss);
    RunOne(run, complete);
  }
}
