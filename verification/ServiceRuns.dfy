/** What a use case's statements amount to: the connection between the steps of module Service and whole operations. */
module ServiceRuns {
  import opened Results
  import opened MoneyValue
  import opened Wager
  import opened Wallets
  import opened AppErrors
  import opened Commands
  import opened Resolution
  import opened Tables
  import opened Settlement
  import opened Operations
  import opened Invariants
  import opened SettlementSafety
  import opened StatementRuns
  import opened OperationSafety
  import opened OpeningSafety
  import Interleaving
  import Commitment

  // ----- Running a decision's statements -----

  /** A use-case step does what its decision says: the same answer, and the decision's statements on the view. */
  predicate Executes(before: Db, decision: Result<Settled, AppError>, r: Result<WagerResult, AppError>, after: Db) {
    match decision
    case Ok(s) => r == Ok(s.result) && after == ApplyAll(before, Statements(s.effect))
    case Err(e) => r == Err(e)
  }

  lemma QuietRuns(db: Db, row: Row, events: seq<Event>)
    ensures ApplyAll(db, Statements(Effect(row, false, None, events))) ==
            (if |events| == 1 then Apply(Apply(db, UpdateRow(row)), AppendEvent(events[0]))
             else if events == [] then Apply(db, UpdateRow(row))
             else ApplyAll(db, Statements(Effect(row, false, None, events))))
  {
    var ss := Statements(Effect(row, false, None, events));
    if |events| == 1 {
      assert ss == [UpdateRow(row)] + [AppendEvent(events[0])];
      RunFirst(db, UpdateRow(row), [AppendEvent(events[0])]);
      RunOne(Apply(db, UpdateRow(row)), AppendEvent(events[0]));
    } else if events == [] {
      assert ss == [UpdateRow(row)];
      RunOne(db, UpdateRow(row));
    }
  }

  lemma RescheduleRuns(db: Db, row: Row)
    ensures ApplyAll(db, Statements(Effect(row, true, None, []))) ==
            Apply(db, Statement.Reschedule(row.txn.id, row.txn.updatedAt, row.nextAttemptAt, row.attempts))
  {
    RunOne(db, Statement.Reschedule(row.txn.id, row.txn.updatedAt, row.nextAttemptAt, row.attempts));
  }

  lemma TransferStepsRun(db: Db, row: Row, t: Transfer, first: Event, second: Event)
    ensures var moved := Apply(Apply(db, SaveBalance(t.wallet)), AppendLedger(t.entry));
            var claimed := if t.claim.Some? then Apply(moved, AppendClaim(t.claim.value)) else moved;
            ApplyAll(db, Statements(Effect(row, false, Some(t), [first, second]))) ==
            Apply(Apply(Apply(claimed, UpdateRow(row)), AppendEvent(first)), AppendEvent(second))
  {
    hide Apply, ApplyAll;
    var tail := [UpdateRow(row), AppendEvent(first), AppendEvent(second)];
    var claim := if t.claim.Some? then [AppendClaim(t.claim.value)] else [];
    var moved := Apply(Apply(db, SaveBalance(t.wallet)), AppendLedger(t.entry));
    assert Statements(Effect(row, false, Some(t), [first, second])) ==
             [SaveBalance(t.wallet)] + ([AppendLedger(t.entry)] + (claim + tail));
    RunFirst(db, SaveBalance(t.wallet), [AppendLedger(t.entry)] + (claim + tail));
    RunFirst(Apply(db, SaveBalance(t.wallet)), AppendLedger(t.entry), claim + tail);
    if t.claim.Some? {
      RunFirst(moved, AppendClaim(t.claim.value), tail);
    } else {
      assert claim + tail == tail;
    }
    var claimed := if t.claim.Some? then Apply(moved, AppendClaim(t.claim.value)) else moved;
    assert tail == [UpdateRow(row)] + ([AppendEvent(first)] + [AppendEvent(second)]);
    RunFirst(claimed, UpdateRow(row), [AppendEvent(first)] + [AppendEvent(second)]);
    RunFirst(Apply(claimed, UpdateRow(row)), AppendEvent(first), [AppendEvent(second)]);
    RunOne(Apply(Apply(claimed, UpdateRow(row)), AppendEvent(first)), AppendEvent(second));
  }

  /** A transaction body does what the whole operation says, when it does not abort. */
  predicate Concludes(before: Db, o: Outcome, r: Result<WagerResult, AppError>, after: Db) {
    match o
    case Answered(result) => r == Ok(result) && after == before
    case Settles(s) => r == Ok(s.result) && after == ApplyEffect(before, s.effect)
    case Refused(e) => r == Err(e)
  }

  lemma FailsAlike(db: Db, e: AppError)
    ensures Executes(db, Err(e), Err(e), db)
  {
  }

  lemma RefusesAlike(before: Db, e: AppError, after: Db)
    ensures Concludes(before, Refused(e), Err(e), after)
  {
  }

  /** The statements of a decided submission, its insert included, amount to its effect. */
  lemma SubmissionRuns(db: Db, wall: Wallet, t: WagerTransaction, env: Env, s: Settled)
    requires Inv(db) && Settleable(db, t, env) && WalletRead(db, wall, t) && t.state == Pending
    requires ShapeOk(wall, t, env, s)
    ensures ApplyAll(Apply(db, InsertRow(t)), Statements(s.effect)) == ApplyEffect(db, s.effect)
  {
    WalletIsOk(db, wall, t);
    hide Inv, Statements, ApplyEffect, Settleable;
    assert t.origin == External by { SettleableIsExternal(db, t, env); }
    InsertedRowRuns(db, t, s.effect);
    RunFirst(db, InsertRow(t), Statements(s.effect));
  }

  lemma SettleableIsExternal(db: Db, t: WagerTransaction, env: Env)
    requires Settleable(db, t, env)
    ensures t.origin == External
  {
  }

  lemma FreshSubmissionConcludes(db: Db, cmd: SubmitWagerCommand, t: WagerTransaction, env: Env,
                                 r: Result<WagerResult, AppError>, after: Db)
    requires Inv(db) && EnvOk(env) && SerialFresh(db, env.serial) && Validate(cmd).Ok?
    requires (cmd.providerId, cmd.idempotencyKey) !in db.byKey && (cmd.providerId, cmd.externalId) !in db.byExternal
    requires NewTransaction(LookupWallet(db, cmd.walletId), cmd, env) == Ok(t) && cmd.walletId in db.wallets
    requires var mine := Apply(db, InsertRow(t));
             var ref := LoadReference(mine, t);
             Executes(mine, Settle(db.wallets[cmd.walletId], t, 0, ref, ClaimRead(mine, ref), env), r, after)
    ensures Concludes(db, SubmitFresh(db, cmd, env), r, after)
  {
    hide Inv, SerialFresh, Validate, NewTransaction, LookupWallet, LoadReference, ClaimRead, Apply, Settle, ApplyAll,
         Statements, ApplyEffect, SubmitFresh, ShapeOk, Settleable, WalletRead;
    FreshSubmissionIsReady(db, cmd, env);
    SubmitFreshIsSettle(db, cmd, env);
    var mine := Apply(db, InsertRow(t));
    var ref := LoadReference(mine, t);
    var wall := db.wallets[cmd.walletId];
    ReadyIsSettleable(db, wall, t, ref.value, ClaimRead(mine, ref), env);
    FreshIsPending(db, cmd, env);
    SettleIsShaped(wall, t, 0, ref, ClaimRead(mine, ref), env);
    var decision := Settle(wall, t, 0, ref, ClaimRead(mine, ref), env);
    if decision.Ok? {
      SubmissionRuns(db, wall, t, env, decision.value);
    }
  }

  /** The inbox a transaction's own delivery record may already be in does not matter to the operation. */
  lemma InsertIgnoresInbox(db: Db, inbox: map<InboxKey, InboxRow>, t: WagerTransaction)
    ensures Apply(db.(inbox := inbox), InsertRow(t)) == Apply(db, InsertRow(t)).(inbox := inbox)
    ensures var a, b := Apply(db.(inbox := inbox), InsertRow(t)), Apply(db, InsertRow(t));
            LoadReference(a, t) == LoadReference(b, t)
            && ClaimRead(a, LoadReference(a, t)) == ClaimRead(b, LoadReference(b, t))
  {
    RowIsApart(db, inbox, Row(t, 0, 0, 0));
    hide KeyOf, ExternalOf, Rehydrate;
  }

  lemma ExecutesIgnoresInbox(db: Db, inbox: map<InboxKey, InboxRow>, decision: Result<Settled, AppError>,
                             r: Result<WagerResult, AppError>, after: Db)
    requires Executes(db, decision, r, after)
    ensures Executes(db.(inbox := inbox), decision, r, after.(inbox := inbox))
    ensures decision.Ok? ==> after.inbox == db.inbox
  {
    if decision.Ok? {
      hide ApplyAll, Statements, TouchesInbox;
      StatementsAvoidInbox(decision.value.effect);
      InboxIsApart(db, inbox, Statements(decision.value.effect));
    }
  }

  lemma ConcludesIgnoresInbox(before: Db, inbox: map<InboxKey, InboxRow>, o: Outcome, r: Result<WagerResult, AppError>,
                              after: Db)
    requires Concludes(before.(inbox := inbox), o, r, after.(inbox := inbox)) && !o.Answered?
    requires o.Settles? ==> after.inbox == before.inbox
    ensures Concludes(before, o, r, after)
  {
    if o.Settles? {
      EffectIgnoresInbox(before, inbox, o.settled.effect);
      assert after == after.(inbox := inbox).(inbox := before.inbox);
    }
  }

  lemma TransferIgnoresInbox(db: Db, inbox: map<InboxKey, InboxRow>, t: Transfer)
    ensures ApplyTransfer(db.(inbox := inbox), t) == ApplyTransfer(db, t).(inbox := inbox)
            && ApplyTransfer(db, t).inbox == db.inbox
  {
  }

  lemma EffectIgnoresInbox(db: Db, inbox: map<InboxKey, InboxRow>, e: Effect)
    ensures ApplyEffect(db.(inbox := inbox), e) == ApplyEffect(db, e).(inbox := inbox)
            && ApplyEffect(db, e).inbox == db.inbox
  {
    hide PutRow, ApplyTransfer;
    if e.transfer.Some? {
      TransferIgnoresInbox(db, inbox, e.transfer.value);
      RowIsApart(ApplyTransfer(db, e.transfer.value), inbox, e.row);
    } else {
      RowIsApart(db, inbox, e.row);
    }
  }

  lemma CreatedConcludes(view: Db, inbox: map<InboxKey, InboxRow>, cmd: SubmitWagerCommand, t: WagerTransaction,
                         env: Env,
                         r: Result<WagerResult, AppError>, after: Db)
    requires var db := view.(inbox := inbox);
             && Inv(db) && EnvOk(env) && SerialFresh(db, env.serial) && Validate(cmd).Ok?
             && NewTransaction(LookupWallet(db, cmd.walletId), cmd, env) == Ok(t) && cmd.walletId in db.wallets
    requires (cmd.providerId, cmd.idempotencyKey) !in view.byKey && (cmd.providerId, cmd.externalId) !in view.byExternal
    requires var mine := Apply(view, InsertRow(t));
             var ref := LoadReference(mine, t);
             Executes(mine, Settle(view.wallets[cmd.walletId], t, 0, ref, ClaimRead(mine, ref), env), r, after)
    ensures Concludes(view, SubmitFresh(view.(inbox := inbox), cmd, env), r, after)
  {
    hide Inv, SerialFresh, Validate, NewTransaction, LookupWallet, LoadReference, ClaimRead, Apply, Settle, Executes,
         Concludes, SubmitFresh;
    var db, mine := view.(inbox := inbox), Apply(view, InsertRow(t));
    var ref := LoadReference(mine, t);
    var decision := Settle(view.wallets[cmd.walletId], t, 0, ref, ClaimRead(mine, ref), env);
    InsertIgnoresInbox(view, inbox, t);
    ExecutesIgnoresInbox(mine, inbox, decision, r, after);
    FreshSubmissionConcludes(db, cmd, t, env, r, after.(inbox := inbox));
    FreshDecides(db, cmd, t, env);
    InsertKeepsInbox(view, t);
    ConcludesIgnoresInbox(view, inbox, SubmitFresh(db, cmd, env), r, after);
  }

  lemma InsertKeepsInbox(db: Db, t: WagerTransaction)
    ensures Apply(db, InsertRow(t)).inbox == db.inbox
  {
  }

  /** A fresh submission settles exactly when its decision does, and never answers from a stored row. */
  lemma FreshDecides(db: Db, cmd: SubmitWagerCommand, t: WagerTransaction, env: Env)
    requires NewTransaction(LookupWallet(db, cmd.walletId), cmd, env) == Ok(t) && cmd.walletId in db.wallets
    ensures var mine := Apply(db, InsertRow(t));
            var ref := LoadReference(mine, t);
            && !SubmitFresh(db, cmd, env).Answered?
            && (SubmitFresh(db, cmd, env).Settles? <==>
                  Settle(db.wallets[cmd.walletId], t, 0, ref, ClaimRead(mine, ref), env).Ok?)
  {
    hide NewTransaction, LookupWallet, Settle, LoadReference, ClaimRead, Apply;
  }

  lemma ReadyIsSettleable(db: Db, wall: Wallet, t: WagerTransaction, ref: Option<WagerTransaction>, claimRead: bool,
                          env: Env)
    requires SettleReady(db, wall, t, ref, claimRead, env)
    ensures Settleable(db, t, env) && WalletRead(db, wall, t)
  {
  }

  lemma FreshIsPending(db: Db, cmd: SubmitWagerCommand, env: Env)
    requires NewTransaction(LookupWallet(db, cmd.walletId), cmd, env).Ok?
    ensures var t := NewTransaction(LookupWallet(db, cmd.walletId), cmd, env).value;
            && t.state == Pending && t.origin == External && t.id == env.serial && t.kind != Opening
            && KeyOf(t) == (cmd.providerId, cmd.idempotencyKey) && ExternalOf(t) == (cmd.providerId, cmd.externalId)
    ensures LookupWallet(db, cmd.walletId).Ok? && LookupWallet(db, cmd.walletId).value.Some?
    ensures cmd.walletId in db.wallets
    ensures LookupWallet(db, cmd.walletId).value.value == db.wallets[cmd.walletId]
  {
    hide RehydrateWallet;
  }

  lemma RecoveryConcludes(db: Db, id: TransactionId, env: Env, r: Result<WagerResult, AppError>, after: Db)
    requires Inv(db) && EnvOk(env) && SerialFresh(db, env.serial) && id in db.rows
             && db.rows[id].txn.state == PendingReference
    requires db.rows[id].txn.walletId in db.wallets
    requires var t := db.rows[id].txn;
             var ref := LoadReference(db, t);
             Executes(db, Settle(db.wallets[t.walletId], t, db.rows[id].attempts, ref, ClaimRead(db, ref), env), r,
                      after)
    ensures Concludes(db, SettleIn(db, db.wallets[db.rows[id].txn.walletId], db.rows[id].txn, db.rows[id].attempts,
                                   env), r, after)
  {
    hide Inv, SerialFresh, LoadReference, ClaimRead, Settle, ApplyAll, Statements, ApplyEffect, ShapeOk, Settleable,
         WalletRead, RowInPlace, WalletInPlace;
    var t, attempts := db.rows[id].txn, db.rows[id].attempts;
    var wall, ref := db.wallets[t.walletId], LoadReference(db, t);
    WaitingRowIsReady(db, id, env);
    ReadyIsSettleable(db, wall, t, ref.value, ClaimRead(db, ref), env);
    SettleIsShaped(wall, t, attempts, ref, ClaimRead(db, ref), env);
    var decision := Settle(wall, t, attempts, ref, ClaimRead(db, ref), env);
    if decision.Ok? {
      RecoveryInPlace(db, wall, t, env, decision.value);
      StatementsRun(db, decision.value.effect);
    }
  }

  lemma RecoveryInPlace(db: Db, wall: Wallet, t: WagerTransaction, env: Env, s: Settled)
    requires Inv(db) && Settleable(db, t, env) && WalletRead(db, wall, t) && t.state == PendingReference
             && ShapeOk(wall, t, env, s)
    ensures RowInPlace(db, s.effect) && WalletInPlace(db, s.effect)
  {
    hide Inv;
    WalletIsOk(db, wall, t);
    StoredKeyIsIndexed(db, t.id);
  }

  /** How one attempt of a transaction ends besides its own outcome: a concurrent writer wins, the store fails before
      the commit takes effect, or the commit takes effect and its reply is lost. */
  datatype Fault = NoFault | LostRace | StoreDown | ReplyLost

  /** The first attempt that did not lose a race, or none. */
  function Stable(faults: seq<Fault>): (k: nat)
    ensures k <= |faults|
  {
    if faults == [] || faults[0] != LostRace then 0 else 1 + Stable(faults[1..])
  }

  lemma {:induction false} StableAt(faults: seq<Fault>, n: nat)
    requires n <= |faults| && (forall i | 0 <= i < n :: faults[i] == LostRace)
    requires (n < |faults| ==> faults[n] != LostRace)
    ensures Stable(faults) == n
  {
    if n > 0 {
      StableAt(faults[1..], n - 1);
    }
  }

  /** What a transaction whose body has the given outcome commits and answers: all of it or nothing. */
  predicate Commits(before: Db, o: Outcome, fault: Fault, r: Result<WagerResult, AppError>, after: Db) {
    if fault == StoreDown then r == Err(Transient) && after == before
    else match o
      case Refused(e) => r == Err(e) && after == before
      case Answered(result) => after == before && r == if fault == ReplyLost then Err(Transient) else Ok(result)
      case Settles(s) => after == ApplyEffect(before, s.effect) && r == if fault == ReplyLost then Err(Transient)
           else Ok(s.result)
  }

  lemma CommitsAlike(before: Db, o: Outcome, fault: Fault, body: Result<WagerResult, AppError>, view: Db,
                     r: Result<WagerResult, AppError>, after: Db)
    requires Concludes(before, o, body, view)
    requires after == if body.Ok? && fault != StoreDown then view else before
    requires r == if fault == StoreDown || (body.Ok? && fault == ReplyLost) then Err(Transient) else body
    ensures Commits(before, o, fault, r, after) && after == (if fault == StoreDown then before else After(before, o))
  {
  }

  /** What a handled delivery reports: a redelivery of a completed message, or the operation's own result. */
  datatype Receipt = AlreadyHandled | HandledNow(result: WagerResult)

  /** A delivery's body: a duplicate changes nothing, a refusal aborts, any other answer is completed in the same
      transaction. */
  predicate Delivers(before: Db, o: InboxOutcome, d: InboxDelivery, completedAt: Time, r: Result<Receipt, AppError>,
                     after: Db) {
    match o
    case Duplicate => r == Ok(AlreadyHandled) && after == before
    case Handled(Refused(e)) => r == Err(e)
    case Handled(Answered(result)) => r == Ok(HandledNow(result)) && after == AfterInbox(before, o, d, completedAt)
    case Handled(Settles(s)) => r == Ok(HandledNow(s.result)) && after == AfterInbox(before, o, d, completedAt)
  }

  lemma DeliveryConcludes(before: Db, begun: Db, d: InboxDelivery, completedAt: Time, o: Outcome,
                          body: Result<WagerResult, AppError>, mid: Db, r: Result<Receipt, AppError>, after: Db)
    requires begun == Apply(before, BeginInbox(InboxKeyOf(d), d.digest, d.receivedAt)) && Concludes(begun, o, body, mid)
    requires r == if body.Ok? then Ok(HandledNow(body.value)) else Err(body.error)
    requires after == if body.Ok? then Apply(mid, CompleteInbox(InboxKeyOf(d), completedAt)) else mid
    ensures Delivers(before, Handled(o), d, completedAt, r, after)
  {
    var key := InboxKeyOf(d);
    var row := InboxRow(d.digest, d.receivedAt, completedAt);
    assert begun.inbox[key := begun.inbox[key].(completedAt := completedAt)] == before.inbox[key := row];
    if o.Settles? {
      EffectIgnoresInbox(before, begun.inbox, o.settled.effect);
      hide ApplyEffect;
      assert mid == ApplyEffect(before, o.settled.effect).(inbox := begun.inbox);
      assert ApplyEffect(before, o.settled.effect).inbox == before.inbox;
    }
  }

  predicate DeliveryCommits(before: Db, o: InboxOutcome, d: InboxDelivery, completedAt: Time, fault: Fault,
                            r: Result<Receipt, AppError>, after: Db) {
    if fault == StoreDown then r == Err(Transient) && after == before
    else
      && after == AfterInbox(before, o, d, completedAt)
      && match o
         case Duplicate => r == if fault == ReplyLost then Err(Transient) else Ok(AlreadyHandled)
         case Handled(Refused(e)) => r == Err(e)
         case Handled(Answered(result)) => r == if fault == ReplyLost then Err(Transient) else Ok(HandledNow(result))
         case Handled(Settles(s)) => r == if fault == ReplyLost then Err(Transient) else Ok(HandledNow(s.result))
  }

  lemma DeliveryCommitsAlike(before: Db, o: InboxOutcome, d: InboxDelivery, completedAt: Time, fault: Fault,
                             body: Result<Receipt, AppError>, view: Db, r: Result<Receipt, AppError>, after: Db)
    requires Delivers(before, o, d, completedAt, body, view)
    requires after == if body.Ok? && fault != StoreDown then view else before
    requires r == if fault == StoreDown || (body.Ok? && fault == ReplyLost) then Err(Transient) else body
    ensures DeliveryCommits(before, o, d, completedAt, fault, r, after)
    ensures after == if fault == StoreDown then before else AfterInbox(before, o, d, completedAt)
  {
    hide CompletedInbox, After;
  }

  lemma AnswersAlike(before: Db, result: WagerResult)
    ensures Concludes(before, Answered(result), Ok(result), before)
  {
  }

  // ----- Inserts -----

  /** The identity is new, both provider keys are free, and a wallet gets at most one OPENING. */
  predicate Insertable(db: Db, txn: WagerTransaction) {
    && txn.id !in db.rows
    && (txn.origin == External ==> KeyOf(txn) !in db.byKey && ExternalOf(txn) !in db.byExternal)
    && (txn.kind == Opening ==>
          forall id | id in db.rows :: !(db.rows[id].txn.kind == Opening && db.rows[id].txn.walletId == txn.walletId))
  }

  lemma SerialIsNew(db: Db, serial: nat)
    requires SerialFresh(db, serial)
    ensures serial !in db.rows
  {
  }

  lemma UnknownWalletHasNoRows(db: Db, id: WalletId)
    requires Inv(db) && id !in db.wallets
    ensures forall t | t in db.rows :: db.rows[t].txn.walletId != id
  {
  }

  lemma InsertedWalletRows(db: Db, wallet: Wallet)
    ensures Apply(db, InsertWallet(wallet)).rows == db.rows
  {
  }

  // ----- Openings -----

  function OpenedOf(wallet: Wallet, env: Env): Opened {
    Opened(wallet, if wallet.balance.minorUnits > 0 then Some(OpenedEffect(wallet, env)) else None)
  }

  lemma OpeningParts(w: Wallet, env: Env)
    requires WalletOk(w) && w.balance.minorUnits > 0 && EnvOk(env) && OpeningEffect(w, env) == Ok(OpenedEffect(w, env))
    ensures NewInternalOpening(env.serial, w.id, w.playerId, w.balance, env.now).Ok?
    ensures var opening := NewInternalOpening(env.serial, w.id, w.playerId, w.balance, env.now).value;
            && MarkProcessed(opening, 0, w.balance, env.now) == Ok(OpenedEffect(w, env).row.txn)
    ensures var processed := OpenedEffect(w, env).row.txn;
            var zero := Money(0, w.currency);
            && NewLedgerEntry(LedgerEntry(env.serial, w.id, processed.id, Credit, w.balance, zero, w.balance, env.now))
               == Ok(OpenedEffect(w, env).transfer.value.entry)
            && ProcessedEvent(FirstEvent(env), w, processed, w.balance, env) == Ok(OpenedEffect(w, env).events[0])
            && BalanceEvent(SecondEvent(env), w, processed, Movement(Credit, w.balance), zero, w.balance, env) ==
                 Ok(OpenedEffect(w, env).events[1])
  {
  }

  lemma OpenStepsRun(db: Db, o: Opened)
    requires o.opening.Some? && o.opening.value.transfer.Some? && |o.opening.value.events| == 2
    ensures var e := o.opening.value;
            ApplyAll(db, Interleaving.OpenStatements(o)) ==
            Apply(Apply(Apply(Apply(Apply(db, InsertWallet(o.wallet)), InsertRow(e.row.txn)),
                              AppendLedger(e.transfer.value.entry)),
                        AppendEvent(e.events[0])), AppendEvent(e.events[1]))
  {
    hide Apply, ApplyAll;
    var e := o.opening.value;
    var entry := e.transfer.value.entry;
    var ss := [AppendEvent(e.events[0])] + [AppendEvent(e.events[1])];
    assert Interleaving.OpenStatements(o) == [InsertWallet(o.wallet)] + ([InsertRow(e.row.txn)]
                                                                         + ([AppendLedger(entry)] + ss));
    var one := Apply(db, InsertWallet(o.wallet));
    var two := Apply(one, InsertRow(e.row.txn));
    var three := Apply(two, AppendLedger(entry));
    RunFirst(db, InsertWallet(o.wallet), [InsertRow(e.row.txn)] + ([AppendLedger(entry)] + ss));
    RunFirst(one, InsertRow(e.row.txn), [AppendLedger(entry)] + ss);
    RunFirst(two, AppendLedger(entry), ss);
    RunFirst(three, AppendEvent(e.events[0]), [AppendEvent(e.events[1])]);
    RunOne(Apply(three, AppendEvent(e.events[0])), AppendEvent(e.events[1]));
  }

  lemma NewWalletIsOk(id: WalletId, cmd: OpenWalletCommand, env: Env)
    requires ValidateOpen(cmd).Ok?
             && NewWallet(id, cmd.playerId, cmd.initialBalance.currency, cmd.initialBalance, env.now).Ok?
    ensures var w := NewWallet(id, cmd.playerId, cmd.initialBalance.currency, cmd.initialBalance, env.now).value;
            WalletOk(w) && w.version == 1 && w.id == id
  {
  }

  /** The whole operation, in the order the source checks. */
  lemma OpenUnfolds(db: Db, cmd: OpenWalletCommand, id: WalletId, env: Env)
    requires EnvOk(env)
    ensures var w := NewWallet(id, cmd.playerId, cmd.initialBalance.currency, cmd.initialBalance, env.now);
            Operations.OpenWallet(db, cmd, id, env) ==
            if ValidateOpen(cmd).Err? then Err(ValidateOpen(cmd).error)
            else if w.Err? then Err(Contract(InvalidRequest))
            else if (w.value.playerId, w.value.currency) in db.owners then Err(Conflict(WalletAlreadyExists))
            else Ok(OpenedOf(w.value, env))
  {
    var w := NewWallet(id, cmd.playerId, cmd.initialBalance.currency, cmd.initialBalance, env.now);
    if ValidateOpen(cmd).Ok? && w.Ok? && w.value.balance.minorUnits > 0 {
      OpeningSucceeds(w.value, env);
    }
    hide OpeningEffect, OpenedEffect;
  }

  lemma OpenRunsHere(db: Db, cmd: OpenWalletCommand, id: WalletId, env: Env)
    requires EnvOk(env) && SerialFresh(db, env.serial) && id !in db.wallets
    requires Operations.OpenWallet(db, cmd, id, env).Ok?
    ensures var o := Operations.OpenWallet(db, cmd, id, env).value;
            ApplyAll(db, Interleaving.OpenStatements(o)) == ApplyOpened(db, o)
  {
    OpenedWalletFacts(db, cmd, id, env);
    Commitment.OpenRuns(db, Operations.OpenWallet(db, cmd, id, env).value, env);
  }
}
