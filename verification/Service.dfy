/** The use cases as the source runs them: statement by statement inside a transaction that commits or leaves nothing
    (internal/application/service.go, internal/adapters/postgres/store.go:46-59). */
module Service {
  import opened Results
  import opened MoneyValue
  import opened Wager
  import opened Wallets
  import opened AppErrors
  import opened Commands
  import opened Resolution
  import opened Backoff
  import opened Tables
  import opened Settlement
  import opened Operations
  import opened Invariants
  import opened StatementRuns
  import opened OperationSafety
  import opened OpeningSafety
  import opened ServiceRuns
  import Interleaving

  /** The committed tables and the view of the one open transaction. */
  class Store {
    var committed: Db
    var view: Db

    constructor ()
      ensures committed == EMPTY && view == EMPTY
    {
      committed := EMPTY;
      view := EMPTY;
    }

    method Begin()
      modifies `view
      ensures view == committed
    {
      view := committed;
    }

    /** Ends the transaction: all of it or nothing. */
    method End(commit: bool)
      modifies this
      ensures committed == (if commit then old(view) else old(committed)) && view == committed
    {
      if commit {
        committed := view;
      }
      view := committed;
    }

    /** One write statement of a repository. */
    method Execute(s: Statement)
      modifies `view
      ensures view == Apply(old(view), s)
    {
      view := Apply(view, s);
    }

    /** Inserting a transaction fails on a taken identity or key, and on a second OPENING of a wallet. */
    method InsertTransaction(txn: WagerTransaction) returns (ok: bool)
      modifies `view
      ensures ok == Insertable(old(view), txn)
      ensures view == if ok then Apply(old(view), InsertRow(txn)) else old(view)
    {
      ok := Insertable(view, txn);
      if ok {
        Execute(InsertRow(txn));
      }
    }

    /** Inserting a wallet fails on a taken player and currency. */
    method InsertWalletRow(wallet: Wallet) returns (ok: bool)
      modifies `view
      ensures ok == ((wallet.playerId, wallet.currency) !in old(view).owners)
      ensures view == if ok then Apply(old(view), InsertWallet(wallet)) else old(view)
    {
      ok := (wallet.playerId, wallet.currency) !in view.owners;
      if ok {
        Execute(InsertWallet(wallet));
      }
    }

    /** Records a delivery, or reports the digest already recorded under its key. */
    method BeginDelivery(d: InboxDelivery) returns (stored: Option<Body>)
      modifies `view
      ensures stored == if InboxKeyOf(d) in old(view).inbox then Some(old(view).inbox[InboxKeyOf(d)].digest) else None
      ensures view == if stored.Some? then old(view)
              else Apply(old(view), BeginInbox(InboxKeyOf(d), d.digest, d.receivedAt))
    {
      if InboxKeyOf(d) in view.inbox {
        stored := Some(view.inbox[InboxKeyOf(d)].digest);
      } else {
        Execute(BeginInbox(InboxKeyOf(d), d.digest, d.receivedAt));
        stored := None;
      }
    }
  }

  class WagerService {
    const store: Store

    constructor (s: Store)
      ensures store == s
    {
      store := s;
    }

    method PersistRejection(wall: Wallet, txn: WagerTransaction, reference: TransactionId, code: FailureCode, env: Env)
      returns (r: Result<WagerResult, AppError>)
      modifies store
      ensures store.committed == old(store.committed)
      ensures Executes(old(store.view), Reject(wall, txn, reference, code, env), r, store.view)
    {
      var rejected := MarkRejected(txn, reference, code, wall.balance, env.now);
      if rejected.Err? {
        return Err(Invariant);
      }
      store.Execute(UpdateRow(Terminal(rejected.value)));
      var event := RejectedEvent(FirstEvent(env), wall, rejected.value, env);
      if event.Err? {
        return Err(event.error);
      }
      store.Execute(AppendEvent(event.value));
      QuietRuns(old(store.view), Terminal(rejected.value), [event.value]);
      return Ok(ResultOf(rejected.value, false));
    }

    method PersistWait(txn: WagerTransaction, env: Env) returns (r: Result<WagerResult, AppError>)
      modifies store
      ensures store.committed == old(store.committed)
      ensures Executes(old(store.view), AwaitReference(txn, env), r, store.view)
    {
      var pending := MarkPendingReference(txn, env.now + REFERENCE_TTL, env.now);
      if pending.Err? {
        return Err(Invariant);
      }
      var row := Row(pending.value, ReferenceNextAttemptAt(0, env.hash, env.now), 0, 0);
      store.Execute(UpdateRow(row));
      var event := PendingEvent(FirstEvent(env), pending.value, env);
      if event.Err? {
        return Err(event.error);
      }
      store.Execute(AppendEvent(event.value));
      QuietRuns(old(store.view), row, [event.value]);
      return Ok(ResultOf(pending.value, false));
    }

    method PersistProcessed(wall: Wallet, txn: WagerTransaction, plan: Plan,
                            env: Env) returns (r: Result<WagerResult, AppError>)
      modifies store
      ensures store.committed == old(store.committed)
      ensures Executes(old(store.view), ProcessWithoutMovement(wall, txn, plan, env), r, store.view)
    {
      var processed := MarkProcessed(txn, plan.referenceId, wall.balance, env.now);
      if processed.Err? {
        return Err(Invariant);
      }
      store.Execute(UpdateRow(Terminal(processed.value)));
      var event := ProcessedEvent(FirstEvent(env), wall, processed.value, wall.balance, env);
      if event.Err? {
        return Err(event.error);
      }
      store.Execute(AppendEvent(event.value));
      QuietRuns(old(store.view), Terminal(processed.value), [event.value]);
      return Ok(ResultOf(processed.value, false));
    }

    /** Saves the balance, appends the posting and the claim, ends the row and announces it, in this order. */
    method PersistTransfer(wall: Wallet, updated: Wallet, txn: WagerTransaction, plan: Plan, move: Movement, env: Env)
      returns (r: Result<WagerResult, AppError>)
      modifies store
      ensures store.committed == old(store.committed)
      ensures Executes(old(store.view), Transferred(wall, updated, txn, plan, move, env), r, store.view)
    {
      var entry := NewLedgerEntry(LedgerEntry(
        env.serial, updated.id, txn.id, move.direction, move.amount, wall.balance, updated.balance, env.now));
      if entry.Err? {
        return Err(Invariant);
      }
      var processed := MarkProcessed(txn, plan.referenceId, updated.balance, env.now);
      if processed.Err? {
        return Err(Invariant);
      }
      store.Execute(SaveBalance(updated));
      store.Execute(AppendLedger(entry.value));
      var claim: Option<ReversalClaim> := None;
      if plan.claim {
        var c := NewReversalClaim(env.serial, plan.referenceId, txn.id, env.now);
        if c.Err? {
          return Err(Invariant);
        }
        store.Execute(AppendClaim(c.value));
        claim := Some(c.value);
      }
      store.Execute(UpdateRow(Terminal(processed.value)));
      var first := ProcessedEvent(FirstEvent(env), updated, processed.value, updated.balance, env);
      if first.Err? {
        return Err(first.error);
      }
      store.Execute(AppendEvent(first.value));
      var second := BalanceEvent(SecondEvent(env), updated, processed.value, move, wall.balance, updated.balance, env);
      if second.Err? {
        return Err(second.error);
      }
      store.Execute(AppendEvent(second.value));
      TransferStepsRun(old(store.view), Terminal(processed.value), Transfer(updated, entry.value, claim), first.value,
                       second.value);
      return Ok(ResultOf(processed.value, false));
    }

    method PersistMovement(wall: Wallet, txn: WagerTransaction, plan: Plan, move: Movement,
                           env: Env) returns (r: Result<WagerResult, AppError>)
      modifies store
      ensures store.committed == old(store.committed)
      ensures Executes(old(store.view), ApplyMovement(wall, txn, plan, move, env), r, store.view)
    {
      hide Executes, Reject, Transferred, CreditWallet, DebitWallet;
      var updated := if move.direction == Credit then CreditWallet(wall, move.amount, env.now)
          else DebitWallet(wall, move.amount, env.now);
      if updated.Ok? {
        r := PersistTransfer(wall, updated.value, txn, plan, move, env);
      } else if updated.error == InsufficientBalance {
        var code := InsufficientFunds;
        if txn.kind != Bet {
          code := ReversalInsufficientFunds;
        }
        r := PersistRejection(wall, txn, plan.referenceId, code, env);
      } else {
        r := Err(Domain(updated.error));
        FailsAlike(store.view, Domain(updated.error));
      }
    }

    method ExecutePlanned(wall: Wallet, txn: WagerTransaction, plan: Plan,
                          env: Env) returns (r: Result<WagerResult, AppError>)
      modifies store
      ensures store.committed == old(store.committed)
      ensures Executes(old(store.view), ExecutePlan(wall, txn, plan, env), r, store.view)
    {
      hide Executes, Reject, AwaitReference, ProcessWithoutMovement, ApplyMovement;
      if plan.pending {
        r := PersistWait(txn, env);
      } else if plan.failure != NoFailure {
        r := PersistRejection(wall, txn, plan.referenceId, plan.failure, env);
      } else if plan.movement.None? {
        r := PersistProcessed(wall, txn, plan, env);
      } else {
        r := PersistMovement(wall, txn, plan, plan.movement.value, env);
      }
    }

    method PersistReschedule(txn: WagerTransaction, attempts: nat, env: Env) returns (r: Result<WagerResult, AppError>)
      modifies store
      ensures store.committed == old(store.committed)
      ensures Executes(old(store.view), RescheduleReference(txn, attempts, env), r, store.view)
    {
      var delay := ReferenceBackoff(attempts + 1, env.hash);
      var next := env.now + delay;
      store.Execute(Statement.Reschedule(txn.id, env.now, next, attempts + 1));
      var rescheduled := RehydrateTransaction(txn.(updatedAt := env.now));
      if rescheduled.Err? {
        return Err(Invariant);
      }
      RescheduleRuns(old(store.view), Row(rescheduled.value, next, attempts + 1, 0));
      return Ok(ResultOf(rescheduled.value, false));
    }

    method PersistFailure(wall: Wallet, txn: WagerTransaction, env: Env) returns (r: Result<WagerResult, AppError>)
      modifies store
      ensures store.committed == old(store.committed)
      ensures Executes(old(store.view), Fail(wall, txn, env), r, store.view)
    {
      var failed := MarkFailed(txn, wall.balance, env.now);
      if failed.Err? {
        return Err(Invariant);
      }
      store.Execute(UpdateRow(Terminal(failed.value)));
      QuietRuns(old(store.view), Terminal(failed.value), []);
      return Ok(ResultOf(failed.value, false));
    }

    /** The path a first submission and a recovery pass share: load the reference, look for its claim, decide,
        persist. */
    method ResolveAndExecute(wall: Wallet, txn: WagerTransaction, attempts: nat,
                             env: Env) returns (r: Result<WagerResult, AppError>)
      modifies store
      ensures store.committed == old(store.committed)
      ensures var ref := LoadReference(old(store.view), txn);
              Executes(old(store.view), Settle(wall, txn, attempts, ref, ClaimRead(old(store.view), ref), env), r,
                       store.view)
    {
      hide Executes, Reject, RescheduleReference, ExecutePlan, Fail, Classify, RehydrateTransaction;
      var ref := LoadReference(store.view, txn);
      if ref.Err? {
        if ref.error == CorruptRecord {
          r := PersistFailure(wall, txn, env);
        } else {
          r := Err(ref.error);
          FailsAlike(store.view, ref.error);
        }
        return;
      }
      var claimExists := false;
      if NeedsClaimRead(txn, ref.value) {
        claimExists := HasClaim(store.view.claims, ref.value.value.id);
      }
      var classified := Classify(txn, ref.value, claimExists);
      if classified.Err? {
        r := Err(Invariant);
        FailsAlike(store.view, Invariant);
        return;
      }
      var plan := classified.value;
      if ref.value.Some? && !plan.pending && plan.referenceId == 0 {
        plan := plan.(referenceId := ref.value.value.id);
      }
      if txn.state == PendingReference && plan.pending {
        if env.now >= txn.referenceDeadline {
          r := PersistRejection(wall, txn, 0, ReferenceNotFound, env);
        } else {
          r := PersistReschedule(txn, attempts, env);
        }
      } else {
        r := ExecutePlanned(wall, txn, plan, env);
      }
    }

    // ----- Transaction bodies -----

    /** A found row answers a replay, or refuses a different projection. */
    method Replay(existing: WagerTransaction, cmd: SubmitWagerCommand) returns (r: Result<WagerResult, AppError>)
      ensures Concludes(store.view, ReplayOrConflict(existing, cmd), r, store.view)
    {
      if existing.digest == DigestOf(cmd) && existing.digestVersion == Sha256JcsV1 {
        return Ok(ResultOf(existing, true));
      }
      return Err(Conflict(IdempotencyConflict));
    }

    /** inbox is the inbox without the transaction's own delivery record. */
    method CreateAndExecute(cmd: SubmitWagerCommand, env: Env,
                            ghost inbox: map<InboxKey, InboxRow>) returns (r: Result<WagerResult, AppError>)
      requires var db := store.view.(inbox := inbox);
               Inv(db) && EnvOk(env) && SerialFresh(db, env.serial) && Validate(cmd).Ok?
      requires (cmd.providerId, cmd.idempotencyKey) !in store.view.byKey
               && (cmd.providerId, cmd.externalId) !in store.view.byExternal
      modifies store
      ensures store.committed == old(store.committed)
      ensures Concludes(old(store.view), SubmitFresh(old(store.view).(inbox := inbox), cmd, env), r, store.view)
    {
      hide Inv, SerialFresh, Validate, Executes, Concludes, NewExternalTransaction, RehydrateWallet, Apply, Settle,
           LoadReference, ClaimRead, KeyOf, ExternalOf;
      ghost var before := store.view;
      var wall := LookupWallet(store.view, cmd.walletId);
      var created := NewTransaction(wall, cmd, env);
      if created.Err? {
        r := Err(created.error);
        RefusesAlike(before, created.error, store.view);
        return;
      }
      FreshIsPending(before, cmd, env);
      SerialIsNew(before.(inbox := inbox), env.serial);
      var ok := store.InsertTransaction(created.value);
      if !ok {
        return Err(ConcurrentWrite);
      }
      r := ResolveAndExecute(wall.value.value, created.value, 0, env);
      CreatedConcludes(before, inbox, cmd, created.value, env, r, store.view);
    }

    method SubmitInTx(cmd: SubmitWagerCommand, env: Env,
                      ghost inbox: map<InboxKey, InboxRow>) returns (r: Result<WagerResult, AppError>)
      requires var db := store.view.(inbox := inbox);
               Inv(db) && EnvOk(env) && SerialFresh(db, env.serial) && Validate(cmd).Ok?
      modifies store
      ensures store.committed == old(store.committed)
      ensures Concludes(old(store.view), SubmitWithinTx(old(store.view).(inbox := inbox), cmd, env), r, store.view)
    {
      hide Inv, SerialFresh, Validate, Concludes, SubmitFresh, ReplayOrConflict, SubmitWithinTx, Rehydrate;
      ghost var db := store.view.(inbox := inbox);
      SubmitWithinTxUnfolds(db, cmd, env);
      LookupsAreExact(db, cmd);
      var existing := LookupKey(store.view, (cmd.providerId, cmd.idempotencyKey));
      if existing.value.Some? {
        r := Replay(existing.value.value, cmd);
        return;
      }
      var conflicting := LookupExternal(store.view, (cmd.providerId, cmd.externalId));
      if conflicting.value.Some? {
        if conflicting.value.value.idempotencyKey == cmd.idempotencyKey {
          r := Replay(conflicting.value.value, cmd);
        } else {
          r := Err(Conflict(ExternalTransactionConflict));
          RefusesAlike(store.view, Conflict(ExternalTransactionConflict), store.view);
        }
        return;
      }
      r := CreateAndExecute(cmd, env, inbox);
    }

    /** The body of one delivery: record it, run the operation, complete it. */
    method DeliverInTx(cmd: SubmitWagerCommand, d: InboxDelivery, env: Env, completedAt: Time)
      returns (r: Result<Receipt, AppError>)
      requires Inv(store.view) && EnvOk(env) && SerialFresh(store.view, env.serial)
      requires Validate(cmd).Ok? && ValidateDelivery(d).Ok?
      modifies store
      ensures store.committed == old(store.committed)
      ensures Delivers(old(store.view), SubmitFromInbox(old(store.view), cmd, d, env), d, completedAt, r, store.view)
    {
      hide Inv, SerialFresh, Validate, Concludes, SubmitWithinTx, ValidateDelivery;
      ghost var before := store.view;
      var stored := store.BeginDelivery(d);
      if stored.Some? {
        r := if stored.value == d.digest then Ok(AlreadyHandled) else Err(Conflict(InboxPayloadConflict));
        return;
      }
      assert store.view.(inbox := before.inbox) == before;
      ghost var begun := store.view;
      var body := SubmitInTx(cmd, env, before.inbox);
      ghost var mid := store.view;
      if body.Ok? {
        store.Execute(CompleteInbox(InboxKeyOf(d), completedAt));
        r := Ok(HandledNow(body.value));
      } else {
        r := Err(body.error);
      }
      DeliveryConcludes(before, begun, d, completedAt, SubmitWithinTx(before, cmd, env), body, mid, r, store.view);
    }

    // ----- Use cases -----

    /** Submits over HTTP: at most three transactions, a new one after each lost race. */
    method SubmitWagerTransaction(cmd: SubmitWagerCommand, envs: seq<Env>,
                                  faults: seq<Fault>) returns (r: Result<WagerResult, AppError>)
      requires |envs| == |faults| == MAX_ATTEMPTS && Inv(store.committed)
      requires forall i | 0 <= i < |envs| :: EnvOk(envs[i]) && SerialFresh(store.committed, envs[i].serial)
      modifies store
      ensures Inv(store.committed)
      ensures Validate(cmd).Err? ==> r == Err(Validate(cmd).error) && store.committed == old(store.committed)
      ensures Validate(cmd).Ok? ==>
                if Stable(faults) == MAX_ATTEMPTS then r == Err(Transient) && store.committed == old(store.committed)
                else Commits(old(store.committed), SubmitWithinTx(old(store.committed), cmd, envs[Stable(faults)]),
                             faults[Stable(faults)], r, store.committed)
    {
      hide Inv, SerialFresh, Validate, SubmitWithinTx, Concludes, Commits, EnvOk;
      var valid := Validate(cmd);
      if valid.Err? {
        return Err(valid.error);
      }
      ghost var before := store.committed;
      var attempt := 0;
      while attempt < MAX_ATTEMPTS
        invariant 0 <= attempt <= MAX_ATTEMPTS && store.committed == before
        invariant forall i | 0 <= i < attempt :: faults[i] == LostRace
      {
        store.Begin();
        assert store.view.(inbox := before.inbox) == before;
        r := SubmitInTx(cmd, envs[attempt], before.inbox);
        if faults[attempt] != LostRace {
          StableAt(faults, attempt);
          ghost var body, view := r, store.view;
          SubmitWithinTxKeeps(before, cmd, envs[attempt]);
          store.End(r.Ok? && faults[attempt] != StoreDown);
          if faults[attempt] == StoreDown || (r.Ok? && faults[attempt] == ReplyLost) {
            r := Err(Transient);
          }
          CommitsAlike(before, SubmitWithinTx(before, cmd, envs[attempt]), faults[attempt], body, view, r,
                       store.committed);
          return;
        }
        store.End(false);
        attempt := attempt + 1;
      }
      StableAt(faults, attempt);
      return Err(Transient);
    }

    /** Submits one queue delivery; its record commits with the operation or not at all. */
    method SubmitWagerFromInbox(d: InboxDelivery, envs: seq<Env>, faults: seq<Fault>, completedAt: Time)
      returns (r: Result<Receipt, AppError>)
      requires |envs| == |faults| == MAX_ATTEMPTS && Inv(store.committed) && completedAt != 0
      requires forall i | 0 <= i < |envs| :: EnvOk(envs[i]) && SerialFresh(store.committed, envs[i].serial)
      modifies store
      ensures Inv(store.committed)
      ensures var cmd := d.digest.command;
              if Validate(cmd).Err? then r == Err(Validate(cmd).error) && store.committed == old(store.committed)
              else if ValidateDelivery(d).Err? then r == Err(ValidateDelivery(d).error)
                      && store.committed == old(store.committed)
              else if Stable(faults) == MAX_ATTEMPTS then r == Err(Transient) && store.committed == old(store.committed)
              else DeliveryCommits(old(store.committed),
                                   SubmitFromInbox(old(store.committed), cmd, d, envs[Stable(faults)]),
                                   d, completedAt, faults[Stable(faults)], r, store.committed)
    {
      hide Inv, SerialFresh, Validate, ValidateDelivery, SubmitFromInbox, Delivers, DeliveryCommits, EnvOk, AfterInbox;
      var cmd := d.digest.command;
      var valid := Validate(cmd);
      if valid.Err? {
        return Err(valid.error);
      }
      var received := ValidateDelivery(d);
      if received.Err? {
        return Err(received.error);
      }
      ghost var before := store.committed;
      var attempt := 0;
      while attempt < MAX_ATTEMPTS
        invariant 0 <= attempt <= MAX_ATTEMPTS && store.committed == before
        invariant forall i | 0 <= i < attempt :: faults[i] == LostRace
      {
        store.Begin();
        r := DeliverInTx(cmd, d, envs[attempt], completedAt);
        if faults[attempt] != LostRace {
          StableAt(faults, attempt);
          ghost var body, view := r, store.view;
          SubmitFromInboxKeeps(before, d, envs[attempt], completedAt);
          store.End(r.Ok? && faults[attempt] != StoreDown);
          if faults[attempt] == StoreDown || (r.Ok? && faults[attempt] == ReplyLost) {
            r := Err(Transient);
          }
          DeliveryCommitsAlike(before, SubmitFromInbox(before, cmd, d, envs[attempt]), d, completedAt, faults[attempt],
                               body, view, r, store.committed);
          return;
        }
        store.End(false);
        attempt := attempt + 1;
      }
      StableAt(faults, attempt);
      return Err(Transient);
    }

    method ResolveInTx(id: TransactionId, env: Env) returns (r: Result<WagerResult, AppError>)
      requires Inv(store.view) && EnvOk(env) && SerialFresh(store.view, env.serial) && id != 0
      modifies store
      ensures store.committed == old(store.committed)
      ensures Concludes(old(store.view), Resolve(old(store.view), id, env), r, store.view)
    {
      hide Inv, SerialFresh, Executes, Concludes, RehydrateWallet, RehydrateTransaction, SettleIn, Settle,
           LoadReference, ClaimRead;
      ghost var before := store.view;
      if id !in store.view.rows {
        r := Err(NotFound);
        RefusesAlike(before, NotFound, before);
        return;
      }
      var txn := Rehydrate(store.view.rows[id]);
      if txn.Err? {
        r := Err(txn.error);
        RefusesAlike(before, txn.error, before);
        return;
      }
      if txn.value.state.IsTerminal() {
        r := Ok(ResultOf(txn.value, false));
        AnswersAlike(before, ResultOf(txn.value, false));
        return;
      }
      if txn.value.state != PendingReference {
        r := Err(Contract(InvalidRequest));
        RefusesAlike(before, Contract(InvalidRequest), before);
        return;
      }
      var wall := LookupWallet(store.view, txn.value.walletId);
      if wall.Err? {
        r := Err(wall.error);
        RefusesAlike(before, wall.error, before);
        return;
      }
      if wall.value.None? {
        r := Err(CorruptRecord);
        RefusesAlike(before, CorruptRecord, before);
        return;
      }
      r := ResolveAndExecute(wall.value.value, txn.value, store.view.rows[id].attempts, env);
      RecoveryConcludes(before, id, env, r, store.view);
    }

    /** Advances one waiting operation. */
    method ResolvePendingReference(id: TransactionId, env: Env, fault: Fault) returns (r: Result<WagerResult, AppError>)
      requires Inv(store.committed) && EnvOk(env) && SerialFresh(store.committed, env.serial) && fault != LostRace
      modifies store
      ensures Inv(store.committed)
      ensures id == 0 ==> r == Err(Contract(InvalidRequest)) && store.committed == old(store.committed)
      ensures id != 0 ==>
                Commits(old(store.committed), Resolve(old(store.committed), id, env), fault, r, store.committed)
    {
      hide Inv, SerialFresh, Resolve, Concludes, Commits;
      if id == 0 {
        return Err(Contract(InvalidRequest));
      }
      ghost var before := store.committed;
      store.Begin();
      r := ResolveInTx(id, env);
      ghost var body, view := r, store.view;
      ResolveKeeps(before, id, env);
      store.End(r.Ok? && fault != StoreDown);
      if fault == StoreDown || (r.Ok? && fault == ReplyLost) {
        r := Err(Transient);
      }
      CommitsAlike(before, Resolve(before, id, env), fault, body, view, r, store.committed);
    }

    method OpenInTx(wallet: Wallet, env: Env) returns (r: Result<(), AppError>)
      requires WalletOk(wallet) && EnvOk(env) && wallet.version == 1
      requires env.serial !in store.view.rows
      requires forall id | id in store.view.rows :: store.view.rows[id].txn.walletId != wallet.id
      modifies store
      ensures store.committed == old(store.committed)
      ensures if (wallet.playerId, wallet.currency) in old(store.view).owners
              then r == Err(Conflict(WalletAlreadyExists))
              else
                r == Ok(())
                  && store.view == ApplyAll(old(store.view), Interleaving.OpenStatements(OpenedOf(wallet, env)))
    {
      hide WalletOk, Apply, ApplyAll;
      ghost var before := store.view;
      var inserted := store.InsertWalletRow(wallet);
      if !inserted {
        return Err(Conflict(WalletAlreadyExists));
      }
      ghost var one := store.view;
      if !wallet.balance.IsPositive() {
        RunOne(before, InsertWallet(wallet));
        assert Interleaving.OpenStatements(OpenedOf(wallet, env)) == [InsertWallet(wallet)];
        return Ok(());
      }
      OpeningSucceeds(wallet, env);
      OpeningParts(wallet, env);
      var opening := NewInternalOpening(env.serial, wallet.id, wallet.playerId, wallet.balance, env.now);
      var processed := MarkProcessed(opening.value, 0, wallet.balance, env.now);
      InsertedWalletRows(before, wallet);
      var placed := store.InsertTransaction(processed.value);
      if !placed {
        return Err(ConcurrentWrite);
      }
      var zero := Money(0, wallet.currency);
      var entry :=
            NewLedgerEntry(LedgerEntry(env.serial, wallet.id, processed.value.id, Credit, wallet.balance, zero,
                                       wallet.balance, env.now));
      store.Execute(AppendLedger(entry.value));
      var first := ProcessedEvent(FirstEvent(env), wallet, processed.value, wallet.balance, env);
      store.Execute(AppendEvent(first.value));
      var second := BalanceEvent(SecondEvent(env), wallet, processed.value, Movement(Credit, wallet.balance), zero,
                                 wallet.balance, env);
      store.Execute(AppendEvent(second.value));
      OpenStepsRun(before, OpenedOf(wallet, env));
      return Ok(());
    }

    /** Creates one wallet per player and currency, with its OPENING when the balance is positive. */
    method OpenWallet(cmd: OpenWalletCommand, id: WalletId, env: Env, fault: Fault)
      returns (r: Result<Wallet, AppError>)
      requires Inv(store.committed) && EnvOk(env) && SerialFresh(store.committed, env.serial) && fault != LostRace
      requires id != "" && id !in store.committed.wallets
      modifies store
      ensures Inv(store.committed)
      ensures var o := Operations.OpenWallet(old(store.committed), cmd, id, env);
              if o.Err? then r == Err(o.error) && store.committed == old(store.committed)
              else if fault == StoreDown then r == Err(Transient) && store.committed == old(store.committed)
              else
                && store.committed == ApplyOpened(old(store.committed), o.value)
                && r == if fault == ReplyLost then Err(Transient) else Ok(o.value.wallet)
    {
      hide Inv, SerialFresh, ApplyAll, ApplyOpened;
      ghost var before := store.committed;
      OpenUnfolds(before, cmd, id, env);
      var valid := ValidateOpen(cmd);
      if valid.Err? {
        return Err(valid.error);
      }
      var wallet := NewWallet(id, cmd.playerId, cmd.initialBalance.currency, cmd.initialBalance, env.now);
      if wallet.Err? {
        return Err(Contract(InvalidRequest));
      }
      store.Begin();
      NewWalletIsOk(id, cmd, env);
      SerialIsNew(before, env.serial);
      UnknownWalletHasNoRows(before, id);
      var done := OpenInTx(wallet.value, env);
      store.End(done.Ok? && fault != StoreDown);
      if done.Ok? {
        OpenRunsHere(before, cmd, id, env);
        OpenKeeps(before, cmd, id, env);
      }
      if done.Err? {
        r := Err(done.error);
      } else if fault == StoreDown || fault == ReplyLost {
        r := Err(Transient);
      } else {
        r := Ok(wallet.value);
      }
    }
  }
}
