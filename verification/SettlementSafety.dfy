/** Whatever Settle decides from what it has read is an effect the tables can take. */
module SettlementSafety {
  import opened Results
  import opened MoneyValue
  import opened Wager
  import opened Wallets
  import opened AppErrors
  import opened Resolution
  import opened Backoff
  import opened Tables
  import opened Settlement
  import opened Invariants
  import opened Preservation
  import opened EffectSafety

  /** A provider transaction that has not been decided yet. */
  predicate Undecided(t: WagerTransaction) {
    && t.origin == External && RehydrateTransaction(t).Ok? && OriginOk(t)
    && t.failureCode == NoFailure && t.observedBalance == NO_MONEY && t.referenceId == 0
  }

  /** The transaction to settle is either freshly inserted under free keys or stored and waiting. */
  ghost predicate Settleable(db: Db, t: WagerTransaction, env: Env) {
    && Undecided(t)
    && (if t.id in db.rows then db.rows[t.id].txn == t && t.state == PendingReference
        else
          && t.state == Pending && t.id == env.serial && t.referenceDeadline == 0
             && t.createdAt == t.updatedAt == env.now
          && KeyOf(t) !in db.byKey && ExternalOf(t) !in db.byExternal)
  }

  /** The wallet as read under its lock. */
  ghost predicate WalletRead(db: Db, wall: Wallet, t: WagerTransaction) {
    t.walletId in db.wallets && wall == db.wallets[t.walletId] && t.amount.currency == wall.currency
  }

  /** What the wallet lock guarantees about the reference that was read: it exists and its identity is the stored one;
      on the locked wallet its state and its claim are current too. Nothing is required when none was found. */
  ghost predicate ReferenceRead(db: Db, t: WagerTransaction, ref: Option<WagerTransaction>, claimRead: bool) {
    ref.Some? ==>
      var r := ref.value;
      && NeedsReference(t) && r.id != 0
      && (if r.id == t.id then r == t
          else
            && r.id in db.rows && SameIdentity(r, db.rows[r.id].txn)
            && (r.walletId == t.walletId ==>
                  && r.state == db.rows[r.id].txn.state
                  && (NeedsClaimRead(t, ref) ==> claimRead == HasClaim(db.claims, r.id))))
  }

  /** Everything but the reference is at hand: good tables, the surroundings, the transaction and its wallet. */
  ghost predicate Ready(db: Db, wall: Wallet, t: WagerTransaction, env: Env) {
    Inv(db) && EnvOk(env) && SerialFresh(db, env.serial) && Settleable(db, t, env) && WalletRead(db, wall, t)
  }

  ghost predicate SettleReady(db: Db, wall: Wallet, t: WagerTransaction, ref: Option<WagerTransaction>,
                              claimRead: bool, env: Env) {
    Ready(db, wall, t, env) && ReferenceRead(db, t, ref, claimRead)
  }

  ghost predicate Fits(db: Db, r: Result<Settled, AppError>, env: Env) {
    r.Ok? ==> EffectOk(db, r.value.effect, env.serial)
  }

  lemma WalletIsOk(db: Db, wall: Wallet, t: WagerTransaction)
    requires Inv(db) && WalletRead(db, wall, t)
    ensures WalletOk(wall) && wall.id == t.walletId && wall.id in db.wallets && wall == db.wallets[wall.id]
    ensures WalletAgrees(db, wall.id) && WalletsOk(db.wallets, db.owners)
  {
  }

  // ----- The decision alone, away from the tables -----

  predicate Decidable(wall: Wallet, t: WagerTransaction, env: Env) {
    && WalletOk(wall) && wall.id == t.walletId && wall.currency == t.amount.currency && EnvOk(env)
    && Undecided(t) && (t.state == Pending || t.state == PendingReference)
    && (t.referenceDeadline != 0 ==> NeedsReference(t))
    && (t.state == PendingReference ==> t.referenceDeadline == t.createdAt + REFERENCE_TTL)
  }

  /** An effect without a posting: one well-formed row, at most one event, and that event tells the row's story. */
  predicate Quiet(e: Effect, wall: Wallet, t: WagerTransaction, env: Env) {
    && e.transfer.None? && RowOk(e.row) && SameCommand(t, e.row.txn) && |e.events| <= 1
    && (e.events == [] ==>
          e.row.txn.state == PendingReference && t.state == PendingReference
            && e.row.txn.referenceDeadline == t.referenceDeadline)
    && (|e.events| == 1 ==>
          && e.events[0].id == 2 * env.serial && e.events[0].data.transactionId == t.id
          && EventOk(map[t.id := e.row], map[wall.id := wall], e.events[0])
          && match e.row.txn.state
             case PendingReference => t.state == Pending && KindOfEvent(e.events[0]) == OfPending
             case Rejected => KindOfEvent(e.events[0]) == OfRejected
                  && e.row.txn.referenceDeadline == t.referenceDeadline
             case Processed => KindOfEvent(e.events[0]) == OfProcessed && t.kind == Loss
                  && e.row.txn.referenceDeadline == t.referenceDeadline
             case _ => false)
  }

  lemma RejectIsQuiet(wall: Wallet, t: WagerTransaction, reference: TransactionId, code: FailureCode, env: Env)
    requires Decidable(wall, t, env) && code != NoFailure && code != PermanentInfrastructure
    ensures Reject(wall, t, reference, code, env).Ok?
    ensures Quiet(Reject(wall, t, reference, code, env).value.effect, wall, t, env)
    ensures Reject(wall, t, reference, code, env).value.effect.row.txn.referenceId == reference
  {
  }

  lemma AwaitIsQuiet(wall: Wallet, t: WagerTransaction, env: Env)
    requires Decidable(wall, t, env) && t.state == Pending && NeedsReference(t) && t.createdAt == t.updatedAt == env.now
    ensures AwaitReference(t, env).Ok?
    ensures Quiet(AwaitReference(t, env).value.effect, wall, t, env)
    ensures AwaitReference(t, env).value.effect.row.txn.referenceId == 0
  {
  }

  lemma LossIsQuiet(wall: Wallet, t: WagerTransaction, plan: Plan, env: Env)
    requires Decidable(wall, t, env) && t.kind == Loss
    ensures ProcessWithoutMovement(wall, t, plan, env).Ok?
    ensures Quiet(ProcessWithoutMovement(wall, t, plan, env).value.effect, wall, t, env)
    ensures ProcessWithoutMovement(wall, t, plan, env).value.effect.row.txn.referenceId == plan.referenceId
  {
  }

  /** A reschedule fails only when the clock reads earlier than the row's creation. */
  lemma RescheduleIsQuiet(wall: Wallet, t: WagerTransaction, attempts: nat, env: Env)
    requires Decidable(wall, t, env) && t.state == PendingReference
    ensures RescheduleReference(t, attempts, env).Ok? <==> t.createdAt <= env.now
    ensures RescheduleReference(t, attempts, env).Err? ==> RescheduleReference(t, attempts, env).error == Invariant
    ensures RescheduleReference(t, attempts, env).Ok? ==>
              && Quiet(RescheduleReference(t, attempts, env).value.effect, wall, t, env)
              && RescheduleReference(t, attempts, env).value.effect.row.txn.referenceId == 0
  {
    assert ExponentialDelay(attempts + 1) > 0 by { DelayIsPositive(attempts + 1); }
  }

  lemma {:induction false} DelayIsPositive(attempt: nat)
    ensures ExponentialDelay(attempt) > 0
  {
    if attempt > 0 {
      DelayIsPositive(attempt - 1);
    }
  }

  lemma EventOkIsLocal(rows: RowTable, wallets: WalletTable, row: Row, wall: Wallet, e: Event)
    requires row.txn.id in rows && rows[row.txn.id] == row && wall.id in wallets && wallets[wall.id] == wall
    requires KindOfEvent(e) != OfBalance && EventOk(map[row.txn.id := row], map[wall.id := wall], e)
    ensures EventOk(rows, wallets, e)
  {
  }

  // ----- Back in the tables -----

  lemma SettleableIsDecidable(db: Db, wall: Wallet, t: WagerTransaction, env: Env)
    requires Ready(db, wall, t, env)
    ensures Decidable(wall, t, env)
  {
    WalletIsOk(db, wall, t);
    if t.id in db.rows {
      assert RowOk(db.rows[t.id]);
    }
  }

  /** What a stored waiting row adds to being settleable. */
  lemma SettledRowPlace(db: Db, wall: Wallet, t: WagerTransaction, env: Env)
    requires Ready(db, wall, t, env)
    ensures Settleable(db, t, env) && WalletRead(db, wall, t) && t.id != 0
    ensures t.id in db.rows ==> t.referenceDeadline != 0 && db.rows[t.id].txn == t
  {
    if t.id in db.rows {
      assert RowOk(db.rows[t.id]);
    }
  }

  /** The parts of RowFits that do not depend on the decision. */
  lemma DecidedRowFits(db: Db, wall: Wallet, t: WagerTransaction, env: Env, row: Row)
    requires Ready(db, wall, t, env)
    requires SameCommand(t, row.txn) && RowOk(row)
    requires row.txn.referenceId != 0 ==> row.txn.referenceId in db.rows || row.txn.referenceId == t.id
    requires row.txn.referenceDeadline == t.referenceDeadline
             || (t.id !in db.rows && row.txn.state == PendingReference && row.txn.referenceDeadline != 0)
    requires t.id !in db.rows && row.txn.state == PendingReference ==> row.txn.referenceDeadline != 0
    ensures RowFits(db, row)
  {
    hide Ready, RowOk;
    SettledRowPlace(db, wall, t, env);
  }

  lemma QuietRow(e: Effect, wall: Wallet, t: WagerTransaction, env: Env)
    requires Quiet(e, wall, t, env)
    ensures e.transfer.None? && RowOk(e.row) && SameCommand(t, e.row.txn) && e.row.txn.id == t.id
    ensures e.row.txn.state == PendingReference ==> e.row.txn.referenceDeadline != 0
    ensures e.row.txn.referenceDeadline == t.referenceDeadline
            || (t.state == Pending && e.row.txn.state == PendingReference)
    ensures e.row.txn.state == Processed ==> e.row.txn.kind == Loss
  {
  }

  lemma QuietEffectOk(db: Db, wall: Wallet, t: WagerTransaction, env: Env, e: Effect)
    requires Ready(db, wall, t, env)
    requires Quiet(e, wall, t, env)
    requires e.row.txn.referenceId != 0 ==> e.row.txn.referenceId in db.rows || e.row.txn.referenceId == t.id
    ensures EffectOk(db, e, env.serial)
  {
    hide Quiet, RowOk, Inv, RowFits, EventsFit, SerialFresh;
    QuietRow(e, wall, t, env);
    DecidedRowFits(db, wall, t, env, e.row);
    WalletIsOk(db, wall, t);
    QuietEventsFit(db, wall, t, env, e);
  }

  lemma QuietEventsFit(db: Db, wall: Wallet, t: WagerTransaction, env: Env, e: Effect)
    requires SerialFresh(db, env.serial) && Settleable(db, t, env) && WalletRead(db, wall, t) && wall.id == t.walletId
    requires Quiet(e, wall, t, env)
    ensures EventsFit(db, e, env.serial)
  {
    if |e.events| == 1 {
      EventOkIsLocal(db.rows[t.id := e.row], db.wallets, e.row, wall, e.events[0]);
    }
  }

  // ----- Movements -----

  /** The plan of a movement the reference, if any, supports. */
  predicate MovingPlan(t: WagerTransaction, plan: Plan, move: Movement) {
    && move.amount == t.amount && t.amount.minorUnits > 0 && plan.claim == IsClaimingKind(t.kind)
    && plan.referenceId != t.id && (plan.claim ==> plan.referenceId != 0)
  }

  function BalanceAfter(wall: Wallet, move: Movement): int {
    if move.direction == Credit then wall.balance.minorUnits + move.amount.minorUnits
    else wall.balance.minorUnits - move.amount.minorUnits
  }

  function PostedRow(t: WagerTransaction, reference: TransactionId, observed: Money): Row {
    Terminal(t.(state := Processed, referenceId := reference, observedBalance := observed))
  }

  /** What a movement that succeeds persists, field by field. */
  function PostedEffect(wall: Wallet, t: WagerTransaction, plan: Plan, move: Movement, env: Env): Effect
    requires Representable(BalanceAfter(wall, move))
  {
    var after := Money(BalanceAfter(wall, move), wall.currency);
    Effect(
      PostedRow(t, plan.referenceId, after),
      false,
      Some(Transfer(
        WithBalance(wall, after, env.now),
        LedgerEntry(env.serial, wall.id, t.id, move.direction, t.amount, wall.balance, after, env.now),
        if plan.claim then Some(ReversalClaim(env.serial, plan.referenceId, t.id, env.now)) else None)),
      [Event(2 * env.serial, wall.id, env.correlation, env.now,
             ProcessedData(t.id, t.origin, t.providerId, t.externalId, wall.id, wall.playerId, t.roundId, t.gameId,
                           t.kind,
                           t.amount, after)),
       Event(2 * env.serial + 1, wall.id, env.correlation, env.now,
             BalanceChangedData(wall.id, t.id, move.direction, t.amount, wall.balance, after, wall.version + 1))])
  }

  /** A planned movement has exactly three ends: it posts, a debit beyond the balance is rejected,
      and a credit beyond 64 bits aborts the whole operation. */
  lemma MovementEnds(wall: Wallet, t: WagerTransaction, plan: Plan, move: Movement, env: Env)
    requires Decidable(wall, t, env) && MovingPlan(t, plan, move)
    ensures move.direction == Debit && wall.balance.minorUnits < t.amount.minorUnits ==>
              ApplyMovement(wall, t, plan, move, env) ==
              Reject(wall, t, plan.referenceId, if t.kind != Bet then ReversalInsufficientFunds
                     else InsufficientFunds, env)
    ensures move.direction == Credit && wall.balance.minorUnits + t.amount.minorUnits > MAX_INT64 ==>
              ApplyMovement(wall, t, plan, move, env) == Err(Domain(MoneyFailure(Overflow)))
    ensures 0 <= BalanceAfter(wall, move) <= MAX_INT64 ==>
              && ApplyMovement(wall, t, plan, move, env).Ok?
              && ApplyMovement(wall, t, plan, move, env).value.effect == PostedEffect(wall, t, plan, move, env)
  {
    CreditExact(wall, t.amount, env.now);
    DebitExact(wall, t.amount, env.now);
    if 0 <= BalanceAfter(wall, move) <= MAX_INT64 {
      var after := Money(BalanceAfter(wall, move), wall.currency);
      EntryExact(LedgerEntry(env.serial, wall.id, t.id, move.direction, t.amount, wall.balance, after, env.now));
      PostedIsTransferred(wall, t, plan, move, env);
    }
  }

  lemma PostedIsTransferred(wall: Wallet, t: WagerTransaction, plan: Plan, move: Movement, env: Env)
    requires Decidable(wall, t, env) && MovingPlan(t, plan, move) && 0 <= BalanceAfter(wall, move) <= MAX_INT64
    requires NewLedgerEntry(LedgerEntry(env.serial, wall.id, t.id, move.direction, t.amount, wall.balance,
                                        Money(BalanceAfter(wall, move), wall.currency), env.now)).Ok?
    ensures var updated := WithBalance(wall, Money(BalanceAfter(wall, move), wall.currency), env.now);
            && Transferred(wall, updated, t, plan, move, env).Ok?
            && Transferred(wall, updated, t, plan, move, env).value.effect == PostedEffect(wall, t, plan, move, env)
  {
  }

  /** The reference of a movement as the tables know it. */
  ghost predicate MoveSupported(db: Db, t: WagerTransaction, plan: Plan, move: Movement) {
    && MovingPlan(t, plan, move)
    && (plan.referenceId != 0 ==> plan.referenceId in db.rows)
    && match t.kind
       case Bet => move.direction == Debit
       case Win => move.direction == Credit
       case Refund => ReversalSupported(db, t, plan, move)
       case Rollback => ReversalSupported(db, t, plan, move)
       case _ => false
  }

  ghost predicate ReversalSupported(db: Db, t: WagerTransaction, plan: Plan, move: Movement) {
    && IsProcessed(db.rows, plan.referenceId) && !HasClaim(db.claims, plan.referenceId)
    && var y := db.rows[plan.referenceId].txn;
       && MayReverse(t.kind, y.kind) && move.direction == ReversalDirection(t.kind, y.kind)
       && t.walletId == y.walletId && t.playerId == y.playerId && t.roundId == y.roundId && t.amount == y.amount
  }

  lemma PostedClaimIsNew(db: Db, t: WagerTransaction, plan: Plan, move: Movement, row: Row, env: Env)
    requires MoveSupported(db, t, plan, move) && IsClaimingKind(t.kind) && Placed(db.rows, row.txn) && t.id != 0
    requires SameCommand(t, row.txn) && row.txn.state == Processed && row.txn.referenceId == plan.referenceId
    ensures NewClaim(db.rows, db.claims, row, ReversalClaim(env.serial, plan.referenceId, t.id, env.now))
  {
  }

  lemma PostedDirection(db: Db, t: WagerTransaction, plan: Plan, move: Movement, row: Row)
    requires MoveSupported(db, t, plan, move)
    requires SameCommand(t, row.txn) && row.txn.referenceId == plan.referenceId
    ensures DirectionOf(db.rows[t.id := row], row.txn) == move.direction
  {
  }

  lemma PostedRowIsOk(wall: Wallet, t: WagerTransaction, plan: Plan, move: Movement, env: Env)
    requires Decidable(wall, t, env) && MovingPlan(t, plan, move) && 0 <= BalanceAfter(wall, move) <= MAX_INT64
    ensures RowOk(PostedEffect(wall, t, plan, move, env).row)
            && SameCommand(t, PostedEffect(wall, t, plan, move, env).row.txn)
  {
  }

  lemma PostedEventsFit(db: Db, wall: Wallet, t: WagerTransaction, plan: Plan, move: Movement, env: Env)
    requires SerialFresh(db, env.serial) && EnvOk(env) && WalletRead(db, wall, t) && Decidable(wall, t, env)
             && t.kind != Loss
    requires MoveSupported(db, t, plan, move) && 0 <= BalanceAfter(wall, move) <= MAX_INT64
    ensures EventsFit(db, PostedEffect(wall, t, plan, move, env), env.serial)
  {
    var e := PostedEffect(wall, t, plan, move, env);
    var rows := db.rows[t.id := e.row];
    PostedDirection(db, t, plan, move, e.row);
    assert EventOk(rows, db.wallets, e.events[0]);
    assert EventOk(rows, db.wallets, e.events[1]);
  }

  lemma PostedEntryIsOk(db: Db, wall: Wallet, t: WagerTransaction, plan: Plan, move: Movement, env: Env)
    requires Decidable(wall, t, env) && t.kind != Loss
    requires MoveSupported(db, t, plan, move) && 0 <= BalanceAfter(wall, move) <= MAX_INT64
    ensures EntryOk(db.rows[t.id := PostedEffect(wall, t, plan, move, env).row],
                    PostedEffect(wall, t, plan, move, env).transfer.value.entry)
  {
    PostedDirection(db, t, plan, move, PostedEffect(wall, t, plan, move, env).row);
  }

  lemma PostedTransferFits(db: Db, wall: Wallet, t: WagerTransaction, plan: Plan, move: Movement, env: Env)
    requires SerialFresh(db, env.serial) && WalletRead(db, wall, t) && Decidable(wall, t, env) && t.kind.IsExternal()
             && t.kind != Loss
    requires WalletAgrees(db, wall.id)
    requires MoveSupported(db, t, plan, move) && 0 <= BalanceAfter(wall, move) <= MAX_INT64
    requires Placed(db.rows, PostedEffect(wall, t, plan, move, env).row.txn)
    ensures TransferFits(db, PostedEffect(wall, t, plan, move, env).transfer.value,
                         PostedEffect(wall, t, plan, move, env).row)
  {
    var e := PostedEffect(wall, t, plan, move, env);
    PostedEntryIsOk(db, wall, t, plan, move, env);
    if IsClaimingKind(t.kind) {
      PostedClaimIsNew(db, t, plan, move, e.row, env);
    }
  }

  lemma PostedEffectOk(db: Db, wall: Wallet, t: WagerTransaction, plan: Plan, move: Movement, env: Env)
    requires Ready(db, wall, t, env)
    requires MoveSupported(db, t, plan, move) && 0 <= BalanceAfter(wall, move) <= MAX_INT64
    ensures EffectOk(db, PostedEffect(wall, t, plan, move, env), env.serial)
  {
    var e := PostedEffect(wall, t, plan, move, env);
    SettleableIsDecidable(db, wall, t, env);
    WalletIsOk(db, wall, t);
    PostedRowIsOk(wall, t, plan, move, env);
    DecidedRowFits(db, wall, t, env, e.row);
    PostedEventsFit(db, wall, t, plan, move, env);
    PostedTransferFits(db, wall, t, plan, move, env);
  }

  // ----- The whole decision -----

  /** A plan keeps the identity of the reference that was found, and none otherwise. */
  lemma PlanFacts(db: Db, t: WagerTransaction, ref: Option<WagerTransaction>, claimRead: bool)
    requires Submittable(t) && t.id != 0 && (ref.Some? ==> NeedsReference(t)) && ReferenceRead(db, t, ref, claimRead)
    requires t.state == Pending || t.state == PendingReference
    ensures PlanOperation(t, ref, claimRead).Ok?
    ensures var plan := PlanOperation(t, ref, claimRead).value;
            && (plan.pending ==> NeedsReference(t) && plan.failure == NoFailure)
            && plan.failure != PermanentInfrastructure
            && (plan.referenceId != 0 ==> plan.referenceId in db.rows || plan.referenceId == t.id)
            && (plan.failure == NoFailure && !plan.pending && plan.movement.None? ==> t.kind == Loss)
            && (plan.movement.Some? ==>
                  plan.failure == NoFailure && !plan.pending && MoveSupported(db, t, plan, plan.movement.value))
  {
    var claimExists := NeedsClaimRead(t, ref) && claimRead;
    MoneyMovesExactlyWhen(t, ref, claimExists);
    var plan := PlanOperation(t, ref, claimRead).value;
    if plan.movement.Some? && ref.Some? {
      assert Supports(t, ref.value, claimExists);
      assert ref.value.id != t.id;
    }
  }

  /** ExecutePlan on a plan the tables support. */
  lemma ExecuteIsSafe(db: Db, wall: Wallet, t: WagerTransaction, plan: Plan, env: Env)
    requires Ready(db, wall, t, env)
    requires t.id in db.rows ==> !plan.pending
    requires plan.pending ==> NeedsReference(t)
    requires plan.failure != PermanentInfrastructure
    requires plan.referenceId != 0 ==> plan.referenceId in db.rows || plan.referenceId == t.id
    requires plan.failure == NoFailure && !plan.pending && plan.movement.None? ==> t.kind == Loss
    requires plan.movement.Some? ==> MoveSupported(db, t, plan, plan.movement.value)
    ensures var r := ExecutePlan(wall, t, plan, env);
            && Fits(db, r, env)
            && (r.Err? ==> r.error == Domain(MoneyFailure(Overflow)))
  {
    hide Ready, EffectOk, Quiet, MoveSupported, Decidable, Reject, AwaitReference, ProcessWithoutMovement,
         ApplyMovement;
    SettleableIsDecidable(db, wall, t, env);
    SettledRowPlace(db, wall, t, env);
    if plan.pending {
      AwaitIsQuiet(wall, t, env);
      QuietEffectOk(db, wall, t, env, AwaitReference(t, env).value.effect);
    } else if plan.failure != NoFailure {
      RejectIsQuiet(wall, t, plan.referenceId, plan.failure, env);
      QuietEffectOk(db, wall, t, env, Reject(wall, t, plan.referenceId, plan.failure, env).value.effect);
    } else if plan.movement.None? {
      LossIsQuiet(wall, t, plan, env);
      QuietEffectOk(db, wall, t, env, ProcessWithoutMovement(wall, t, plan, env).value.effect);
    } else {
      MovementIsSafe(db, wall, t, plan, plan.movement.value, env);
    }
  }

  lemma MovementIsSafe(db: Db, wall: Wallet, t: WagerTransaction, plan: Plan, move: Movement, env: Env)
    requires Ready(db, wall, t, env)
    requires MoveSupported(db, t, plan, move)
    ensures var r := ApplyMovement(wall, t, plan, move, env);
            && Fits(db, r, env)
            && (r.Err? ==> r.error == Domain(MoneyFailure(Overflow)))
  {
    hide Ready, EffectOk, Quiet, ReversalSupported, Reject, PostedEffect;
    SettleableIsDecidable(db, wall, t, env);
    MovementEnds(wall, t, plan, move, env);
    var code := if t.kind != Bet then ReversalInsufficientFunds else InsufficientFunds;
    if move.direction == Debit && wall.balance.minorUnits < t.amount.minorUnits {
      RejectIsQuiet(wall, t, plan.referenceId, code, env);
      QuietEffectOk(db, wall, t, env, Reject(wall, t, plan.referenceId, code, env).value.effect);
    } else if 0 <= BalanceAfter(wall, move) <= MAX_INT64 {
      PostedEffectOk(db, wall, t, plan, move, env);
    }
  }

  /** A recovery pass that still has to wait: it expires at the deadline and reschedules before it. */
  function StillWaiting(wall: Wallet, t: WagerTransaction, attempts: nat, env: Env): Result<Settled, AppError> {
    if env.now >= t.referenceDeadline then Reject(wall, t, 0, ReferenceNotFound, env)
    else RescheduleReference(t, attempts, env)
  }

  lemma StillWaitingIsSafe(db: Db, wall: Wallet, t: WagerTransaction, attempts: nat, env: Env)
    requires Ready(db, wall, t, env)
    requires t.state == PendingReference
    ensures var r := StillWaiting(wall, t, attempts, env);
            && Fits(db, r, env)
            && (r.Err? ==> r.error == Invariant && env.now < t.createdAt)
  {
    hide Ready, EffectOk, Quiet, Decidable, Reject, RescheduleReference;
    SettleableIsDecidable(db, wall, t, env);
    if env.now >= t.referenceDeadline {
      RejectIsQuiet(wall, t, 0, ReferenceNotFound, env);
      QuietEffectOk(db, wall, t, env, Reject(wall, t, 0, ReferenceNotFound, env).value.effect);
    } else {
      RescheduleIsQuiet(wall, t, attempts, env);
      if RescheduleReference(t, attempts, env).Ok? {
        QuietEffectOk(db, wall, t, env, RescheduleReference(t, attempts, env).value.effect);
      }
    }
  }

  /** The two branches of Settle once the plan is known. */
  lemma SettleUnfolds(wall: Wallet, t: WagerTransaction, attempts: nat, ref: Option<WagerTransaction>, claimRead: bool,
                      env: Env)
    requires PlanOperation(t, ref, claimRead).Ok?
    ensures var plan := PlanOperation(t, ref, claimRead).value;
            Settle(wall, t, attempts, Ok(ref), claimRead, env) ==
            if t.state == PendingReference && plan.pending then StillWaiting(wall, t, attempts, env)
            else ExecutePlan(wall, t, plan, env)
  {
  }

  /** An operation that reads under its wallet's lock either decides an effect the tables can take, or aborts: on a
      credit that does not fit in 64 bits, or on a recovery pass whose clock reads earlier than the row's creation. */
  lemma SettleIsSafe(db: Db, wall: Wallet, t: WagerTransaction, attempts: nat, ref: Option<WagerTransaction>,
                     claimRead: bool, env: Env)
    requires SettleReady(db, wall, t, ref, claimRead, env)
    ensures var r := Settle(wall, t, attempts, Ok(ref), claimRead, env);
            && Fits(db, r, env)
            && (r.Err? ==> r.error == Domain(MoneyFailure(Overflow))
                           || (r.error == Invariant && t.state == PendingReference && env.now < t.createdAt))
  {
    hide Ready, Fits, Settle, StillWaiting, ExecutePlan, PlanOperation, MoveSupported;
    SettledRowPlace(db, wall, t, env);
    SettleableIsSubmittable(db, t, env);
    PlanFacts(db, t, ref, claimRead);
    SettleUnfolds(wall, t, attempts, ref, claimRead, env);
    var plan := PlanOperation(t, ref, claimRead).value;
    if t.state == PendingReference && plan.pending {
      StillWaitingIsSafe(db, wall, t, attempts, env);
    } else {
      ExecuteIsSafe(db, wall, t, plan, env);
    }
  }

  lemma SettleableIsSubmittable(db: Db, t: WagerTransaction, env: Env)
    requires Settleable(db, t, env)
    ensures Submittable(t) && t.id != 0 && (t.state == Pending || t.state == PendingReference)
    ensures t.id in db.rows <==> t.state == PendingReference
  {
  }

  /** The planned credit does not fit in 64 bits. */
  predicate Overflows(wall: Wallet, t: WagerTransaction, ref: Option<WagerTransaction>, claimRead: bool) {
    var plan := PlanOperation(t, ref, claimRead);
    && plan.Ok? && plan.value.movement.Some? && plan.value.movement.value.direction == Credit
    && wall.balance.minorUnits + t.amount.minorUnits > MAX_INT64
  }

  /** A pass that still has to wait reads a clock earlier than the row's creation. */
  predicate TooEarly(t: WagerTransaction, ref: Option<WagerTransaction>, claimRead: bool, env: Env) {
    var plan := PlanOperation(t, ref, claimRead);
    plan.Ok? && plan.value.pending && t.state == PendingReference && env.now < t.createdAt
  }

  /** The aborts of a decision, both ways: an overflowing credit and a too early reading abort it, and nothing else
      does. */
  lemma SettleAbortsExactlyWhen(db: Db, wall: Wallet, t: WagerTransaction, attempts: nat, ref: Option<WagerTransaction>,
                                claimRead: bool, env: Env)
    requires SettleReady(db, wall, t, ref, claimRead, env)
    ensures var r := Settle(wall, t, attempts, Ok(ref), claimRead, env);
            && (r == Err(Domain(MoneyFailure(Overflow))) <==> Overflows(wall, t, ref, claimRead))
            && (r == Err(Invariant) <==> TooEarly(t, ref, claimRead, env))
            && (r.Err? ==> r.error == Domain(MoneyFailure(Overflow)) || r.error == Invariant)
  {
    hide Ready, Fits, Settle, StillWaiting, ExecutePlan, MoveSupported, Decidable, PlanOperation;
    SettleIsSafe(db, wall, t, attempts, ref, claimRead, env);
    SettledRowPlace(db, wall, t, env);
    SettleableIsSubmittable(db, t, env);
    SettleableIsDecidable(db, wall, t, env);
    PlanFacts(db, t, ref, claimRead);
    SettleUnfolds(wall, t, attempts, ref, claimRead, env);
    var plan := PlanOperation(t, ref, claimRead).value;
    if t.state == PendingReference && plan.pending {
      WaitingAborts(wall, t, attempts, env);
    } else {
      PlannedAborts(db, wall, t, plan, env);
    }
  }

  lemma WaitingAborts(wall: Wallet, t: WagerTransaction, attempts: nat, env: Env)
    requires Decidable(wall, t, env) && t.state == PendingReference
    ensures var r := StillWaiting(wall, t, attempts, env);
            (r.Err? <==> env.now < t.createdAt) && (r.Err? ==> r.error == Invariant)
  {
    hide Reject, RescheduleReference, Quiet;
    WaitingDeadline(wall, t, env);
    RejectIsQuiet(wall, t, 0, ReferenceNotFound, env);
    RescheduleIsQuiet(wall, t, attempts, env);
  }

  lemma WaitingDeadline(wall: Wallet, t: WagerTransaction, env: Env)
    requires Decidable(wall, t, env) && t.state == PendingReference
    ensures t.referenceDeadline > t.createdAt
  {
  }

  lemma PlannedAborts(db: Db, wall: Wallet, t: WagerTransaction, plan: Plan, env: Env)
    requires Ready(db, wall, t, env) && Decidable(wall, t, env) && (t.id in db.rows ==> !plan.pending)
    requires plan.pending ==> NeedsReference(t)
    requires plan.failure != PermanentInfrastructure
    requires (plan.failure == NoFailure && !plan.pending && plan.movement.None? ==> t.kind == Loss)
    requires plan.movement.Some? ==>
               plan.failure == NoFailure && !plan.pending && MoveSupported(db, t, plan, plan.movement.value)
    ensures var r := ExecutePlan(wall, t, plan, env);
            && (r.Err? <==> plan.movement.Some? && plan.movement.value.direction == Credit
                            && wall.balance.minorUnits + t.amount.minorUnits > MAX_INT64)
            && (r.Err? ==> r.error == Domain(MoneyFailure(Overflow)))
  {
    hide Ready, Quiet, Reject, AwaitReference, ProcessWithoutMovement, ApplyMovement, ReversalSupported, PostedEffect;
    SettledRowPlace(db, wall, t, env);
    if plan.pending {
      AwaitIsQuiet(wall, t, env);
    } else if plan.failure != NoFailure {
      RejectIsQuiet(wall, t, plan.referenceId, plan.failure, env);
    } else if plan.movement.None? {
      LossIsQuiet(wall, t, plan, env);
    } else {
      var move := plan.movement.value;
      MovementEnds(wall, t, plan, move, env);
      RejectIsQuiet(wall, t, plan.referenceId, if t.kind != Bet then ReversalInsufficientFunds
                    else InsufficientFunds, env);
    }
  }

  /** An operation settled from reads the wallet lock covers keeps every invariant. */
  lemma SettledEffectPreserves(db: Db, wall: Wallet, t: WagerTransaction, attempts: nat, ref: Option<WagerTransaction>,
                               claimRead: bool, env: Env)
    requires SettleReady(db, wall, t, ref, claimRead, env)
    requires Settle(wall, t, attempts, Ok(ref), claimRead, env).Ok?
    ensures Inv(ApplyEffect(db, Settle(wall, t, attempts, Ok(ref), claimRead, env).value.effect))
  {
    SettleIsSafe(db, wall, t, attempts, ref, claimRead, env);
    EffectPreserves(db, Settle(wall, t, attempts, Ok(ref), claimRead, env).value.effect, env.serial);
  }
}
