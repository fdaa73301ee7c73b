/** The decision of one operation restated as rules over the columns of the operation, its reference and the claims,
    and what each ruling leaves in the tables (internal/application/resolve.go:29-133,
    internal/application/service.go:421-677). */
module Rulings {
  import opened Results
  import opened MoneyValue
  import opened Wager
  import opened Wallets
  import opened AppErrors
  import opened Resolution
  import opened Backoff
  import opened Settlement
  import opened SettlementSafety

  datatype Ruling = Waits | Declines(code: FailureCode) | Idles | Posts(direction: Direction)

  /** The kinds of reference each kind of operation may name. */
  predicate KindFits(kind: Kind, reference: Kind) {
    || (kind == Win && reference == Bet)
    || (kind == Refund && reference == Bet)
    || (kind == Rollback && (reference == Bet || reference == Win || reference == Refund))
  }

  /** Same wallet, player, round and currency. */
  predicate SameAccount(t: WagerTransaction, r: WagerTransaction) {
    && t.walletId == r.walletId && t.playerId == r.playerId && t.roundId == r.roundId
    && t.amount.currency == r.amount.currency
  }

  /** A compensation reverses the whole amount; a WIN may have any. */
  predicate AmountFits(t: WagerTransaction, r: WagerTransaction) {
    t.kind == Win || t.amount == r.amount
  }

  /** The reference may serve the operation, whatever has become of it. */
  predicate Serves(t: WagerTransaction, r: WagerTransaction) {
    KindFits(t.kind, r.kind) && SameAccount(t, r) && AmountFits(t, r)
  }

  /** The rules in their order of precedence. */
  function Rule(t: WagerTransaction, ref: Option<WagerTransaction>, claimed: bool): Ruling {
    if t.referenceExternalId == "" then
      if t.kind == Loss then Idles else Posts(if t.kind == Bet then Debit else Credit)
    else if ref.None? then Waits
    else
      var r := ref.value;
      if !KindFits(t.kind, r.kind) then Declines(if t.kind == Win then InvalidWinReference else ReferenceKindNotAllowed)
      else if !SameAccount(t, r) then Declines(if t.kind == Win then InvalidWinReference else ReferenceMismatch)
      else if !AmountFits(t, r) then Declines(ReversalAmountMismatch)
      else if r.state == Pending || r.state == PendingReference then Waits
      else if r.state != Processed then Declines(ReferenceNotProcessed)
      else if t.kind != Win && claimed then Declines(AlreadyReversed)
      else Posts(if t.kind == Rollback && r.kind != Bet then Debit else Credit)
  }

  // ----- The decision table -----

  /** When an operation waits and when it is refused, code by code, on the columns: of a submittable operation exactly
      one of moving, idling, waiting and being refused is decided. */
  lemma RefusalsExactlyWhen(t: WagerTransaction, ref: Option<WagerTransaction>, claimed: bool)
    requires Submittable(t) && (ref.Some? ==> t.referenceExternalId != "")
    ensures Classify(t, ref, claimed).Ok?
    ensures var plan := Classify(t, ref, claimed).value;
            var named := t.referenceExternalId != "";
            && (plan.pending <==>
                  named && (ref.None? || (Serves(t, ref.value) && ref.value.state in {Pending, PendingReference})))
            && (plan.failure == InvalidWinReference <==>
                  ref.Some? && t.kind == Win && !(ref.value.kind == Bet && SameAccount(t, ref.value)))
            && (plan.failure == ReferenceKindNotAllowed <==>
                  ref.Some? && t.kind != Win && !KindFits(t.kind, ref.value.kind))
            && (plan.failure == ReferenceMismatch <==>
                  ref.Some? && t.kind != Win && KindFits(t.kind, ref.value.kind) && !SameAccount(t, ref.value))
            && (plan.failure == ReversalAmountMismatch <==>
                  ref.Some? && t.kind != Win && KindFits(t.kind, ref.value.kind) && SameAccount(t, ref.value)
                  && t.amount != ref.value.amount)
            && (plan.failure == ReferenceNotProcessed <==>
                  ref.Some? && Serves(t, ref.value) && ref.value.state in {Rejected, Failed})
            && (plan.failure == AlreadyReversed <==>
                  ref.Some? && t.kind != Win && Serves(t, ref.value) && ref.value.state == Processed && claimed)
            && plan.failure in {NoFailure, InvalidWinReference, ReferenceKindNotAllowed, ReferenceMismatch,
                                ReversalAmountMismatch, ReferenceNotProcessed, AlreadyReversed}
            && (plan.movement.None? && !plan.pending && plan.failure == NoFailure <==> t.kind == Loss)
            && (plan.pending ==> plan.movement.None? && plan.failure == NoFailure)
            && (plan.failure != NoFailure ==> plan.movement.None? && plan.referenceId == 0)
  {
    if ref.Some? && SameAccount(t, ref.value) {
      assert Equal(t.amount, ref.value.amount) == Ok(t.amount.minorUnits == ref.value.amount.minorUnits);
    }
  }

  /** What is planned is what the rules say, with the identity of the reference unless the operation waits. */
  lemma PlansByTheRules(t: WagerTransaction, ref: Option<WagerTransaction>, claimed: bool)
    requires Submittable(t) && (ref.Some? ==> t.referenceExternalId != "")
    ensures PlanOperation(t, ref, claimed).Ok?
    ensures var plan, rule := PlanOperation(t, ref, claimed).value, Rule(t, ref, claimed);
            && (plan.pending <==> rule.Waits?)
            && plan.failure == (if rule.Declines? then rule.code else NoFailure)
            && plan.movement == (if rule.Posts? then Some(Movement(rule.direction, t.amount)) else None)
            && (rule.Posts? ==> plan.claim == (t.kind == Refund || t.kind == Rollback))
            && plan.referenceId == (if ref.Some? && !rule.Waits? then ref.value.id else 0)
  {
    if ref.Some? && SameAccount(t, ref.value) {
      assert Equal(t.amount, ref.value.amount) == Ok(t.amount.minorUnits == ref.value.amount.minorUnits);
    }
  }

  // ----- What a ruling leaves -----

  function NameOf(ref: Option<WagerTransaction>): TransactionId {
    if ref.Some? then ref.value.id else 0
  }

  /** The row ends rejected under the code, with the balance the wallet had. */
  predicate EndsRejected(e: Effect, wall: Wallet, t: WagerTransaction, reference: TransactionId, code: FailureCode) {
    && e.transfer == None
    && e.row.txn ==
       t.(state := Rejected, failureCode := code, referenceId := reference, observedBalance := wall.balance)
    && e.row.nextAttemptAt == 0 && e.row.attempts == 0 && e.row.claimedUntil == 0
  }

  /** The row ends processed without a posting, with the balance the wallet has. */
  predicate EndsIdle(e: Effect, wall: Wallet, t: WagerTransaction) {
    && e.transfer == None
    && e.row.txn == t.(state := Processed, observedBalance := wall.balance)
    && e.row.nextAttemptAt == 0 && e.row.attempts == 0 && e.row.claimedUntil == 0
  }

  /** The row starts to wait for a day; its first retry comes after the first delay. */
  predicate StartsToWait(e: Effect, t: WagerTransaction, env: Env) {
    && e.transfer == None
    && e.row.txn ==
       t.(state := PendingReference, referenceDeadline := env.now + 86_400 * SECOND, updatedAt := env.now)
    && e.row.nextAttemptAt == env.now + ReferenceDelay(0, env.hash) && e.row.attempts == 0 && e.row.claimedUntil == 0
  }

  predicate KeepsWaiting(e: Effect, t: WagerTransaction, attempts: nat, env: Env) {
    && e.transfer == None && e.events == []
    && e.row.txn == t.(updatedAt := env.now)
    && e.row.nextAttemptAt == env.now + ReferenceDelay(attempts + 1, env.hash) && e.row.attempts == attempts + 1
    && e.row.claimedUntil == 0
  }

  function Moved(wall: Wallet, t: WagerTransaction, direction: Direction): int {
    if direction == Credit then wall.balance.minorUnits + t.amount.minorUnits
    else wall.balance.minorUnits - t.amount.minorUnits
  }

  /** The row ends processed with the new balance; the wallet, its posting and, for a compensation, the claim are
      saved. */
  predicate EndsPosted(e: Effect, wall: Wallet, t: WagerTransaction, reference: TransactionId, direction: Direction,
                       env: Env)
    requires Representable(Moved(wall, t, direction))
  {
    var after := Money(Moved(wall, t, direction), wall.currency);
    && e.row.txn == t.(state := Processed, referenceId := reference, observedBalance := after)
    && e.row.nextAttemptAt == 0 && e.row.attempts == 0 && e.row.claimedUntil == 0
    && e.transfer.Some?
    && var tr := e.transfer.value;
       && tr.wallet == wall.(balance := after, version := wall.version + 1, updatedAt := env.now)
       && tr.entry.walletId == wall.id && tr.entry.transactionId == t.id && tr.entry.direction == direction
       && tr.entry.amount == t.amount && tr.entry.balanceBefore == wall.balance && tr.entry.balanceAfter == after
       && tr.entry.createdAt == env.now
       && (tr.claim.Some? <==> t.kind == Refund || t.kind == Rollback)
       && (tr.claim.Some? ==>
             tr.claim.value.reference == reference && tr.claim.value.reversal == t.id
             && tr.claim.value.createdAt == env.now)
  }

  /** Every event carries the instant and the correlation of its operation. */
  predicate Stamped(e: Effect, env: Env) {
    forall i | 0 <= i < |e.events| :: e.events[i].occurredAt == env.now && e.events[i].correlationId == env.correlation
  }

  /** What is read of the reference is a stored row or the operation itself. */
  predicate ReadSensibly(t: WagerTransaction, ref: Option<WagerTransaction>) {
    ref.Some? ==> t.referenceExternalId != "" && ref.value.id != 0 && (ref.value.id == t.id ==> ref.value == t)
  }

  predicate InOrder(wall: Wallet, t: WagerTransaction, ref: Option<WagerTransaction>, env: Env) {
    && Decidable(wall, t, env) && ReadSensibly(t, ref)
    && (t.state == Pending ==> t.createdAt == t.updatedAt == env.now)
  }

  lemma RejectionEnds(wall: Wallet, t: WagerTransaction, reference: TransactionId, code: FailureCode, env: Env)
    requires Decidable(wall, t, env) && code != NoFailure && code != PermanentInfrastructure
    ensures var r := Reject(wall, t, reference, code, env);
            && r.Ok? && EndsRejected(r.value.effect, wall, t, reference, code) && Stamped(r.value.effect, env)
            && Tells(r.value.result, r.value.effect.row.txn) && !r.value.result.replay
  {
  }

  lemma IdlenessEnds(wall: Wallet, t: WagerTransaction, plan: Plan, env: Env)
    requires Decidable(wall, t, env) && t.kind == Loss && plan.referenceId == 0
    ensures var r := ProcessWithoutMovement(wall, t, plan, env);
            && r.Ok? && EndsIdle(r.value.effect, wall, t) && Stamped(r.value.effect, env)
            && Tells(r.value.result, r.value.effect.row.txn) && !r.value.result.replay
  {
  }

  lemma WaitStarts(wall: Wallet, t: WagerTransaction, env: Env)
    requires Decidable(wall, t, env) && t.state == Pending
    ensures var r := AwaitReference(t, env);
            && r.Ok? && StartsToWait(r.value.effect, t, env) && Stamped(r.value.effect, env)
            && Tells(r.value.result, r.value.effect.row.txn) && !r.value.result.replay
  {
  }

  lemma WaitGoesOn(wall: Wallet, t: WagerTransaction, attempts: nat, env: Env)
    requires Decidable(wall, t, env) && t.state == PendingReference && t.createdAt <= env.now
    ensures var r := RescheduleReference(t, attempts, env);
            && r.Ok? && KeepsWaiting(r.value.effect, t, attempts, env)
            && Tells(r.value.result, r.value.effect.row.txn) && !r.value.result.replay
  {
  }

  lemma PostingEnds(wall: Wallet, t: WagerTransaction, plan: Plan, move: Movement, env: Env)
    requires Decidable(wall, t, env) && MovingPlan(t, plan, move) && 0 <= Moved(wall, t, move.direction) <= MAX_INT64
    ensures var r := ApplyMovement(wall, t, plan, move, env);
            && r.Ok? && EndsPosted(r.value.effect, wall, t, plan.referenceId, move.direction, env)
            && Stamped(r.value.effect, env)
            && Tells(r.value.result, r.value.effect.row.txn) && !r.value.result.replay
  {
    MovementEnds(wall, t, plan, move, env);
    PostedAnswer(wall, t, plan, move, env);
    assert BalanceAfter(wall, move) == Moved(wall, t, move.direction);
    hide ApplyMovement;
  }

  lemma PostedAnswer(wall: Wallet, t: WagerTransaction, plan: Plan, move: Movement, env: Env)
    requires ApplyMovement(wall, t, plan, move, env).Ok?
    ensures var s := ApplyMovement(wall, t, plan, move, env).value;
            Tells(s.result, s.effect.row.txn) && !s.result.replay
  {
    hide MarkProcessed, MarkRejected, NewLedgerEntry, CreditWallet, DebitWallet, ClaimFor, ProcessedEvent, BalanceEvent,
         RejectedEvent;
  }

  /** What a decision leaves behind, column by column; in particular a rejection and a LOSS record the wallet's balance
      at the decision. It aborts on a credit beyond 64 bits, and on a pass that still waits under too early a clock. */
  predicate ByTheRules(r: Result<Settled, AppError>, wall: Wallet, t: WagerTransaction, attempts: nat,
                       ref: Option<WagerTransaction>, claimed: bool, env: Env)
  {
    && (r.Ok? ==>
          Tells(r.value.result, r.value.effect.row.txn) && !r.value.result.replay && Stamped(r.value.effect, env))
    && match Rule(t, ref, claimed)
       case Waits =>
         if t.state == Pending then r.Ok? && StartsToWait(r.value.effect, t, env)
         else if env.now >= t.referenceDeadline then
           r.Ok? && EndsRejected(r.value.effect, wall, t, 0, ReferenceNotFound)
         else if env.now < t.createdAt then r == Err(Invariant)
         else r.Ok? && KeepsWaiting(r.value.effect, t, attempts, env)
       case Declines(code) => r.Ok? && EndsRejected(r.value.effect, wall, t, NameOf(ref), code)
       case Idles => r.Ok? && EndsIdle(r.value.effect, wall, t)
       case Posts(direction) =>
         if Moved(wall, t, direction) < 0 then
           r.Ok? && EndsRejected(r.value.effect, wall, t, NameOf(ref),
                                 if t.kind == Bet then InsufficientFunds else ReversalInsufficientFunds)
         else if Moved(wall, t, direction) > MAX_INT64 then r == Err(Domain(MoneyFailure(Overflow)))
         else r.Ok? && EndsPosted(r.value.effect, wall, t, NameOf(ref), direction, env)
  }

  /** What is decided from sensible reads is what the rules say. */
  lemma SettlesByTheRules(wall: Wallet, t: WagerTransaction, attempts: nat, ref: Option<WagerTransaction>,
                          claimed: bool, env: Env)
    requires InOrder(wall, t, ref, env)
    ensures ByTheRules(Settle(wall, t, attempts, Ok(ref), claimed, env), wall, t, attempts, ref, claimed, env)
  {
    hide Decidable, Rule, Reject, AwaitReference, ProcessWithoutMovement, ApplyMovement, RescheduleReference,
         PlanOperation, EndsRejected, EndsIdle, StartsToWait, KeepsWaiting, EndsPosted, Stamped, Tells, Settle,
         MovingPlan;
    OrderParts(wall, t, env);
    PlansByTheRules(t, ref, claimed);
    SettleUnfolds(wall, t, attempts, ref, claimed, env);
    var plan, rule := PlanOperation(t, ref, claimed).value, Rule(t, ref, claimed);
    match rule
    case Waits =>
      if t.state == Pending {
        WaitStarts(wall, t, env);
      } else if env.now >= t.referenceDeadline {
        RejectionEnds(wall, t, 0, ReferenceNotFound, env);
      } else {
        RescheduleIsQuiet(wall, t, attempts, env);
        if t.createdAt <= env.now {
          WaitGoesOn(wall, t, attempts, env);
        }
        NoEventsAreStamped(wall, t, attempts, env);
      }
    case Declines(code) =>
      RefusalCodes(t, ref, claimed);
      RejectionEnds(wall, t, plan.referenceId, code, env);
    case Idles =>
      IdleIsLoss(t, ref, claimed);
      IdlenessEnds(wall, t, plan, env);
    case Posts(direction) =>
      var move := plan.movement.value;
      PostsAreSupported(t, ref, claimed);
      MovementEnds(wall, t, plan, move, env);
      assert BalanceAfter(wall, move) == Moved(wall, t, direction);
      if Moved(wall, t, direction) < 0 {
        RejectionEnds(wall, t, plan.referenceId, if t.kind != Bet then ReversalInsufficientFunds else InsufficientFunds,
                      env);
      } else if Moved(wall, t, direction) <= MAX_INT64 {
        PostingEnds(wall, t, plan, move, env);
      }
  }

  lemma OrderParts(wall: Wallet, t: WagerTransaction, env: Env)
    requires Decidable(wall, t, env)
    ensures Submittable(t) && (t.state == Pending || t.state == PendingReference) && t.id != 0
    ensures t.state == PendingReference ==> t.referenceDeadline > t.createdAt
    ensures wall.balance.minorUnits >= 0
  {
  }

  lemma NoEventsAreStamped(wall: Wallet, t: WagerTransaction, attempts: nat, env: Env)
    ensures var r := RescheduleReference(t, attempts, env); r.Ok? ==> Stamped(r.value.effect, env)
  {
  }

  lemma RefusalCodes(t: WagerTransaction, ref: Option<WagerTransaction>, claimed: bool)
    requires Rule(t, ref, claimed).Declines?
    ensures var code := Rule(t, ref, claimed).code; code != NoFailure && code != PermanentInfrastructure
  {
  }

  lemma IdleIsLoss(t: WagerTransaction, ref: Option<WagerTransaction>, claimed: bool)
    requires Rule(t, ref, claimed).Idles? && (ref.Some? ==> t.referenceExternalId != "")
    ensures t.kind == Loss && ref.None?
  {
  }

  /** A posting is of the operation's own positive amount, and its reference is another row. */
  lemma PostsAreSupported(t: WagerTransaction, ref: Option<WagerTransaction>, claimed: bool)
    requires Submittable(t) && ReadSensibly(t, ref) && (t.state == Pending || t.state == PendingReference) && t.id != 0
    requires Rule(t, ref, claimed).Posts?
    ensures var plan := PlanOperation(t, ref, claimed).value;
            PlanOperation(t, ref, claimed).Ok? && plan.movement.Some? && MovingPlan(t, plan, plan.movement.value)
  {
    hide PlanOperation;
    PlansByTheRules(t, ref, claimed);
  }
}
