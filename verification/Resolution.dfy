/** The decision table of one operation against its optional reference (internal/application/resolve.go). */
module Resolution {
  import opened Results
  import opened MoneyValue
  import opened Wager
  import opened Wallets
  import opened AppErrors

  datatype Movement = Movement(direction: Direction, amount: Money)

  datatype Plan = Plan(movement: Option<Movement>, claim: bool, referenceId: TransactionId, failure: FailureCode,
                       pending: bool)

  const PENDING := Plan(None, false, 0, NoFailure, true)
  const NOTHING := Plan(None, false, 0, NoFailure, false)

  function Refuse(code: FailureCode): Plan {
    Plan(None, false, 0, code, false)
  }

  predicate NeedsReference(txn: WagerTransaction) {
    txn.referenceExternalId != ""
  }

  predicate IsClaimingKind(kind: Kind) {
    kind == Refund || kind == Rollback
  }

  predicate IdentityMatches(txn: WagerTransaction, ref: WagerTransaction) {
    && txn.walletId == ref.walletId && txn.playerId == ref.playerId && txn.roundId == ref.roundId
    && txn.amount.currency == ref.amount.currency
  }

  function Classify(txn: WagerTransaction, ref: Option<WagerTransaction>, claimExists: bool): Result<Plan, AppError> {
    if ref.None? && NeedsReference(txn) then Ok(PENDING)
    else match txn.kind
      case Loss => Ok(NOTHING)
      case Bet => Ok(Plan(Some(Movement(Debit, txn.amount)), false, 0, NoFailure, false))
      case Win =>
        if ref.None? then Ok(Plan(Some(Movement(Credit, txn.amount)), false, 0, NoFailure, false))
        else if ref.value.kind != Bet then Ok(Refuse(InvalidWinReference))
        else if !IdentityMatches(txn, ref.value) then Ok(Refuse(InvalidWinReference))
        else (match ref.value.state
              case Pending => Ok(PENDING)
              case PendingReference => Ok(PENDING)
              case Rejected => Ok(Refuse(ReferenceNotProcessed))
              case Failed => Ok(Refuse(ReferenceNotProcessed))
              case Processed => Ok(Plan(Some(Movement(Credit, txn.amount)), false, ref.value.id, NoFailure, false)))
      case Refund => ClassifyReversal(txn, ref, claimExists)
      case Rollback => ClassifyReversal(txn, ref, claimExists)
      case Opening => Err(Invariant)
      case Undocumented(_) => Err(Invariant)
  }

  /** The kinds a compensation of each kind may reverse. */
  predicate MayReverse(kind: Kind, reference: Kind) {
    match kind
    case Refund => reference == Bet
    case Rollback => reference == Bet || reference == Win || reference == Refund
    case _ => false
  }

  function ReversalDirection(kind: Kind, reference: Kind): Direction {
    if kind == Rollback && reference != Bet then Debit else Credit
  }

  function ClassifyReversal(txn: WagerTransaction, ref: Option<WagerTransaction>,
                            claimExists: bool): Result<Plan, AppError> {
    if ref.None? then Ok(PENDING)
    else if !MayReverse(txn.kind, ref.value.kind) then Ok(Refuse(ReferenceKindNotAllowed))
    else if !IdentityMatches(txn, ref.value) then Ok(Refuse(ReferenceMismatch))
    else
      match Equal(txn.amount, ref.value.amount)
      case Err(_) => Err(Invariant)
      case Ok(equal) =>
        if !equal then Ok(Refuse(ReversalAmountMismatch))
        else match ref.value.state
          case Pending => Ok(PENDING)
          case PendingReference => Ok(PENDING)
          case Rejected => Ok(Refuse(ReferenceNotProcessed))
          case Failed => Ok(Refuse(ReferenceNotProcessed))
          case Processed =>
            if claimExists then Ok(Refuse(AlreadyReversed))
            else Ok(Plan(Some(Movement(ReversalDirection(txn.kind, ref.value.kind), ref.value.amount)), true,
                         ref.value.id, NoFailure, false))
  }

  /** A transaction as a submission accepts it, seen from the decision. */
  predicate Submittable(txn: WagerTransaction) {
    && txn.kind.IsExternal() && txn.amount.IsInitialized()
    && (txn.kind == Loss <==> txn.amount.minorUnits <= 0)
    && (txn.kind == Loss ==> txn.amount.minorUnits == 0)
    && (txn.kind == Bet || txn.kind == Loss ==> !NeedsReference(txn))
    && (IsClaimingKind(txn.kind) ==> NeedsReference(txn))
  }

  /** A reference was found and it allows the operation to take effect. */
  predicate Supports(txn: WagerTransaction, ref: WagerTransaction, claimExists: bool) {
    && IdentityMatches(txn, ref) && ref.state == Processed
    && match txn.kind
       case Win => ref.kind == Bet
       case Refund => ref.kind == Bet && ref.amount == txn.amount && !claimExists
       case Rollback => (ref.kind == Bet || ref.kind == Win || ref.kind == Refund) && ref.amount == txn.amount
            && !claimExists
       case _ => false
  }

  /** Money moves exactly for a bet, a win without a reference, and an operation whose found reference supports it;
      the moved amount is always the operation's own, and only compensations claim. */
  lemma MoneyMovesExactlyWhen(txn: WagerTransaction, ref: Option<WagerTransaction>, claimExists: bool)
    requires Submittable(txn) && (ref.Some? ==> NeedsReference(txn))
    ensures var plan := Classify(txn, ref, claimExists);
            && plan.Ok?
            && (plan.value.movement.Some? <==>
                txn.kind == Bet || (txn.kind == Win && !NeedsReference(txn))
                || (ref.Some? && Supports(txn, ref.value, claimExists)))
            && (plan.value.movement.Some? ==>
                && plan.value.movement.value.amount == txn.amount
                && plan.value.failure == NoFailure && !plan.value.pending
                && plan.value.claim == IsClaimingKind(txn.kind)
                && plan.value.referenceId == (if ref.Some? then ref.value.id else 0)
                && plan.value.movement.value.direction ==
                   (if txn.kind == Bet then Debit
                    else if txn.kind == Win then Credit
                    else ReversalDirection(txn.kind, ref.value.kind)))
  {
    if ref.Some? && IsClaimingKind(txn.kind) && IdentityMatches(txn, ref.value) {
      assert Equal(txn.amount, ref.value.amount) == Ok(txn.amount.minorUnits == ref.value.amount.minorUnits);
    }
  }

  /** Equal in everything the decision reads except the state. */
  predicate SameIdentity(a: WagerTransaction, b: WagerTransaction) {
    && a.id == b.id && a.kind == b.kind && a.walletId == b.walletId && a.playerId == b.playerId
    && a.roundId == b.roundId && a.amount == b.amount
  }

  /** A reference on another wallet fixes the answer: neither its state nor its claim can change it,
      and it never moves money and never waits. */
  lemma ForeignReferenceIsDecided(txn: WagerTransaction, a: WagerTransaction, b: WagerTransaction, claimA: bool,
                                  claimB: bool)
    requires Submittable(txn) && NeedsReference(txn)
    requires SameIdentity(a, b) && a.walletId != txn.walletId
    ensures Classify(txn, Some(a), claimA) == Classify(txn, Some(b), claimB)
    ensures var plan := Classify(txn, Some(a), claimA);
            plan.Ok? && plan.value.movement.None? && !plan.value.pending && plan.value.failure != NoFailure
  {
  }

  /** What a waiting reference blocks, a rejected one refuses; every other answer ignores which of the two it is. */
  lemma WaitingAgainstRejected(txn: WagerTransaction, waiting: WagerTransaction, rejected: WagerTransaction,
                               claimA: bool, claimB: bool)
    requires Submittable(txn) && NeedsReference(txn)
    requires SameIdentity(waiting, rejected) && waiting.state == PendingReference && rejected.state == Rejected
    ensures var a, b := Classify(txn, Some(waiting), claimA), Classify(txn, Some(rejected), claimB);
            && a.Ok? && b.Ok? && a.value.movement.None? && b.value.movement.None?
            && b.value.failure != NoFailure && !b.value.pending
            && (a == b || (a.value == PENDING && b.value == Refuse(ReferenceNotProcessed)))
  {
    if IdentityMatches(txn, waiting) && IsClaimingKind(txn.kind) {
      assert Equal(txn.amount, waiting.amount) == Equal(txn.amount, rejected.amount);
    }
  }
}
