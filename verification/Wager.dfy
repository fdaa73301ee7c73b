/** The operation record and its life cycle (internal/domain/financial/wager.go, errors.go, identifiers.go). */
module Wager {
  import opened Results
  import opened MoneyValue

  /** Instants in nanoseconds; 0 is Go's zero time and SQL NULL. */
  type Time = nat

  /** Internal identities; 0 is uuid.Nil. */
  type TransactionId = nat
  type EntryId = nat
  type ClaimId = nat
  type EventId = nat

  /** Identities that take part in the canonical projection keep their text; "" is unset. */
  type WalletId = string
  type PlayerId = string
  type ProviderId = string
  type ExternalId = string
  type IdempotencyKey = string

  datatype Origin = Internal | External

  datatype DigestVersion = NoVersion | Sha256JcsV1

  datatype Kind = Opening | Bet | Win | Loss | Refund | Rollback | Undocumented(text: string) {
    predicate Valid() { !Undocumented? }
    predicate IsExternal() { Bet? || Win? || Loss? || Refund? || Rollback? }
  }

  datatype State = Pending | PendingReference | Processed | Rejected | Failed {
    predicate IsTerminal() { Processed? || Rejected? || Failed? }
  }

  datatype FailureCode =
    | NoFailure
    | InsufficientFunds
    | ReversalInsufficientFunds
    | ReferenceNotFound
    | ReferenceNotProcessed
    | ReferenceMismatch
    | ReversalAmountMismatch
    | ReferenceKindNotAllowed
    | InvalidWinReference
    | AlreadyReversed
    | PermanentInfrastructure

  datatype DomainError =
    | BadInput
    | InvalidTransition(from: State, to: State)
    | InsufficientBalance
    | NotInitialized
    | MoneyFailure(cause: MoneyError)

  /** The nine business fields of a command that take part in the idempotency digest. */
  datatype ProjectionInput = ProjectionInput(
    providerId: ProviderId,
    externalId: ExternalId,
    playerId: PlayerId,
    walletId: WalletId,
    roundId: ExternalId,
    gameId: ExternalId,
    kind: Kind,
    amount: Money,
    referenceExternalId: ExternalId)

  /** A digest is represented by the projection it determines: canonical texts of parsed projections are equal exactly
      when the projections are (module Projection), and SHA-256 is taken to be collision free. None is the empty
      digest. */
  type Digest = Option<ProjectionInput>

  datatype WagerTransaction = WagerTransaction(
    id: TransactionId,
    origin: Origin,
    kind: Kind,
    providerId: ProviderId,
    externalId: ExternalId,
    idempotencyKey: IdempotencyKey,
    digestVersion: DigestVersion,
    digest: Digest,
    walletId: WalletId,
    playerId: PlayerId,
    roundId: ExternalId,
    gameId: ExternalId,
    amount: Money,
    referenceExternalId: ExternalId,
    referenceId: TransactionId,
    state: State,
    failureCode: FailureCode,
    observedBalance: Money,
    referenceDeadline: Time,
    createdAt: Time,
    updatedAt: Time)

  datatype ExternalParams = ExternalParams(
    id: TransactionId,
    providerId: ProviderId,
    externalId: ExternalId,
    idempotencyKey: IdempotencyKey,
    digestVersion: DigestVersion,
    digest: Digest,
    walletId: WalletId,
    playerId: PlayerId,
    roundId: ExternalId,
    gameId: ExternalId,
    kind: Kind,
    amount: Money,
    referenceExternalId: ExternalId,
    now: Time)

  function NewExternalTransaction(p: ExternalParams): Result<WagerTransaction, DomainError> {
    if p.id == 0 || p.walletId == "" || p.playerId == "" then Err(BadInput)
    else if p.providerId == "" || p.externalId == "" || p.roundId == "" || p.gameId == "" then Err(BadInput)
    else if p.idempotencyKey == "" || p.digestVersion == NoVersion || p.digest == None then Err(BadInput)
    else if !p.kind.Valid() || !p.kind.IsExternal() then Err(BadInput)
    else if !p.amount.IsInitialized() then Err(NotInitialized)
    else if p.now == 0 then Err(BadInput)
    else if p.kind == Loss && !p.amount.IsZero() then Err(BadInput)
    else if p.kind != Loss && !p.amount.IsPositive() then Err(BadInput)
    else if p.kind == Bet && p.referenceExternalId != "" then Err(BadInput)
    else if (p.kind == Refund || p.kind == Rollback) && p.referenceExternalId == "" then Err(BadInput)
    else Ok(WagerTransaction(
              p.id, External, p.kind, p.providerId, p.externalId, p.idempotencyKey, p.digestVersion, p.digest,
              p.walletId, p.playerId, p.roundId, p.gameId, p.amount, p.referenceExternalId, 0,
              Pending, NoFailure, NO_MONEY, 0, p.now, p.now))
  }

  function NewInternalOpening(id: TransactionId, walletId: WalletId, playerId: PlayerId, amount: Money, now: Time)
    : Result<WagerTransaction, DomainError>
  {
    if id == 0 || walletId == "" || playerId == "" then Err(BadInput)
    else if !amount.IsInitialized() || !amount.IsPositive() then Err(BadInput)
    else if now == 0 then Err(BadInput)
    else Ok(WagerTransaction(
              id, Internal, Opening, "", "", "", NoVersion, None, walletId, playerId, "", "", amount, "", 0,
              Pending, NoFailure, NO_MONEY, 0, now, now))
  }

  /** The checks that decide whether a persisted row can be rebuilt; a row that passes is returned unchanged. */
  function RehydrateTransaction(p: WagerTransaction): Result<WagerTransaction, DomainError> {
    if p.id == 0 || p.walletId == "" || p.playerId == "" then Err(BadInput)
    else if !p.kind.Valid() then Err(BadInput)
    else if !p.amount.IsInitialized() then Err(NotInitialized)
    else if p.createdAt == 0 || p.updatedAt == 0 then Err(BadInput)
    else if p.updatedAt < p.createdAt then Err(BadInput)
    else if p.origin == External
            && (p.providerId == "" || p.externalId == "" || p.idempotencyKey == "" || p.digestVersion == NoVersion
                || p.digest == None)
    then Err(BadInput)
    else if p.origin == External && !p.kind.IsExternal() then Err(BadInput)
    else if p.origin == External && (p.roundId == "" || p.gameId == "") then Err(BadInput)
    else if p.origin == Internal && p.kind != Opening then Err(BadInput)
    else if p.origin == Internal
            && (p.providerId != "" || p.externalId != "" || p.idempotencyKey != "" || p.digestVersion != NoVersion
                || p.digest != None
                || p.roundId != "" || p.gameId != "" || p.referenceExternalId != "")
    then Err(BadInput)
    else Ok(p)
  }

  predicate IsUsable(t: WagerTransaction) {
    t.id != 0 && t.kind.Valid() && t.amount.IsInitialized()
  }

  function MarkPendingReference(t: WagerTransaction, deadline: Time, now: Time): Result<WagerTransaction, DomainError> {
    if !IsUsable(t) then Err(NotInitialized)
    else if t.state != Pending then Err(InvalidTransition(t.state, PendingReference))
    else if deadline == 0 || now == 0 then Err(BadInput)
    else if deadline <= now then Err(BadInput)
    else Ok(t.(state := PendingReference, referenceDeadline := deadline, updatedAt := now))
  }

  /** The guard of the terminal transitions. It works on a copy, so it leaves updatedAt as it was. */
  function CheckTransition(t: WagerTransaction, next: State, now: Time): Result<(), DomainError> {
    if !IsUsable(t) then Err(NotInitialized)
    else if now == 0 then Err(BadInput)
    else if t.state != Pending && t.state != PendingReference then Err(InvalidTransition(t.state, next))
    else Ok(())
  }

  function CheckObservation(observed: Money): Result<(), DomainError> {
    if !observed.IsInitialized() then Err(NotInitialized)
    else if observed.IsNegative() then Err(BadInput)
    else Ok(())
  }

  function MarkProcessed(t: WagerTransaction, reference: TransactionId, observed: Money, now: Time)
    : Result<WagerTransaction, DomainError>
  {
    var _ :- CheckTransition(t, Processed, now);
    var _ :- CheckObservation(observed);
    Ok(t.(state := Processed, referenceId := reference, observedBalance := observed))
  }

  function MarkRejected(t: WagerTransaction, reference: TransactionId, code: FailureCode, observed: Money, now: Time)
    : Result<WagerTransaction, DomainError>
  {
    var _ :- CheckTransition(t, Rejected, now);
    if code == NoFailure || code == PermanentInfrastructure then Err(BadInput)
    else
      var _ :- CheckObservation(observed);
      Ok(t.(state := Rejected, referenceId := reference, failureCode := code, observedBalance := observed))
  }

  function MarkFailed(t: WagerTransaction, observed: Money, now: Time): Result<WagerTransaction, DomainError> {
    var _ :- CheckTransition(t, Failed, now);
    if !observed.IsInitialized() then Err(NotInitialized)
    else Ok(t.(state := Failed, failureCode := PermanentInfrastructure, observedBalance := observed))
  }

  /** Equal in every column an UPDATE leaves alone. */
  predicate SameCommand(a: WagerTransaction, b: WagerTransaction) {
    a == b.(state := a.state, failureCode := a.failureCode, observedBalance := a.observedBalance,
            referenceId := a.referenceId, referenceDeadline := a.referenceDeadline, updatedAt := a.updatedAt)
  }

  /** What the constructor accepts can be stored and rebuilt. */
  lemma CreatedRowsRehydrate(p: ExternalParams)
    requires NewExternalTransaction(p).Ok?
    ensures RehydrateTransaction(NewExternalTransaction(p).value) == NewExternalTransaction(p)
  {
  }

  // ----- Histories -----

  /** One transition with everything it is given. */
  datatype Transition =
    | ToWaiting(deadline: Time, now: Time)
    | ToProcessed(reference: TransactionId, observed: Money, now: Time)
    | ToRejected(reference: TransactionId, code: FailureCode, observed: Money, now: Time)
    | ToFailed(observed: Money, now: Time)

  function Take(t: WagerTransaction, x: Transition): Result<WagerTransaction, DomainError> {
    match x
    case ToWaiting(deadline, now) => MarkPendingReference(t, deadline, now)
    case ToProcessed(reference, observed, now) => MarkProcessed(t, reference, observed, now)
    case ToRejected(reference, code, observed, now) => MarkRejected(t, reference, code, observed, now)
    case ToFailed(observed, now) => MarkFailed(t, observed, now)
  }

  function TakeAll(t: WagerTransaction, xs: seq<Transition>): Result<WagerTransaction, DomainError>
    decreases xs
  {
    if xs == [] then Ok(t)
    else
      var next :- Take(t, xs[0]);
      TakeAll(next, xs[1..])
  }

  function Target(x: Transition): State {
    match x
    case ToWaiting(_, _) => PendingReference
    case ToProcessed(_, _, _) => Processed
    case ToRejected(_, _, _, _) => Rejected
    case ToFailed(_, _) => Failed
  }

  /** The columns an end fills in; a failure names no reference. */
  function Observed(t: WagerTransaction, x: Transition): Money {
    if x.ToWaiting? then t.observedBalance else x.observed
  }

  function Referenced(t: WagerTransaction, x: Transition): TransactionId {
    if x.ToProcessed? || x.ToRejected? then x.reference else t.referenceId
  }

  lemma TakeFacts(t: WagerTransaction, x: Transition)
    requires Take(t, x).Ok?
    ensures var e := Take(t, x).value;
            && SameCommand(t, e) && e.state == Target(x) && IsUsable(e)
            && (x.ToWaiting? ==>
                  t.state == Pending && e.updatedAt == x.now && e.referenceDeadline == x.deadline > x.now)
            && (!x.ToWaiting? ==>
                  !t.state.IsTerminal() && e.updatedAt == t.updatedAt && e.referenceDeadline == t.referenceDeadline)
            && (e.failureCode == if x.ToRejected? then x.code else if x.ToFailed? then PermanentInfrastructure
                else t.failureCode)
            && (x.ToRejected? ==> x.code != NoFailure && x.code != PermanentInfrastructure)
            && e.observedBalance == Observed(t, x) && e.referenceId == Referenced(t, x)
  {
  }

  lemma TerminalIsFinal(t: WagerTransaction, x: Transition)
    requires t.state.IsTerminal()
    ensures Take(t, x).Err?
  {
  }

  /** Every history of a new record, whatever transitions are tried in whatever order: it is at most one wait followed
      by at most one end; nothing follows an end; the command never changes; a failure code is there exactly after a
      rejection or failure; balance and reference are those of the end; and the update instant is that of the wait or of
      the creation, never that of the end. */
  lemma {:induction false} HistoriesAreShort(t: WagerTransaction, xs: seq<Transition>)
    requires t.state == Pending && t.failureCode == NoFailure && TakeAll(t, xs).Ok?
    ensures var e := TakeAll(t, xs).value;
            && |xs| <= 2 && SameCommand(t, e)
            && e.state == (if xs == [] then Pending else Target(xs[|xs| - 1]))
            && (|xs| == 2 ==> xs[0].ToWaiting? && !xs[1].ToWaiting?)
            && (e.failureCode != NoFailure <==> e.state == Rejected || e.state == Failed)
            && (e.failureCode == PermanentInfrastructure <==> e.state == Failed)
            && (xs != [] ==>
                  e.observedBalance == Observed(t, xs[|xs| - 1]) && e.referenceId == Referenced(t, xs[|xs| - 1]))
            && (xs != [] && xs[0].ToWaiting? ==> e.referenceDeadline == xs[0].deadline)
            && e.updatedAt == (if xs != [] && xs[0].ToWaiting? then xs[0].now else t.updatedAt)
            && (e.state.IsTerminal() ==> forall x :: Take(e, x).Err?)
  {
    hide Take, SameCommand;
    if xs != [] {
      TakeFacts(t, xs[0]);
      var one := Take(t, xs[0]).value;
      CommandsChain(t, t, one);
      if |xs| == 1 {
        assert xs[1..] == [];
        EndsStay(one);
      } else {
        TakeFacts(one, xs[1]);
        var two := Take(one, xs[1]).value;
        CommandsChain(t, one, two);
        assert xs[1..][0] == xs[1] && xs[1..][1..] == xs[2..];
        assert TakeAll(one, xs[1..]) == TakeAll(two, xs[2..]);
        EndsStay(two);
        AcceptsNoMore(two, xs[2..]);
      }
    } else {
      CommandsChain(t, t, t);
    }
  }

  lemma EndsStay(t: WagerTransaction)
    ensures t.state.IsTerminal() ==> forall x :: Take(t, x).Err?
  {
    if t.state.IsTerminal() {
      forall x ensures Take(t, x).Err? {
        TerminalIsFinal(t, x);
      }
    }
  }

  lemma CommandsChain(a: WagerTransaction, b: WagerTransaction, c: WagerTransaction)
    ensures SameCommand(a, a) && (SameCommand(a, b) && SameCommand(b, c) ==> SameCommand(a, c))
  {
  }

  /** A transition's arguments: a deadline after its instant, a usable observation, a code of the rejections. */
  predicate Grounded(x: Transition) {
    match x
    case ToWaiting(deadline, now) => 0 < now < deadline
    case ToProcessed(_, observed, now) => now != 0 && observed.IsInitialized() && !observed.IsNegative()
    case ToRejected(_, code, observed, now) =>
      now != 0 && code != NoFailure && code != PermanentInfrastructure && observed.IsInitialized()
        && !observed.IsNegative()
    case ToFailed(observed, now) => now != 0 && observed.IsInitialized()
  }

  /** A transition is taken exactly from the states that allow it and with good arguments. */
  lemma TakenExactlyWhen(t: WagerTransaction, x: Transition)
    requires IsUsable(t)
    ensures Take(t, x).Ok? <==>
            Grounded(x)
              && (if x.ToWaiting? then t.state == Pending else t.state == Pending || t.state == PendingReference)
  {
  }

  /** The histories a new record accepts are exactly these: none, a wait, an end, or a wait and then an end. */
  predicate IsHistory(xs: seq<Transition>) {
    && |xs| <= 2 && (forall i | 0 <= i < |xs| :: Grounded(xs[i]))
    && (|xs| == 2 ==> xs[0].ToWaiting? && !xs[1].ToWaiting?)
  }

  lemma EveryHistoryIsOpen(t: WagerTransaction, xs: seq<Transition>)
    requires IsUsable(t) && t.state == Pending
    ensures TakeAll(t, xs).Ok? <==> IsHistory(xs)
  {
    hide Take, SameCommand, Grounded;
    if xs != [] {
      TakenExactlyWhen(t, xs[0]);
      if Take(t, xs[0]).Ok? {
        TakeFacts(t, xs[0]);
        var one, rest := Take(t, xs[0]).value, xs[1..];
        if rest != [] {
          TakenExactlyWhen(one, rest[0]);
          if Take(one, rest[0]).Ok? {
            TakeFacts(one, rest[0]);
            AcceptsNoMore(Take(one, rest[0]).value, rest[1..]);
            assert TakeAll(one, rest) == TakeAll(Take(one, rest[0]).value, rest[1..]);
          }
        }
      }
    }
  }

  lemma AcceptsNoMore(t: WagerTransaction, xs: seq<Transition>)
    requires t.state.IsTerminal()
    ensures TakeAll(t, xs).Ok? <==> xs == []
  {
    if xs != [] {
      TerminalIsFinal(t, xs[0]);
    }
  }
}
