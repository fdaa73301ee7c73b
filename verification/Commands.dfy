/** The transport-neutral commands and their contract checks (internal/application/commands.go). */
module Commands {
  import opened Results
  import opened MoneyValue
  import opened Wager
  import opened AppErrors

  datatype OpenWalletCommand = OpenWalletCommand(playerId: PlayerId, initialBalance: Money)

  datatype SubmitWagerCommand = SubmitWagerCommand(
    providerId: ProviderId,
    externalId: ExternalId,
    idempotencyKey: IdempotencyKey,
    walletId: WalletId,
    playerId: PlayerId,
    roundId: ExternalId,
    gameId: ExternalId,
    kind: Kind,
    amount: Money,
    referenceExternalId: ExternalId)

  /** A queue message body. It stands for its own SHA-256 (the hash is taken to be collision free)
      and carries the command its envelope decodes to. */
  datatype Body = Body(raw: string, command: SubmitWagerCommand)

  datatype InboxDelivery = InboxDelivery(consumerName: string, messageId: string, digest: Body, receivedAt: Time)

  /** The business projection of a command: transport metadata and the idempotency key are absent. */
  function ProjectionOf(c: SubmitWagerCommand): ProjectionInput {
    ProjectionInput(c.providerId, c.externalId, c.playerId, c.walletId, c.roundId, c.gameId, c.kind, c.amount,
                    c.referenceExternalId)
  }

  function DigestOf(c: SubmitWagerCommand): Digest {
    Some(ProjectionOf(c))
  }

  function ValidateOpen(c: OpenWalletCommand): Result<(), AppError> {
    if c.playerId == "" then Err(Contract(InvalidRequest))
    else if !c.initialBalance.IsInitialized() then Err(Contract(InvalidMoney))
    else if c.initialBalance.IsNegative() then Err(Contract(InvalidMoney))
    else Ok(())
  }

  function Validate(c: SubmitWagerCommand): Result<(), AppError> {
    if c.providerId == "" || c.externalId == "" || c.walletId == "" || c.playerId == "" || c.roundId ==
         "" || c.gameId == ""
    then Err(Contract(InvalidRequest))
    else if c.idempotencyKey == "" then Err(Contract(IdempotencyKeyRequired))
    else if !c.kind.Valid() || !c.kind.IsExternal() then Err(Contract(InvalidRequest))
    else if !c.amount.IsInitialized() then Err(Contract(InvalidMoney))
    else match c.kind
      case Loss =>
        if !c.amount.IsZero() then Err(Contract(InvalidLossAmount))
        else if c.referenceExternalId != "" then Err(Contract(InvalidRequest))
        else Ok(())
      case Bet =>
        if !c.amount.IsPositive() then Err(Contract(InvalidRequest))
        else if c.referenceExternalId != "" then Err(Contract(InvalidRequest))
        else Ok(())
      case Refund => ValidateReversal(c)
      case Rollback => ValidateReversal(c)
      case _ => if !c.amount.IsPositive() then Err(Contract(InvalidRequest)) else Ok(())
  }

  function ValidateReversal(c: SubmitWagerCommand): Result<(), AppError> {
    if !c.amount.IsPositive() then Err(Contract(InvalidRequest))
    else if c.referenceExternalId == "" then Err(Contract(ReferenceRequired))
    else Ok(())
  }

  /** Which commands are valid, and which contract error each other one gets, by its fields. */
  lemma ValidationExactly(c: SubmitWagerCommand)
    ensures var named := c.providerId != "" && c.externalId != "" && c.walletId != "" && c.playerId != ""
                         && c.roundId != "" && c.gameId != "";
            var external := c.kind in {Bet, Win, Loss, Refund, Rollback};
            var priced := named && c.idempotencyKey != "" && external && c.amount.currency != "";
            var refers := c.referenceExternalId != "";
            && (Validate(c) == Err(Contract(IdempotencyKeyRequired)) <==> named && c.idempotencyKey == "")
            && (Validate(c) == Err(Contract(InvalidMoney)) <==>
                  named && c.idempotencyKey != "" && external && c.amount.currency == "")
            && (Validate(c) == Err(Contract(InvalidLossAmount)) <==>
                  priced && c.kind == Loss && c.amount.minorUnits != 0)
            && (Validate(c) == Err(Contract(ReferenceRequired)) <==>
                  priced && c.kind in {Refund, Rollback} && c.amount.minorUnits > 0 && !refers)
            && (Validate(c) == Err(Contract(InvalidRequest)) <==>
                  || !named || (c.idempotencyKey != "" && !external)
                  || (priced && c.kind != Loss && c.amount.minorUnits <= 0)
                  || (priced && c.kind == Bet && c.amount.minorUnits > 0 && refers)
                  || (priced && c.kind == Loss && c.amount.minorUnits == 0 && refers))
            && (Validate(c).Ok? <==>
                  && priced && (if c.kind == Loss then c.amount.minorUnits == 0 else c.amount.minorUnits > 0)
                  && (c.kind in {Bet, Loss} ==> !refers) && (c.kind in {Refund, Rollback} ==> refers))
  {
  }

  function ValidateDelivery(d: InboxDelivery): Result<(), AppError> {
    if d.consumerName == "" || d.messageId == "" || d.receivedAt == 0 then Err(Contract(InvalidRequest)) else Ok(())
  }

  /** Two commands have the same digest if and only if their nine business fields agree; the idempotency key plays no
      part. */
  lemma DigestsAgreeWhen(a: SubmitWagerCommand, b: SubmitWagerCommand)
    ensures DigestOf(a) == DigestOf(b) <==>
            && a.providerId == b.providerId && a.externalId == b.externalId && a.walletId == b.walletId
               && a.playerId == b.playerId
            && a.roundId == b.roundId && a.gameId == b.gameId && a.kind == b.kind && a.amount == b.amount
            && a.referenceExternalId == b.referenceExternalId
  {
  }
}
