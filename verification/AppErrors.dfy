/** Classified application errors (internal/application/errors.go). */
module AppErrors {
  import opened Wager

  datatype ErrorCode =
    | InvalidRequest
    | InvalidMoney
    | UnsupportedCurrency
    | IdempotencyKeyRequired
    | ReferenceRequired
    | InvalidLossAmount
    | InvalidCursor
    | InvalidLimit
    | WalletAlreadyExists
    | IdempotencyConflict
    | ExternalTransactionConflict
    | InboxPayloadConflict

  datatype AppError =
    | Contract(code: ErrorCode)
    | Conflict(code: ErrorCode)
    | NotFound
    | Transient
    | ConcurrentWrite
    | WalletExists
    | CorruptRecord
    | Invariant
    | Domain(cause: DomainError)
}
