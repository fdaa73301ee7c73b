/** The wallet aggregate, its ledger postings and compensation claims
    (internal/domain/financial/wallet.go, ledger.go, reversal.go). */
module Wallets {
  import opened Results
  import opened MoneyValue
  import opened Wager

  datatype Wallet = Wallet(
    id: WalletId,
    playerId: PlayerId,
    currency: string,
    balance: Money,
    version: int,
    createdAt: Time,
    updatedAt: Time)

  datatype Direction = Debit | Credit

  datatype LedgerEntry = LedgerEntry(
    id: EntryId,
    walletId: WalletId,
    transactionId: TransactionId,
    direction: Direction,
    amount: Money,
    balanceBefore: Money,
    balanceAfter: Money,
    createdAt: Time)

  datatype ReversalClaim = ReversalClaim(
    id: ClaimId,
    reference: TransactionId,
    reversal: TransactionId,
    createdAt: Time)

  function Lift<T>(r: Result<T, MoneyError>): Result<T, DomainError> {
    match r
    case Ok(v) => Ok(v)
    case Err(e) => Err(MoneyFailure(e))
  }

  function ValidateMovement(currency: string, amount: Money): Result<(), DomainError> {
    if !amount.IsInitialized() then Err(NotInitialized)
    else if amount.currency != currency then Err(MoneyFailure(CurrencyMismatch))
    else Ok(())
  }

  function NewWallet(id: WalletId, playerId: PlayerId, currency: string, initial: Money, now: Time)
    : Result<Wallet, DomainError>
  {
    if id == "" || playerId == "" || now == 0 then Err(BadInput)
    else
      var _ :- ValidateMovement(currency, initial);
      if initial.IsNegative() then Err(BadInput)
      else Ok(Wallet(id, playerId, currency, initial, 1, now, now))
  }

  function RehydrateWallet(w: Wallet): Result<Wallet, DomainError> {
    if w.id == "" || w.playerId == "" || w.version < 1 then Err(BadInput)
    else if w.createdAt == 0 || w.updatedAt == 0 || w.updatedAt < w.createdAt then Err(BadInput)
    else
      var _ :- ValidateMovement(w.currency, w.balance);
      if w.balance.IsNegative() then Err(BadInput) else Ok(w)
  }

  function WithBalance(w: Wallet, balance: Money, now: Time): Wallet {
    w.(balance := balance, version := w.version + 1, updatedAt := now)
  }

  function CheckMovement(w: Wallet, amount: Money, now: Time): Result<(), DomainError> {
    if w.id == "" || w.currency == "" || !w.balance.IsInitialized() then Err(NotInitialized)
    else if now == 0 then Err(BadInput)
    else
      var _ :- ValidateMovement(w.currency, amount);
      if !amount.IsPositive() then Err(BadInput) else Ok(())
  }

  function CreditWallet(w: Wallet, amount: Money, now: Time): Result<Wallet, DomainError> {
    var _ :- CheckMovement(w, amount, now);
    var balance :- Lift(Add(w.balance, amount));
    Ok(WithBalance(w, balance, now))
  }

  function DebitWallet(w: Wallet, amount: Money, now: Time): Result<Wallet, DomainError> {
    var _ :- CheckMovement(w, amount, now);
    var insufficient :- Lift(LessThan(w.balance, amount));
    if insufficient then Err(InsufficientBalance)
    else
      var balance :- Lift(Sub(w.balance, amount));
      Ok(WithBalance(w, balance, now))
  }

  function NewLedgerEntry(e: LedgerEntry): Result<LedgerEntry, DomainError> {
    if e.id == 0 || e.walletId == "" || e.transactionId == 0 || e.createdAt == 0 then Err(BadInput)
    else if !e.amount.IsInitialized() || !e.balanceBefore.IsInitialized() || !e.balanceAfter.IsInitialized()
            then Err(NotInitialized)
    else if !e.amount.IsPositive() then Err(BadInput)
    else if e.balanceBefore.currency != e.amount.currency || e.balanceAfter.currency != e.amount.currency then
      Err(MoneyFailure(CurrencyMismatch))
    else if e.balanceBefore.IsNegative() || e.balanceAfter.IsNegative() then Err(BadInput)
    else
      var expected :- Lift(if e.direction == Credit then Add(e.balanceBefore, e.amount)
                           else Sub(e.balanceBefore, e.amount));
      var equal :- Lift(Equal(expected, e.balanceAfter));
      if equal then Ok(e) else Err(BadInput)
  }

  function NewReversalClaim(id: ClaimId, reference: TransactionId, reversal: TransactionId, now: Time)
    : Result<ReversalClaim, DomainError>
  {
    if id == 0 || reference == 0 || reversal == 0 || reference == reversal || now == 0 then Err(BadInput)
    else Ok(ReversalClaim(id, reference, reversal, now))
  }

  /** The signed effect of a posting. */
  function Signed(e: LedgerEntry): int {
    if e.direction == Credit then e.amount.minorUnits else -(e.amount.minorUnits as int)
  }

  predicate WalletOk(w: Wallet) {
    && w.id != "" && w.playerId != "" && w.currency != ""
    && w.balance.currency == w.currency && w.balance.minorUnits >= 0 && w.version >= 1
  }

  predicate MovableBy(w: Wallet, amount: Money) {
    WalletOk(w) && amount.currency == w.currency && amount.minorUnits > 0
  }

  /** A credit of a positive amount fails only when the new balance does not fit in 64 bits. */
  lemma CreditExact(w: Wallet, amount: Money, now: Time)
    requires MovableBy(w, amount) && now != 0
    ensures CreditWallet(w, amount, now) ==
            if w.balance.minorUnits + amount.minorUnits <= MAX_INT64
            then Ok(WithBalance(w, Money(w.balance.minorUnits + amount.minorUnits, w.currency), now))
            else Err(MoneyFailure(Overflow))
  {
    AddExact(w.balance, amount);
  }

  /** A debit of a positive amount fails only for lack of funds, and never takes the balance below zero. */
  lemma DebitExact(w: Wallet, amount: Money, now: Time)
    requires MovableBy(w, amount) && now != 0
    ensures DebitWallet(w, amount, now) ==
            if w.balance.minorUnits < amount.minorUnits then Err(InsufficientBalance)
            else Ok(WithBalance(w, Money(w.balance.minorUnits - amount.minorUnits, w.currency), now))
  {
    SubExact(w.balance, amount);
  }

  /** The posting constructor accepts exactly the arithmetic it documents. */
  lemma EntryExact(e: LedgerEntry)
    requires e.id != 0 && e.walletId != "" && e.transactionId != 0 && e.createdAt != 0
    requires e.amount.currency != "" && e.balanceBefore.currency == e.amount.currency == e.balanceAfter.currency
    ensures NewLedgerEntry(e).Ok? <==>
            e.amount.minorUnits > 0 && e.balanceBefore.minorUnits >= 0 && e.balanceAfter.minorUnits >= 0
            && e.balanceAfter.minorUnits == e.balanceBefore.minorUnits + Signed(e)
  {
    AddExact(e.balanceBefore, e.amount);
    SubExact(e.balanceBefore, e.amount);
  }
}
