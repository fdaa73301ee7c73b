/** Exact money over Go's wrapped 64-bit integers (internal/domain/money/money.go). */
module MoneyValue {
  import opened Results

  const TWO_63: int := 0x8000_0000_0000_0000
  const TWO_64: int := 0x1_0000_0000_0000_0000
  const MIN_INT64: int := -TWO_63
  const MAX_INT64: int := TWO_63 - 1

  type Int64 = x: int | MIN_INT64 <= x <= MAX_INT64

  predicate Representable(x: int) {
    MIN_INT64 <= x <= MAX_INT64
  }

  /** What a Go int64 addition leaves in the register. */
  function Wrap(x: int): Int64 {
    (x + TWO_63) % TWO_64 - TWO_63
  }

  datatype MoneyError = InvalidInput | Overflow | CurrencyMismatch | Uninitialized

  /** The empty currency is Go's zero value: no operation accepts it. */
  datatype Money = Money(minorUnits: Int64, currency: string) {
    predicate IsInitialized() { currency != "" }
    predicate IsZero() { minorUnits == 0 }
    predicate IsNegative() { minorUnits < 0 }
    predicate IsPositive() { minorUnits > 0 }
  }

  const NO_MONEY := Money(0, "")

  predicate CurrencyPattern(currency: string) {
    |currency| == 3 && forall i | 0 <= i < 3 :: 'A' <= currency[i] <= 'Z'
  }

  function CheckCompatible(m: Money, other: Money): Result<(), MoneyError> {
    if !m.IsInitialized() || !other.IsInitialized() then Err(Uninitialized)
    else if m.currency != other.currency then Err(CurrencyMismatch)
    else Ok(())
  }

  /** Addition with the source's own overflow test on the wrapped sum. */
  function Add(m: Money, other: Money): Result<Money, MoneyError> {
    var _ :- CheckCompatible(m, other);
    var sum := Wrap(m.minorUnits + other.minorUnits);
    if (other.minorUnits > 0 && sum < m.minorUnits) || (other.minorUnits < 0 && sum > m.minorUnits) then
      Err(Overflow)
    else
      Ok(Money(sum, m.currency))
  }

  function Neg(m: Money): Result<Money, MoneyError> {
    if !m.IsInitialized() then Err(Uninitialized)
    else if m.minorUnits == MIN_INT64 then Err(Overflow)
    else Ok(Money(-m.minorUnits, m.currency))
  }

  function Sub(m: Money, other: Money): Result<Money, MoneyError> {
    var negated :- Neg(other);
    Add(m, negated)
  }

  function Cmp(m: Money, other: Money): Result<int, MoneyError> {
    var _ :- CheckCompatible(m, other);
    Ok(if m.minorUnits < other.minorUnits then -1 else if m.minorUnits > other.minorUnits then 1 else 0)
  }

  function Equal(m: Money, other: Money): Result<bool, MoneyError> {
    var cmp :- Cmp(m, other);
    Ok(cmp == 0)
  }

  function LessThan(m: Money, other: Money): Result<bool, MoneyError> {
    var cmp :- Cmp(m, other);
    Ok(cmp < 0)
  }

  /** The wrapped-sum test refuses exactly the sums that do not fit, and an accepted sum is the true sum. */
  lemma AddExact(m: Money, other: Money)
    requires m.IsInitialized() && other.IsInitialized() && m.currency == other.currency
    ensures Add(m, other) == if Representable(m.minorUnits + other.minorUnits)
                             then Ok(Money(m.minorUnits + other.minorUnits, m.currency)) else Err(Overflow)
  {
    var exact := m.minorUnits + other.minorUnits;
    if exact > MAX_INT64 {
      assert (exact + TWO_63) % TWO_64 == exact + TWO_63 - TWO_64;
    } else if exact < MIN_INT64 {
      assert (exact + TWO_63) % TWO_64 == exact + TWO_63 + TWO_64;
    }
  }

  /** Subtraction refuses exactly an unrepresentable difference or a subtrahend of MinInt64. */
  lemma SubExact(m: Money, other: Money)
    requires m.IsInitialized() && other.IsInitialized() && m.currency == other.currency
    ensures Sub(m, other) == if other.minorUnits != MIN_INT64 && Representable(m.minorUnits - other.minorUnits)
                             then Ok(Money(m.minorUnits - other.minorUnits, m.currency)) else Err(Overflow)
  {
    if other.minorUnits != MIN_INT64 {
      AddExact(m, Money(-other.minorUnits, other.currency));
    }
  }

  /** The MinInt64 refusal is a real loss: a representable difference that Sub still rejects. */
  lemma SubRefusesRepresentableDifference()
    ensures exists m: Money, other: Money ::
              m.IsInitialized() && m.currency == other.currency
              && Representable(m.minorUnits - other.minorUnits) && Sub(m, other) == Err(Overflow)
  {
    var m, other := Money(-1, "BRL"), Money(MIN_INT64, "BRL");
    assert m.IsInitialized() && Representable(m.minorUnits - other.minorUnits);
    assert Sub(m, other) == Err(Overflow);
  }

  // ----- Canonical text -----

  predicate IsDigit(c: char) { '0' <= c <= '9' }

  predicate AllDigits(s: string) { forall i | 0 <= i < |s| :: IsDigit(s[i]) }

  function DigitValue(c: char): nat
    requires IsDigit(c)
  {
    c as int - '0' as int
  }

  function DigitChar(d: nat): char
    requires d < 10
  {
    ('0' as int + d) as char
  }

  /** The integer part of the amount pattern: 0, or a digit string without a leading zero. */
  predicate CanonicalDigits(s: string) {
    AllDigits(s) && |s| > 0 && (s[0] == '0' ==> |s| == 1)
  }

  function DigitsValue(s: string): nat
    requires AllDigits(s)
  {
    if s == "" then 0 else DigitsValue(s[..|s| - 1]) * 10 + DigitValue(s[|s| - 1])
  }

  /** strconv.FormatUint in base ten. */
  function Decimal(n: nat): string {
    if n < 10 then [DigitChar(n)] else Decimal(n / 10) + [DigitChar(n % 10)]
  }

  predicate AmountPattern(s: string) {
    |s| >= 4 && s[|s| - 3] == '.' && IsDigit(s[|s| - 2]) && IsDigit(s[|s| - 1]) && CanonicalDigits(s[..|s| - 3])
  }

  function Parse(amount: string, currency: string): Result<Money, MoneyError> {
    if !CurrencyPattern(currency) then Err(InvalidInput)
    else if !AmountPattern(amount) then Err(InvalidInput)
    else
      var fraction := DigitValue(amount[|amount| - 2]) * 10 + DigitValue(amount[|amount| - 1]);
      var parsed := DigitsValue(amount[..|amount| - 3]);
      if parsed > MAX_INT64 then Err(Overflow)
      else if parsed > (MAX_INT64 - fraction) / 100 then Err(Overflow)
      else Ok(Money(parsed * 100 + fraction, currency))
  }

  /** Two's-complement conversion to uint64. */
  function ToUint64(x: int): nat {
    x % TWO_64
  }

  function String(m: Money): string {
    if !m.IsInitialized() then ""
    else
      var converted: int := ToUint64(m.minorUnits);
      var units := if m.minorUnits < 0 then ToUint64(-converted) else ToUint64(m.minorUnits);
      (if m.minorUnits < 0 then "-" else "") + Hundredths(units)
  }

  /** The text of a number of hundredths: FormatUint(units/100) + "." + %02d. */
  function Hundredths(units: nat): string {
    Decimal(units / 100) + "." + [DigitChar(units % 100 / 10), DigitChar(units % 10)]
  }

  function Magnitude(x: int): nat {
    if x < 0 then -x else x
  }

  /** The value a canonical amount text denotes, in minor units. */
  function AmountValue(amount: string): nat
    requires AmountPattern(amount)
  {
    DigitsValue(amount[..|amount| - 3]) * 100
    + DigitValue(amount[|amount| - 2]) * 10 + DigitValue(amount[|amount| - 1])
  }

  lemma {:induction false} DecimalDenotes(n: nat)
    ensures CanonicalDigits(Decimal(n)) && DigitsValue(Decimal(n)) == n
    ensures n > 0 ==> Decimal(n)[0] != '0'
  {
    if n < 10 {
      assert Decimal(n)[..0] == "";
    } else {
      DecimalDenotes(n / 10);
      assert Decimal(n)[..|Decimal(n)| - 1] == Decimal(n / 10);
    }
  }

  lemma {:induction false} CanonicalValueIsPositive(s: string)
    requires AllDigits(s) && |s| > 0 && s[0] != '0'
    ensures DigitsValue(s) > 0
  {
    if |s| > 1 {
      CanonicalValueIsPositive(s[..|s| - 1]);
    }
  }

  lemma {:induction false} DecimalOfValue(s: string)
    requires CanonicalDigits(s)
    ensures Decimal(DigitsValue(s)) == s
  {
    if |s| == 1 {
      assert s[..0] == "";
      assert DigitsValue(s) == DigitValue(s[0]);
    } else {
      var init := s[..|s| - 1];
      DecimalOfValue(init);
      CanonicalValueIsPositive(init);
      assert s == init + [s[|s| - 1]];
    }
  }

  /** Parse refuses exactly the non-canonical texts and the canonical amounts above MaxInt64. */
  lemma ParseExact(amount: string, currency: string)
    ensures Parse(amount, currency) ==
            if !CurrencyPattern(currency) || !AmountPattern(amount) then Err(InvalidInput)
            else if AmountValue(amount) > MAX_INT64 then Err(Overflow)
            else Ok(Money(AmountValue(amount), currency))
  {
    if CurrencyPattern(currency) && AmountPattern(amount) {
      var fraction := DigitValue(amount[|amount| - 2]) * 10 + DigitValue(amount[|amount| - 1]);
      var parsed := DigitsValue(amount[..|amount| - 3]);
      assert parsed > (MAX_INT64 - fraction) / 100 <==> parsed * 100 + fraction > MAX_INT64;
    }
  }

  lemma HundredthsDenotes(units: nat)
    ensures AmountPattern(Hundredths(units)) && AmountValue(Hundredths(units)) == units
  {
    var text := Hundredths(units);
    DecimalDenotes(units / 100);
    assert text[..|text| - 3] == Decimal(units / 100);
  }

  lemma HundredthsOfValue(amount: string)
    requires AmountPattern(amount)
    ensures Hundredths(AmountValue(amount)) == amount
  {
    var whole := amount[..|amount| - 3];
    var tens, ones := DigitValue(amount[|amount| - 2]), DigitValue(amount[|amount| - 1]);
    var units := AmountValue(amount);
    assert units == DigitsValue(whole) * 100 + tens * 10 + ones;
    assert units / 100 == DigitsValue(whole) && units % 100 == tens * 10 + ones && units % 10 == ones;
    DecimalOfValue(whole);
    assert amount == whole + "." + [amount[|amount| - 2], amount[|amount| - 1]];
  }

  function SignText(x: int): string {
    if x < 0 then "-" else ""
  }

  /** Every amount, MinInt64 included, is rendered as its sign and its true magnitude. */
  lemma StringExact(m: Money)
    requires m.IsInitialized()
    ensures String(m) == SignText(m.minorUnits) + Hundredths(Magnitude(m.minorUnits))
  {
    var x: int := m.minorUnits;
    if x < 0 {
      assert ToUint64(x) == x + TWO_64;
      assert ToUint64(-(x + TWO_64)) == -x;
    } else {
      assert ToUint64(x) == x;
    }
  }

  /** Printing a non-negative amount and parsing it gives the amount back. */
  lemma ParseOfString(m: Money)
    requires CurrencyPattern(m.currency) && m.minorUnits >= 0
    ensures Parse(String(m), m.currency) == Ok(m)
  {
    StringExact(m);
    assert SignText(m.minorUnits) + Hundredths(m.minorUnits) == Hundredths(m.minorUnits);
    HundredthsDenotes(m.minorUnits);
    ParseExact(String(m), m.currency);
  }

  /** Parsing any accepted text and printing the result gives the text back. */
  lemma StringOfParse(amount: string, currency: string)
    requires Parse(amount, currency).Ok?
    ensures String(Parse(amount, currency).value) == amount
  {
    ParseExact(amount, currency);
    StringExact(Money(AmountValue(amount), currency));
    HundredthsOfValue(amount);
    assert SignText(AmountValue(amount)) + amount == amount;
  }

  /** No two amounts of one currency share a text, negative amounts included. */
  lemma StringInjective(a: Money, b: Money)
    requires a.IsInitialized() && a.currency == b.currency && String(a) == String(b)
    ensures a == b
  {
    StringExact(a);
    StringExact(b);
    var x, y := Hundredths(Magnitude(a.minorUnits)), Hundredths(Magnitude(b.minorUnits));
    HundredthsDenotes(Magnitude(a.minorUnits));
    HundredthsDenotes(Magnitude(b.minorUnits));
    NoSignInside(x);
    NoSignInside(y);
    assert String(a)[0] == if a.minorUnits < 0 then '-' else x[0];
    assert String(b)[0] == if b.minorUnits < 0 then '-' else y[0];
    assert x == String(a)[|SignText(a.minorUnits)|..];
    assert y == String(b)[|SignText(b.minorUnits)|..];
  }

  lemma NoSignInside(amount: string)
    requires AmountPattern(amount)
    ensures amount[0] != '-'
  {
    assert amount[..|amount| - 3][0] == amount[0];
  }
}
