/** The delay before a reference retry (internal/application/backoff.go). */
module Backoff {
  import opened Wager

  const SECOND: nat := 1_000_000_000
  const REFERENCE_TTL: nat := 86_400 * SECOND
  const BACKOFF_BASE: nat := SECOND
  const BACKOFF_CAP: nat := 900 * SECOND
  const JITTER_DENOMINATOR: nat := 10

  /** How long a claimed row stays with its worker. */
  const CLAIM_LEASE: nat := 30 * SECOND

  /** One second doubled per attempt and capped. */
  function ExponentialDelay(attempt: nat): nat {
    if attempt == 0 then BACKOFF_BASE
    else if 2 * ExponentialDelay(attempt - 1) > BACKOFF_CAP then BACKOFF_CAP
    else 2 * ExponentialDelay(attempt - 1)
  }

  /** The delay for a retry whose identity and attempt hash to the given 64-bit value. */
  function ReferenceDelay(attempt: nat, hash: nat): nat {
    ExponentialDelay(attempt) + hash % (ExponentialDelay(attempt) / JITTER_DENOMINATOR + 1)
  }

  function ReferenceNextAttemptAt(attempt: nat, hash: nat, now: Time): Time {
    now + ReferenceDelay(attempt, hash)
  }

  function Power2(n: nat): nat {
    if n == 0 then 1 else 2 * Power2(n - 1)
  }

  function Min(a: int, b: int): int {
    if a <= b then a else b
  }

  /** The capped doubling is the closed form min(2^n s, 900 s). */
  lemma {:induction false} ExponentialDelayClosedForm(attempt: nat)
    ensures ExponentialDelay(attempt) == Min(Power2(attempt), 900) * SECOND
  {
    if attempt > 0 {
      ExponentialDelayClosedForm(attempt - 1);
    }
  }

  /** Whatever the hash, the delay lies between min(2^n s, 900 s) and that plus a tenth. */
  lemma ReferenceDelayBounds(attempt: nat, hash: nat)
    ensures Min(Power2(attempt), 900) * SECOND <= ReferenceDelay(attempt, hash)
    ensures 10 * ReferenceDelay(attempt, hash) <= 11 * Min(Power2(attempt), 900) * SECOND
  {
    ExponentialDelayClosedForm(attempt);
    var window := ExponentialDelay(attempt) / JITTER_DENOMINATOR;
    assert 0 <= hash % (window + 1) <= window;
    assert 10 * window <= ExponentialDelay(attempt);
  }

  /** The source's loop: it stops early once the cap is reached, and a negative attempt counts as the first. Its early
      return for an empty jitter window is unreachable: the window is never shorter than a tenth of a second. */
  method ReferenceBackoff(attempt: int, hash: nat) returns (delay: nat)
    ensures delay == ReferenceDelay(if attempt < 0 then 0 else attempt, hash)
  {
    var attempts: nat := if attempt < 0 then 0 else attempt;
    var base := BACKOFF_BASE;
    var i := 0;
    while i < attempts && base < BACKOFF_CAP
      invariant 0 <= i <= attempts
      invariant base == ExponentialDelay(i) && 0 < base <= BACKOFF_CAP
      decreases attempts - i
    {
      base := base * 2;
      if base > BACKOFF_CAP {
        base := BACKOFF_CAP;
      }
      i := i + 1;
    }
    DelayStaysAtCap(i, attempts - i);
    var jitterWindow := base / JITTER_DENOMINATOR;
    delay := base + hash % (jitterWindow + 1);
  }

  lemma {:induction false} DelayStaysAtCap(attempt: nat, more: nat)
    requires more > 0 ==> ExponentialDelay(attempt) == BACKOFF_CAP
    ensures ExponentialDelay(attempt + more) == ExponentialDelay(attempt)
    decreases more
  {
    if more > 0 {
      DelayStaysAtCap(attempt + 1, more - 1);
    }
  }
}
