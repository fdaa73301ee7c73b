/** The stored balance against the fold of the ledger (internal/application/reconciliation.go:52-93,
    internal/adapters/postgres/reconciliation.go:16-74). */
module Reconciliation {
  import opened Results
  import opened MoneyValue
  import opened Wager
  import opened Wallets
  import opened AppErrors
  import opened Tables
  import opened Guarantees

  datatype Report = Report(
    walletId: WalletId, storedBalance: Money, calculatedBalance: Money, difference: Money, consistent: bool,
      checkedEntries: nat)

  /** The exact signed sum of some postings. */
  function SumOf(entries: seq<LedgerEntry>): int {
    if entries == [] then 0 else SumOf(entries[..|entries| - 1]) + Signed(entries[|entries| - 1])
  }

  /** No partial sum leaves the 64-bit range. */
  predicate PartialSumsFit(entries: seq<LedgerEntry>) {
    forall i | 0 <= i <= |entries| :: Representable(SumOf(entries[..i]))
  }

  predicate PositiveAmounts(entries: seq<LedgerEntry>, currency: string) {
    forall i | 0 <= i < |entries| :: entries[i].amount.minorUnits > 0 && entries[i].amount.currency == currency
  }

  /** The rows of the snapshot: the wallet's postings, in whatever order they were read. */
  ghost predicate Snapshot(db: Db, w: WalletId, entries: seq<LedgerEntry>) {
    multiset(entries) == multiset(PostingsOf(db.ledger, w))
  }

  /** One step of the fold fails exactly when the next partial sum does not fit. */
  lemma FoldStep(entries: seq<LedgerEntry>, i: nat, calculated: Money)
    requires i < |entries| && entries[i].amount.minorUnits > 0
    requires entries[i].amount.currency == calculated.currency != ""
    requires calculated.minorUnits == SumOf(entries[..i])
    ensures var next := if entries[i].direction == Credit then Add(calculated, entries[i].amount)
            else Sub(calculated, entries[i].amount);
            if Representable(SumOf(entries[..i + 1]))
               then next == Ok(Money(SumOf(entries[..i + 1]), calculated.currency)) else next.Err?
  {
    assert entries[..i + 1][..i] == entries[..i];
    AddExact(calculated, entries[i].amount);
    SubExact(calculated, entries[i].amount);
  }

  /** Folds the entries into a balance and reports stored minus calculated. The fold aborts exactly when a partial sum
      does not fit. */
  method ReconcileWallet(db: Db, w: WalletId, entries: seq<LedgerEntry>) returns (r: Result<Report, AppError>)
    requires w in db.wallets ==> WalletOk(db.wallets[w]) && PositiveAmounts(entries, db.wallets[w].currency)
    ensures w == "" ==> r == Err(Contract(InvalidRequest))
    ensures w != "" && w !in db.wallets ==> r == Err(NotFound)
    ensures w != "" && w in db.wallets && !PartialSumsFit(entries) ==> r == Err(Invariant)
    ensures w != "" && w in db.wallets && PartialSumsFit(entries) ==>
              var stored, sum := db.wallets[w].balance, SumOf(entries);
              if Representable(sum) && Representable(stored.minorUnits - sum) && sum != MIN_INT64 then
                var difference := stored.minorUnits - sum;
                r == Ok(Report(w, stored, Money(sum, stored.currency), Money(difference, stored.currency),
                             difference == 0, |entries|))
              else r == Err(Invariant)
  {
    if w == "" {
      return Err(Contract(InvalidRequest));
    }
    if w !in db.wallets {
      return Err(NotFound);
    }
    var balance := db.wallets[w].balance;
    assert balance.currency != "" && balance.currency == db.wallets[w].currency && SumOf([]) == 0;
    hide SumOf, Add, WalletOk, Signed;
    var calculated := Money(0, balance.currency);
    assert entries[..0] == [];
    var i := 0;
    while i < |entries|
      invariant 0 <= i <= |entries|
      invariant calculated.currency == balance.currency && calculated.minorUnits == SumOf(entries[..i])
      invariant forall j | 0 <= j <= i :: Representable(SumOf(entries[..j]))
    {
      var entry := entries[i];
      FoldStep(entries, i, calculated);
      var next := if entry.direction == Credit then Add(calculated, entry.amount) else Sub(calculated, entry.amount);
      if next.Err? {
        assert !Representable(SumOf(entries[..i + 1]));
        return Err(Invariant);
      }
      calculated := next.value;
      i := i + 1;
    }
    assert entries[..i] == entries;
    SubExact(balance, calculated);
    var difference := Sub(balance, calculated);
    if difference.Err? {
      return Err(Invariant);
    }
    return Ok(Report(w, balance, calculated, difference.value, difference.value.IsZero(), |entries|));
  }

  // ----- Order does not matter -----

  lemma SumOfAppend(entries: seq<LedgerEntry>, e: LedgerEntry)
    ensures SumOf(entries + [e]) == SumOf(entries) + Signed(e)
  {
    assert (entries + [e])[..|entries|] == entries;
  }

  lemma {:induction false} SumOfConcat(a: seq<LedgerEntry>, b: seq<LedgerEntry>)
    ensures SumOf(a + b) == SumOf(a) + SumOf(b)
    decreases b
  {
    if b == [] {
      assert a + b == a;
    } else {
      var init, last := b[..|b| - 1], b[|b| - 1];
      SumOfConcat(a, init);
      SumOfAppend(a + init, last);
      SumOfAppend(init, last);
      assert a + b == a + init + [last] && b == init + [last];
    }
  }

  /** An occurrence of the last element of a permutation, and what is left without it. */
  lemma TakeOut(init: seq<LedgerEntry>, last: LedgerEntry, b: seq<LedgerEntry>) returns (before: seq<LedgerEntry>,
                after: seq<LedgerEntry>)
    requires multiset(init + [last]) == multiset(b)
    ensures b == before + [last] + after && multiset(init) == multiset(before + after)
  {
    assert last in multiset(init + [last]);
    var i :| 0 <= i < |b| && b[i] == last;
    before, after := b[..i], b[i + 1..];
    assert b == before + [last] + after;
    assert multiset(before + after) == multiset(b) - multiset{last};
    assert multiset(init) == multiset(init + [last]) - multiset{last};
  }

  /** Permutations have equal sums. */
  lemma {:induction false} SumIgnoresOrder(a: seq<LedgerEntry>, b: seq<LedgerEntry>)
    requires multiset(a) == multiset(b)
    ensures SumOf(a) == SumOf(b)
    decreases |a|
  {
    hide Signed;
    if a == [] {
      assert |multiset(b)| == 0;
    } else {
      var init, last := a[..|a| - 1], a[|a| - 1];
      assert a == init + [last];
      var before, after := TakeOut(init, last, b);
      hide SumOf;
      SumIgnoresOrder(init, before + after);
      SumOfAppend(init, last);
      SumOfAppend(before, last);
      SumOfConcat(before + [last], after);
      SumOfConcat(before, after);
    }
  }

  /** The sum of a chain from zero is the balance it ends with, at every point. */
  lemma {:induction false} ChainSums(entries: seq<LedgerEntry>, n: nat)
    requires ChainsFromZero(entries) && n <= |entries|
    ensures SumOf(entries[..n]) == EndBalance(entries[..n])
    decreases n
  {
    if n > 0 {
      ChainSums(entries, n - 1);
      assert entries[..n][..n - 1] == entries[..n - 1];
    }
  }

  /** In every reachable state the difference is zero whenever the fold does not overflow, in any entry order. */
  lemma DifferenceIsZero(db: Db, w: WalletId, entries: seq<LedgerEntry>)
    requires Reachable(db) && w in db.wallets && Snapshot(db, w, entries)
    ensures SumOf(entries) == db.wallets[w].balance.minorUnits
  {
    hide Reachable, ChainsFromZero;
    LedgerChainsToBalance(db, w);
    var postings := PostingsOf(db.ledger, w);
    ChainSums(postings, |postings|);
    assert postings[..|postings|] == postings;
    SumIgnoresOrder(entries, postings);
  }

  /** In commit order each partial sum is that posting's resulting balance, so the fold cannot overflow. */
  lemma CommitOrderNeverOverflows(db: Db, w: WalletId)
    requires Reachable(db) && w in db.wallets
    ensures PartialSumsFit(PostingsOf(db.ledger, w))
    ensures var postings := PostingsOf(db.ledger, w);
            forall i | 0 <= i < |postings| :: SumOf(postings[..i + 1]) == postings[i].balanceAfter.minorUnits
  {
    hide Reachable, ChainsFromZero, SumOf;
    LedgerChainsToBalance(db, w);
    var postings := PostingsOf(db.ledger, w);
    forall i | 0 <= i <= |postings| ensures SumOf(postings[..i]) == EndBalance(postings[..i]) {
      ChainSums(postings, i);
    }
  }
}
