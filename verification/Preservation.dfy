/** Every settled effect keeps every invariant of the tables. */
module Preservation {
  import opened Results
  import opened Wager
  import opened Wallets
  import opened Resolution
  import opened Tables
  import opened Invariants

  /** The row is new, or it ends (or reschedules) the wait of the stored row. */
  predicate Placed(rows: RowTable, t: WagerTransaction) {
    if t.id in rows then
      && rows[t.id].txn.state == PendingReference && SameCommand(rows[t.id].txn, t)
      && t.referenceDeadline == rows[t.id].txn.referenceDeadline
    else
      t.state != PendingReference ==> t.referenceDeadline == 0
  }

  predicate FreeKey<K(==)>(rows: RowTable, index: map<K, TransactionId>, key: K, t: WagerTransaction) {
    if t.id in rows then rows[t.id].txn.origin == External && t.origin == External
    else t.origin == External ==> key !in index
  }

  // ----- Wallets, rows, indexes -----

  lemma WalletsKept(wallets: WalletTable, owners: map<OwnerKey, WalletId>, w: Wallet)
    requires WalletsOk(wallets, owners) && w.id in wallets && WalletOk(w) && OwnerOf(w) == OwnerOf(wallets[w.id])
    ensures WalletsOk(wallets[w.id := w], owners)
  {
  }

  lemma RowsKept(rows: RowTable, wallets: WalletTable, row: Row)
    requires RowsOk(rows, wallets) && RowOk(row)
    requires row.txn.walletId in wallets && row.txn.amount.currency == wallets[row.txn.walletId].currency
    requires row.txn.referenceId != 0 ==> row.txn.referenceId in rows || row.txn.referenceId == row.txn.id
    ensures RowsOk(rows[row.txn.id := row], wallets)
  {
  }

  lemma RowsKeptByWallet(rows: RowTable, wallets: WalletTable, w: Wallet)
    requires RowsOk(rows, wallets) && (w.id in wallets ==> wallets[w.id].currency == w.currency)
    ensures RowsOk(rows, wallets[w.id := w])
  {
  }

  lemma IndexKept<K(!new)>(rows: RowTable, index: map<K, TransactionId>, key: WagerTransaction -> K, row: Row)
    requires IndexOk(rows, index, key) && FreeKey(rows, index, key(row.txn), row.txn)
    requires row.txn.id in rows ==> key(rows[row.txn.id].txn) == key(row.txn)
    requires forall id | id in rows :: rows[id].txn.id == id
    ensures IndexOk(rows[row.txn.id := row],
                    if row.txn.origin == External then index[key(row.txn) := row.txn.id] else index, key)
  {
  }

  // ----- Ledger -----

  lemma ProcessedRowsKept(rows: RowTable, row: Row, id: TransactionId)
    requires Placed(rows, row.txn) && IsProcessed(rows, id)
    ensures id != row.txn.id && rows[row.txn.id := row][id] == rows[id] && IsProcessed(rows[row.txn.id := row], id)
  {
  }

  lemma DirectionKept(rows: RowTable, row: Row, t: WagerTransaction)
    requires Placed(rows, row.txn) && (t.referenceId in rows || t.referenceId != row.txn.id)
    ensures DirectionOf(rows[row.txn.id := row], t) == DirectionOf(rows, t)
  {
  }

  lemma EntryKept(rows: RowTable, wallets: WalletTable, row: Row, e: LedgerEntry)
    requires RowsOk(rows, wallets) && Placed(rows, row.txn) && row.txn.id != 0 && EntryOk(rows, e)
    ensures EntryOk(rows[row.txn.id := row], e) && e.transactionId != row.txn.id
  {
    ProcessedRowsKept(rows, row, e.transactionId);
    var t := rows[e.transactionId].txn;
    if t.kind == Rollback && t.referenceId == row.txn.id {
      assert t.referenceId in rows;
    }
  }

  /** A row that posts nothing leaves the ledger right. */
  lemma LedgerKept(rows: RowTable, wallets: WalletTable, ledger: seq<LedgerEntry>, row: Row)
    requires RowsOk(rows, wallets) && LedgerOk(rows, ledger) && Placed(rows, row.txn) && row.txn.id != 0
    requires row.txn.state != Processed || row.txn.kind == Loss
    ensures LedgerOk(rows[row.txn.id := row], ledger)
  {
    forall i | 0 <= i < |ledger| ensures EntryOk(rows[row.txn.id := row], ledger[i]) {
      EntryKept(rows, wallets, row, ledger[i]);
    }
    forall id | Posted(rows[row.txn.id := row], id) ensures HasEntry(ledger, id) {
      assert Posted(rows, id);
    }
  }

  /** A row that posts one fresh entry leaves the ledger right. */
  lemma LedgerPosted(rows: RowTable, wallets: WalletTable, ledger: seq<LedgerEntry>, row: Row, entry: LedgerEntry)
    requires RowsOk(rows, wallets) && LedgerOk(rows, ledger) && Placed(rows, row.txn) && row.txn.id != 0
    requires entry.transactionId == row.txn.id && EntryOk(rows[row.txn.id := row], entry)
    requires forall i | 0 <= i < |ledger| :: ledger[i].id != entry.id
    ensures LedgerOk(rows[row.txn.id := row], ledger + [entry])
  {
    hide EntryOk, RowsOk, Placed;
    var after, post := rows[row.txn.id := row], ledger + [entry];
    forall i | 0 <= i < |post| ensures EntryOk(after, post[i]) {
      if i < |ledger| {
        EntryKept(rows, wallets, row, ledger[i]);
      }
    }
    forall i, j | 0 <= i < j < |post|
           ensures post[i].transactionId != post[j].transactionId && post[i].id != post[j].id {
      EntryKept(rows, wallets, row, ledger[i]);
    }
    forall id | Posted(after, id) ensures HasEntry(post, id) {
      if id == row.txn.id {
        assert post[|ledger|].transactionId == id;
      } else {
        assert Posted(rows, id) && HasEntry(ledger, id);
        var i :| 0 <= i < |ledger| && ledger[i].transactionId == id;
        assert post[i].transactionId == id;
      }
    }
  }

  lemma ChainExtends(ledger: seq<LedgerEntry>, entry: LedgerEntry)
    requires Chained(ledger) && entry.balanceBefore.minorUnits == LastBalance(ledger, entry.walletId)
    ensures Chained(ledger + [entry])
  {
    var post := ledger + [entry];
    forall i | 0 <= i < |post| ensures post[i].balanceBefore.minorUnits == LastBalance(post[..i], post[i].walletId) {
      assert post[..i] == ledger[..i];
      assert i == |ledger| ==> ledger[..i] == ledger;
    }
  }

  lemma LastBalanceOfAppend(ledger: seq<LedgerEntry>, e: LedgerEntry, w: WalletId)
    ensures LastBalance(ledger + [e], w) == if e.walletId == w then e.balanceAfter.minorUnits
            else LastBalance(ledger, w)
  {
    assert (ledger + [e])[..|ledger|] == ledger;
  }

  lemma MovementsOfAppend(rows: RowTable, ledger: seq<LedgerEntry>, e: LedgerEntry, w: WalletId)
    ensures Movements(rows, ledger + [e], w) ==
            Movements(rows, ledger, w)
            + if e.walletId == w && e.transactionId in rows && rows[e.transactionId].txn.kind != Opening then 1 else 0
  {
    assert (ledger + [e])[..|ledger|] == ledger;
  }

  /** Rows without postings do not enter the count of postings. */
  lemma {:induction false} MovementsFrame(rows: RowTable, row: Row, ledger: seq<LedgerEntry>, w: WalletId)
    requires forall i | 0 <= i < |ledger| :: ledger[i].transactionId != row.txn.id
    ensures Movements(rows[row.txn.id := row], ledger, w) == Movements(rows, ledger, w)
  {
    if ledger != [] {
      MovementsFrame(rows, row, ledger[..|ledger| - 1], w);
    }
  }

  // ----- Claims -----

  lemma ClaimKept(rows: RowTable, row: Row, c: ReversalClaim)
    requires Placed(rows, row.txn) && ClaimOk(rows, c)
    ensures ClaimOk(rows[row.txn.id := row], c) && c.reversal != row.txn.id && c.reference != row.txn.id
  {
    ProcessedRowsKept(rows, row, c.reference);
    ProcessedRowsKept(rows, row, c.reversal);
  }

  lemma ClaimsKept(rows: RowTable, claims: seq<ReversalClaim>, row: Row)
    requires ClaimsOk(rows, claims) && Placed(rows, row.txn)
    requires !(row.txn.state == Processed && IsClaimingKind(row.txn.kind))
    ensures ClaimsOk(rows[row.txn.id := row], claims)
  {
    var after := rows[row.txn.id := row];
    forall i | 0 <= i < |claims| ensures ClaimOk(after, claims[i]) {
      ClaimKept(rows, row, claims[i]);
    }
    forall id | IsProcessed(after, id) && IsClaimingKind(after[id].txn.kind) ensures IsReversal(claims, id) {
      assert IsProcessed(rows, id) && after[id] == rows[id];
    }
  }

  lemma ClaimsExtended(rows: RowTable, claims: seq<ReversalClaim>, row: Row, c: ReversalClaim)
    requires ClaimsOk(rows, claims) && Placed(rows, row.txn)
    requires ClaimOk(rows[row.txn.id := row], c) && c.reversal == row.txn.id && !HasClaim(claims, c.reference)
    ensures ClaimsOk(rows[row.txn.id := row], claims + [c])
  {
    var after, post := rows[row.txn.id := row], claims + [c];
    forall i | 0 <= i < |post| ensures ClaimOk(after, post[i]) {
      if i < |claims| {
        ClaimKept(rows, row, claims[i]);
      }
    }
    forall i, j | 0 <= i < j < |post|
           ensures post[i].reference != post[j].reference && post[i].reversal != post[j].reversal {
      ClaimKept(rows, row, claims[i]);
    }
    forall id | IsProcessed(after, id) && IsClaimingKind(after[id].txn.kind) ensures IsReversal(post, id) {
      if id == row.txn.id {
        assert post[|claims|].reversal == id;
      } else {
        assert IsProcessed(rows, id) && IsReversal(claims, id);
        var i :| 0 <= i < |claims| && claims[i].reversal == id;
        assert post[i].reversal == id;
      }
    }
  }

  // ----- Events -----

  lemma EventKept(rows: RowTable, wallets: WalletTable, row: Row, e: Event)
    requires RowsOk(rows, wallets) && Placed(rows, row.txn) && row.txn.id != 0 && EventOk(rows, wallets, e)
    ensures EventOk(rows[row.txn.id := row], wallets, e)
  {
    var id := e.data.transactionId;
    var t := rows[id].txn;
    if t.kind == Rollback && t.referenceId == row.txn.id {
      assert t.referenceId in rows;
    }
  }

  lemma EventKeptByWallet(rows: RowTable, wallets: WalletTable, w: Wallet, e: Event)
    requires w.id in wallets && wallets[w.id].playerId == w.playerId && EventOk(rows, wallets, e)
    ensures EventOk(rows, wallets[w.id := w], e)
  {
  }

  lemma EventsKept(rows: RowTable, wallets: WalletTable, outbox: seq<Event>, row: Row, events: seq<Event>, serial: nat)
    requires RowsOk(rows, wallets) && EventsOk(rows, wallets, outbox) && Placed(rows, row.txn) && row.txn.id != 0
    requires |events| <= 2 && forall i | 0 <= i < |events| ::
               events[i].id == 2 * serial + i && EventOk(rows[row.txn.id := row], wallets, events[i])
    requires forall i | 0 <= i < |outbox| :: outbox[i].id != 2 * serial && outbox[i].id != 2 * serial + 1
    ensures EventsOk(rows[row.txn.id := row], wallets, outbox + events)
  {
    var post := outbox + events;
    forall i | 0 <= i < |post| ensures EventOk(rows[row.txn.id := row], wallets, post[i]) {
      if i < |outbox| {
        EventKept(rows, wallets, row, outbox[i]);
      }
    }
  }

  lemma EventsKeptByWallet(rows: RowTable, wallets: WalletTable, outbox: seq<Event>, w: Wallet)
    requires w.id in wallets && wallets[w.id].playerId == w.playerId && EventsOk(rows, wallets, outbox)
    ensures EventsOk(rows, wallets[w.id := w], outbox)
  {
    forall i | 0 <= i < |outbox| ensures EventOk(rows, wallets[w.id := w], outbox[i]) {
      EventKeptByWallet(rows, wallets, w, outbox[i]);
    }
  }

  lemma {:induction false} TallyOfConcat(a: seq<Event>, b: seq<Event>, kind: EventKind, id: TransactionId)
    ensures Tally(a + b, kind, id) == Tally(a, kind, id) + Tally(b, kind, id)
  {
    if b == [] {
      assert a + b == a;
    } else {
      var n := |b| - 1;
      assert (a + b)[..|a + b| - 1] == a + b[..n];
      TallyOfConcat(a, b[..n], kind, id);
    }
  }

  /** The events an effect must emit, by the state it reaches. */
  predicate EventKindsFit(rows: RowTable, t: WagerTransaction, posts: bool, events: seq<Event>) {
    && (forall i | 0 <= i < |events| :: events[i].data.transactionId == t.id)
    && match t.state
       case PendingReference => if t.id in rows then events == []
            else |events| == 1 && KindOfEvent(events[0]) == OfPending
       case Rejected => |events| == 1 && KindOfEvent(events[0]) == OfRejected
       case Processed =>
         && |events| == (if posts then 2 else 1) && KindOfEvent(events[0]) == OfProcessed
         && (posts ==> KindOfEvent(events[1]) == OfBalance)
       case _ => false
  }

  lemma TallyOfFew(events: seq<Event>, kind: EventKind, id: TransactionId)
    requires |events| <= 2
    ensures Tally(events, kind, id) ==
            (if |events| > 0 && KindOfEvent(events[0]) == kind && events[0].data.transactionId == id then 1 else 0)
            + (if |events| > 1 && KindOfEvent(events[1]) == kind && events[1].data.transactionId == id then 1 else 0)
  {
    if |events| == 2 {
      assert events[..1] == [events[0]];
      assert events[..1][..0] == [];
      assert Tally(events[..1], kind, id) ==
               Tally([], kind, id)
               + if KindOfEvent(events[0]) == kind && events[0].data.transactionId == id then 1 else 0;
    } else if |events| == 1 {
      assert events[..0] == [];
    }
  }

  lemma TallyKept(rows: RowTable, outbox: seq<Event>, row: Row, posts: bool, events: seq<Event>)
    requires TallyOk(rows, outbox) && Placed(rows, row.txn) && EventKindsFit(rows, row.txn, posts, events)
    requires posts <==> row.txn.state == Processed && row.txn.kind != Loss
    requires row.txn.id in rows ==> rows[row.txn.id].txn.referenceDeadline != 0
    requires row.txn.id !in rows && row.txn.state == PendingReference ==> row.txn.referenceDeadline != 0
    ensures TallyOk(rows[row.txn.id := row], outbox + events)
  {
    forall kind, id ensures Tally(outbox + events, kind, id) == Expected(rows[row.txn.id := row], kind, id) {
      TallyOfConcat(outbox, events, kind, id);
      TallyOfFew(events, kind, id);
      ExpectedChange(rows, row, posts, events, kind, id);
    }
  }

  /** The row change and the emitted events agree, kind by kind. */
  lemma ExpectedChange(rows: RowTable, row: Row, posts: bool, events: seq<Event>, kind: EventKind, id: TransactionId)
    requires Placed(rows, row.txn) && EventKindsFit(rows, row.txn, posts, events)
    requires posts <==> row.txn.state == Processed && row.txn.kind != Loss
    requires row.txn.id in rows ==> rows[row.txn.id].txn.referenceDeadline != 0
    requires row.txn.id !in rows && row.txn.state == PendingReference ==> row.txn.referenceDeadline != 0
    ensures Expected(rows[row.txn.id := row], kind, id) ==
            Expected(rows, kind, id)
            + (if |events| > 0 && KindOfEvent(events[0]) == kind && events[0].data.transactionId == id then 1 else 0)
            + (if |events| > 1 && KindOfEvent(events[1]) == kind && events[1].data.transactionId == id then 1 else 0)
  {
    if id == row.txn.id {
      match kind
      case OfProcessed =>
      case OfRejected =>
      case OfBalance =>
      case OfPending =>
    }
  }

  lemma ReplayOfAppend(outbox: seq<Event>, e: Event, w: WalletId)
    ensures Replay(outbox + [e], w) ==
            if KindOfEvent(e) == OfBalance && e.data.walletId == w
               then (e.data.balanceAfter.minorUnits as int, e.data.walletVersion)
            else Replay(outbox, w)
  {
    assert (outbox + [e])[..|outbox|] == outbox;
  }

  lemma EventChainExtends(rows: RowTable, outbox: seq<Event>, e: Event)
    requires EventsChained(rows, outbox)
    requires KindOfEvent(e) == OfBalance && e.data.transactionId in rows ==>
               && e.data.balanceBefore.minorUnits == Replay(outbox, e.data.walletId).0
               && e.data.walletVersion == Replay(outbox, e.data.walletId).1
                                          + (if rows[e.data.transactionId].txn.kind == Opening then 0 else 1)
    ensures EventsChained(rows, outbox + [e])
  {
    var post := outbox + [e];
    forall i | 0 <= i < |post| ensures EventChain(rows, post, i) {
      assert post[..i] == outbox[..i];
      if i == |outbox| {
        assert outbox[..i] == outbox;
      } else {
        assert EventChain(rows, outbox, i);
      }
    }
  }

  lemma EventChainFrame(rows: RowTable, wallets: WalletTable, row: Row, outbox: seq<Event>)
    requires EventsOk(rows, wallets, outbox) && EventsChained(rows, outbox) && Placed(rows, row.txn)
    ensures EventsChained(rows[row.txn.id := row], outbox)
  {
    var after := rows[row.txn.id := row];
    forall i | 0 <= i < |outbox| ensures EventChain(after, outbox, i) {
      assert EventChain(rows, outbox, i) && EventOk(rows, wallets, outbox[i]);
    }
  }

  // ----- Conservation -----

  lemma ReversalOfAppend(claims: seq<ReversalClaim>, c: ReversalClaim, id: TransactionId)
    ensures ReversalOf(claims + [c], id) == if c.reference == id then c.reversal else ReversalOf(claims, id)
  {
    assert (claims + [c])[..|claims|] == claims;
  }

  lemma HasClaimOfAppend(claims: seq<ReversalClaim>, c: ReversalClaim, id: TransactionId)
    ensures HasClaim(claims + [c], id) <==> HasClaim(claims, id) || c.reference == id
  {
    var post := claims + [c];
    assert post[|claims|] == c;
    if HasClaim(claims, id) {
      var i :| 0 <= i < |claims| && claims[i].reference == id;
      assert post[i].reference == id;
    }
  }

  /** Looking a compensation up gives the one claim on the operation, and 0 exactly without a claim. */
  lemma {:induction false} ReversalOfIsTheClaim(rows: RowTable, claims: seq<ReversalClaim>, id: TransactionId)
    requires forall i | 0 <= i < |claims| :: ClaimOk(rows, claims[i]) && claims[i].reversal != 0
    ensures HasClaim(claims, id) <==> ReversalOf(claims, id) != 0
    ensures ReversalOf(claims, id) != 0 ==>
              exists i | 0 <= i < |claims| :: claims[i].reference == id && claims[i].reversal == ReversalOf(claims, id)
  {
    if claims != [] {
      var init, last := claims[..|claims| - 1], claims[|claims| - 1];
      HasClaimOfAppend(init, last, id);
      assert claims == init + [last];
      ReversalOfIsTheClaim(rows, init, id);
      if last.reference == id {
        assert claims[|claims| - 1].reversal == ReversalOf(claims, id);
      } else if ReversalOf(init, id) != 0 {
        var i :| 0 <= i < |init| && init[i].reference == id && init[i].reversal == ReversalOf(init, id);
        assert claims[i] == init[i];
      }
    }
  }

  /** If every posted operation keeps its net effect, so does every total. */
  lemma {:induction false} NetTotalFrame(rows: RowTable, claims: seq<ReversalClaim>, after: RowTable,
                                         claimsAfter: seq<ReversalClaim>,
                                         ledger: seq<LedgerEntry>, w: WalletId)
    requires forall i | 0 <= i < |ledger| && ledger[i].walletId == w ::
               NetEffect(after, claimsAfter, ledger[i].transactionId) ==
                   NetEffect(rows, claims, ledger[i].transactionId)
    ensures NetTotal(after, claimsAfter, ledger, w) == NetTotal(rows, claims, ledger, w)
  {
    if ledger != [] {
      NetTotalFrame(rows, claims, after, claimsAfter, ledger[..|ledger| - 1], w);
    }
  }

  /** If exactly one posting's operation changes its net effect, the total changes by as much. */
  lemma {:induction false} NetTotalChange(rows: RowTable, claims: seq<ReversalClaim>, after: RowTable,
                                          claimsAfter: seq<ReversalClaim>,
                                          ledger: seq<LedgerEntry>, k: nat)
    requires k < |ledger|
    requires forall i | 0 <= i < |ledger| && i != k ::
               NetEffect(after, claimsAfter, ledger[i].transactionId) ==
                   NetEffect(rows, claims, ledger[i].transactionId)
    ensures NetTotal(after, claimsAfter, ledger, ledger[k].walletId) ==
            NetTotal(rows, claims, ledger, ledger[k].walletId)
            + NetEffect(after, claimsAfter, ledger[k].transactionId) - NetEffect(rows, claims, ledger[k].transactionId)
  {
    var n := |ledger| - 1;
    if k == n {
      NetTotalFrame(rows, claims, after, claimsAfter, ledger[..n], ledger[k].walletId);
    } else {
      NetTotalChange(rows, claims, after, claimsAfter, ledger[..n], k);
    }
  }

  lemma NetTotalOfAppend(rows: RowTable, claims: seq<ReversalClaim>, ledger: seq<LedgerEntry>, e: LedgerEntry,
                         w: WalletId)
    ensures NetTotal(rows, claims, ledger + [e], w) ==
            NetTotal(rows, claims, ledger, w) + if e.walletId == w then NetEffect(rows, claims, e.transactionId) else 0
  {
    assert (ledger + [e])[..|ledger|] == ledger;
  }

  /** A found compensation is a processed row that names the operation it reverses. */
  lemma ReversalFacts(rows: RowTable, claims: seq<ReversalClaim>, x: TransactionId)
    requires ClaimsOk(rows, claims) && 0 !in rows
    ensures HasClaim(claims, x) <==> ReversalOf(claims, x) != 0
    ensures var r := ReversalOf(claims, x);
            r != 0 ==>
                IsProcessed(rows, x) && IsProcessed(rows, r) && rows[r].txn.referenceId == x
                  && MayReverse(rows[r].txn.kind, rows[x].txn.kind)
  {
    forall i | 0 <= i < |claims| ensures ClaimOk(rows, claims[i]) && claims[i].reversal != 0 {
    }
    ReversalOfIsTheClaim(rows, claims, x);
  }

  /** The reversal a processed compensation stands for is the one found under its reference. */
  lemma ReversalOfReference(rows: RowTable, claims: seq<ReversalClaim>, y: TransactionId)
    requires ClaimsOk(rows, claims) && 0 !in rows && IsProcessed(rows, y) && IsClaimingKind(rows[y].txn.kind)
    ensures ReversalOf(claims, rows[y].txn.referenceId) == y
    ensures IsProcessed(rows, rows[y].txn.referenceId)
    ensures ClaimOk(rows, ReversalClaim(0, rows[y].txn.referenceId, y, 0))
  {
    assert IsReversal(claims, y);
    var i :| 0 <= i < |claims| && claims[i].reversal == y;
    assert ClaimOk(rows, claims[i]);
    var b := rows[y].txn.referenceId;
    assert claims[i].reference == b;
    ReversalFacts(rows, claims, b);
    assert HasClaim(claims, b);
    forall k | 0 <= k < |claims| ensures ClaimOk(rows, claims[k]) && claims[k].reversal != 0 {
    }
    ReversalOfIsTheClaim(rows, claims, b);
    var j :| 0 <= j < |claims| && claims[j].reference == b && claims[j].reversal == ReversalOf(claims, b);
    assert i == j;
  }

  lemma NetEffectFrame(rows: RowTable, claims: seq<ReversalClaim>, row: Row, x: TransactionId)
    requires ClaimsOk(rows, claims) && 0 !in rows && Placed(rows, row.txn) && IsProcessed(rows, x)
    ensures NetEffect(rows[row.txn.id := row], claims, x) == NetEffect(rows, claims, x)
  {
    ReversalFacts(rows, claims, x);
  }

  /** The operation whose standing a compensation changes: its reference, or the bet behind a refund it rolls back. */
  function RootOf(rows: RowTable, reference: TransactionId): TransactionId {
    if reference in rows && rows[reference].txn.kind == Refund then rows[reference].txn.referenceId else reference
  }

  predicate NewClaim(rows: RowTable, claims: seq<ReversalClaim>, row: Row, c: ReversalClaim) {
    && Placed(rows, row.txn) && row.txn.id != 0 && IsProcessed(rows, c.reference) && !HasClaim(claims, c.reference)
    && ClaimOk(rows[row.txn.id := row], c) && c.reversal == row.txn.id
  }

  lemma NetEffectElsewhere(rows: RowTable, claims: seq<ReversalClaim>, row: Row, c: ReversalClaim, x: TransactionId)
    requires ClaimsOk(rows, claims) && 0 !in rows && NewClaim(rows, claims, row, c)
    requires IsProcessed(rows, x) && x != RootOf(rows, c.reference)
    ensures NetEffect(rows[row.txn.id := row], claims + [c], x) == NetEffect(rows, claims, x)
  {
    ReversalFacts(rows, claims, x);
    ReversalOfAppend(claims, c, x);
    var r := ReversalOf(claims, x);
    ReversalOfAppend(claims, c, r);
  }

  /** The new compensation gives back, or takes again, exactly what its posting says. */
  lemma NetEffectAtRoot(rows: RowTable, claims: seq<ReversalClaim>, row: Row, c: ReversalClaim)
    requires ClaimsOk(rows, claims) && 0 !in rows && NewClaim(rows, claims, row, c)
    ensures var root := RootOf(rows, c.reference);
            && IsProcessed(rows, root) && rows[root].txn.kind != Loss && rows[root].txn.walletId == row.txn.walletId
            && NetEffect(rows[row.txn.id := row], claims + [c], root) - NetEffect(rows, claims, root) ==
               if DirectionOf(rows, row.txn) == Credit then row.txn.amount.minorUnits
                  else -(row.txn.amount.minorUnits as int)
  {
    var y := c.reference;
    var root := RootOf(rows, y);
    ReversalFacts(rows, claims, y);
    ReversalFacts(rows, claims, row.txn.id);
    ReversalOfAppend(claims, c, y);
    ReversalOfAppend(claims, c, row.txn.id);
    if rows[y].txn.kind == Refund {
      ReversalOfReference(rows, claims, y);
      ReversalOfAppend(claims, c, root);
    }
  }

  /** A new operation without compensations counts for what its posting says; a compensation counts for nothing
      itself. */
  lemma NetEffectOfNew(rows: RowTable, claims: seq<ReversalClaim>, claimsAfter: seq<ReversalClaim>, row: Row)
    requires ClaimsOk(rows, claims) && 0 !in rows && Placed(rows, row.txn) && row.txn.state == Processed
    requires row.txn.kind.Valid() && row.txn.kind != Loss
    requires IsClaimingKind(row.txn.kind) || claimsAfter == claims
    ensures NetEffect(rows[row.txn.id := row], claimsAfter, row.txn.id) ==
            if IsClaimingKind(row.txn.kind) then 0
            else if DirectionOf(rows, row.txn) == Credit then row.txn.amount.minorUnits
                    else -(row.txn.amount.minorUnits as int)
  {
    ReversalFacts(rows, claims, row.txn.id);
  }

  lemma NetKept(rows: RowTable, claims: seq<ReversalClaim>, ledger: seq<LedgerEntry>, row: Row, w: WalletId)
    requires LedgerOk(rows, ledger) && ClaimsOk(rows, claims) && 0 !in rows && Placed(rows, row.txn)
    ensures NetTotal(rows[row.txn.id := row], claims, ledger, w) == NetTotal(rows, claims, ledger, w)
  {
    var after := rows[row.txn.id := row];
    forall i | 0 <= i < |ledger| && ledger[i].walletId == w
      ensures NetEffect(after, claims, ledger[i].transactionId) == NetEffect(rows, claims, ledger[i].transactionId)
    {
      assert EntryOk(rows, ledger[i]);
      NetEffectFrame(rows, claims, row, ledger[i].transactionId);
    }
    NetTotalFrame(rows, claims, after, claims, ledger, w);
  }

  lemma NetAfterClaim(rows: RowTable, claims: seq<ReversalClaim>, ledger: seq<LedgerEntry>, row: Row, c: ReversalClaim,
                      w: WalletId)
    requires LedgerOk(rows, ledger) && ClaimsOk(rows, claims) && 0 !in rows && NewClaim(rows, claims, row, c)
    ensures NetTotal(rows[row.txn.id := row], claims + [c], ledger, w) ==
            NetTotal(rows, claims, ledger, w)
            + if w != row.txn.walletId then 0
              else if DirectionOf(rows, row.txn) == Credit then row.txn.amount.minorUnits
                      else -(row.txn.amount.minorUnits as int)
  {
    var after, claimsAfter := rows[row.txn.id := row], claims + [c];
    var root := RootOf(rows, c.reference);
    NetEffectAtRoot(rows, claims, row, c);
    assert Posted(rows, root) && HasEntry(ledger, root);
    var k :| 0 <= k < |ledger| && ledger[k].transactionId == root;
    assert EntryOk(rows, ledger[k]);
    forall i | 0 <= i < |ledger| && i != k
      ensures NetEffect(after, claimsAfter, ledger[i].transactionId) == NetEffect(rows, claims, ledger[i].transactionId)
    {
      assert EntryOk(rows, ledger[i]);
      NetEffectElsewhere(rows, claims, row, c, ledger[i].transactionId);
    }
    if w == row.txn.walletId {
      NetTotalChange(rows, claims, after, claimsAfter, ledger, k);
    } else {
      NetTotalFrame(rows, claims, after, claimsAfter, ledger, w);
    }
  }

  /** Posting an operation moves its wallet's total by the signed amount of the posting, and no other total. */
  lemma NetPosted(rows: RowTable, claims: seq<ReversalClaim>, ledger: seq<LedgerEntry>, row: Row, entry: LedgerEntry,
                  claim: Option<ReversalClaim>, w: WalletId)
    requires LedgerOk(rows, ledger) && ClaimsOk(rows, claims) && 0 !in rows && Placed(rows, row.txn) && row.txn.id != 0
    requires row.txn.state == Processed && row.txn.kind.Valid() && row.txn.kind != Loss
    requires entry.transactionId == row.txn.id && entry.walletId == row.txn.walletId && entry.amount == row.txn.amount
    requires entry.direction == DirectionOf(rows, row.txn)
    requires claim.Some? <==> IsClaimingKind(row.txn.kind)
    requires claim.Some? ==> NewClaim(rows, claims, row, claim.value)
    ensures NetTotal(rows[row.txn.id := row], if claim.Some? then claims + [claim.value] else claims,
                     ledger + [entry], w) ==
            NetTotal(rows, claims, ledger, w) + if w == entry.walletId then Signed(entry) else 0
  {
    var after := rows[row.txn.id := row];
    var claimsAfter := if claim.Some? then claims + [claim.value] else claims;
    NetTotalOfAppend(after, claimsAfter, ledger, entry, w);
    NetEffectOfNew(rows, claims, claimsAfter, row);
    if claim.Some? {
      NetAfterClaim(rows, claims, ledger, row, claim.value, w);
    } else {
      NetKept(rows, claims, ledger, row, w);
    }
  }
}
