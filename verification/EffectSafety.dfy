/** A settled effect takes good tables to good tables. */
module EffectSafety {
  import opened Wager
  import opened Wallets
  import opened Resolution
  import opened Tables
  import opened Settlement
  import opened Invariants
  import opened Preservation

  function VersionStep(kind: Kind): int {
    if kind == Opening then 0 else 1
  }

  /** The posting starts where the ledger, the events and the net effects of its wallet stand. */
  ghost predicate StartsAtBalance(db: Db, tr: Transfer, kind: Kind) {
    var w := tr.wallet.id;
    && tr.entry.balanceBefore.minorUnits == LastBalance(db.ledger, w)
    && tr.entry.balanceBefore.minorUnits == NetTotal(db.rows, db.claims, db.ledger, w)
    && tr.wallet.version == 1 + Movements(db.rows, db.ledger, w) + VersionStep(kind)
    && Replay(db.outbox, w) == (tr.entry.balanceBefore.minorUnits as int, tr.wallet.version - VersionStep(kind))
  }

  ghost predicate TransferFits(db: Db, tr: Transfer, row: Row) {
    var t := row.txn;
    && tr.wallet.id == t.walletId && t.walletId in db.wallets
    && WalletOk(tr.wallet) && OwnerOf(tr.wallet) == OwnerOf(db.wallets[t.walletId])
    && tr.wallet.balance == t.observedBalance
    && tr.entry.transactionId == t.id && EntryOk(db.rows[t.id := row], tr.entry)
    && (forall i | 0 <= i < |db.ledger| :: db.ledger[i].id != tr.entry.id)
    && t.referenceId != t.id
    && StartsAtBalance(db, tr, t.kind)
    && (tr.claim.Some? <==> IsClaimingKind(t.kind))
    && (tr.claim.Some? ==> NewClaim(db.rows, db.claims, row, tr.claim.value))
  }

  ghost predicate EventsFit(db: Db, e: Effect, serial: nat) {
    && EventKindsFit(db.rows, e.row.txn, e.transfer.Some?, e.events)
    && (forall i | 0 <= i < |e.events| ::
          e.events[i].id == 2 * serial + i && EventOk(db.rows[e.row.txn.id := e.row], db.wallets, e.events[i]))
    && (forall i | 0 <= i < |db.outbox| :: db.outbox[i].id != 2 * serial && db.outbox[i].id != 2 * serial + 1)
    && (e.transfer.Some? ==>
          && e.row.txn.state == Processed
          && e.events[1].data.balanceBefore == e.transfer.value.entry.balanceBefore
          && e.events[1].data.balanceAfter == e.transfer.value.entry.balanceAfter
          && e.events[1].data.walletVersion == e.transfer.value.wallet.version)
  }

  ghost predicate RowFits(db: Db, row: Row) {
    var t := row.txn;
    && RowOk(row) && t.id != 0 && Placed(db.rows, t)
    && FreeKey(db.rows, db.byKey, KeyOf(t), t) && FreeKey(db.rows, db.byExternal, ExternalOf(t), t)
    && t.walletId in db.wallets && t.amount.currency == db.wallets[t.walletId].currency
    && (t.referenceId != 0 ==> t.referenceId in db.rows || t.referenceId == t.id)
    && (t.id in db.rows ==> db.rows[t.id].txn.referenceDeadline != 0)
    && (t.id !in db.rows && t.state == PendingReference ==> t.referenceDeadline != 0)
  }

  ghost predicate EffectOk(db: Db, e: Effect, serial: nat) {
    && RowFits(db, e.row)
    && (e.transfer.Some? <==> e.row.txn.state == Processed && e.row.txn.kind != Loss)
    && (e.transfer.Some? ==> TransferFits(db, e.transfer.value, e.row))
    && EventsFit(db, e, serial)
  }

  /** All wallets agree, except that a wallet about to receive a posting is judged by where the posting starts. */
  ghost predicate OthersAgree(db: Db, e: Effect) {
    forall w | w in db.wallets && (e.transfer.Some? ==> w != e.row.txn.walletId) :: WalletAgrees(db, w)
  }

  lemma NoZeroRow(rows: RowTable, wallets: WalletTable)
    requires RowsOk(rows, wallets)
    ensures 0 !in rows
  {
  }

  /** The invariants one by one. */
  lemma StructureParts(db: Db)
    requires StructureOk(db)
    ensures WalletsOk(db.wallets, db.owners) && RowsOk(db.rows, db.wallets)
    ensures LedgerOk(db.rows, db.ledger) && Chained(db.ledger) && ClaimsOk(db.rows, db.claims)
    ensures EventsOk(db.rows, db.wallets, db.outbox) && TallyOk(db.rows, db.outbox) && EventsChained(db.rows, db.outbox)
    ensures 0 !in db.rows
  {
    NoZeroRow(db.rows, db.wallets);
  }

  /** What an effect owes the row, the ledger and the claims. */
  lemma EffectOwes(db: Db, e: Effect, serial: nat)
    requires EffectOk(db, e, serial)
    ensures RowFits(db, e.row) && EventsFit(db, e, serial) && Placed(db.rows, e.row.txn) && e.row.txn.id != 0
            && e.row.txn.kind.Valid()
    ensures e.transfer.Some? <==> e.row.txn.state == Processed && e.row.txn.kind != Loss
    ensures e.transfer.Some? ==>
              var tr := e.transfer.value;
              && TransferFits(db, tr, e.row)
              && tr.entry.transactionId == e.row.txn.id && EntryOk(db.rows[e.row.txn.id := e.row], tr.entry)
              && (forall i | 0 <= i < |db.ledger| :: db.ledger[i].id != tr.entry.id)
              && tr.entry.balanceBefore.minorUnits == LastBalance(db.ledger, tr.entry.walletId)
              && tr.entry.walletId == tr.wallet.id == e.row.txn.walletId && tr.entry.amount == e.row.txn.amount
              && tr.wallet.id in db.wallets && OwnerOf(tr.wallet) == OwnerOf(db.wallets[tr.wallet.id])
                 && WalletOk(tr.wallet)
              && (tr.claim.Some? <==> IsClaimingKind(e.row.txn.kind))
              && (tr.claim.Some? ==> NewClaim(db.rows, db.claims, e.row, tr.claim.value))
  {
    hide NewClaim, WalletOk;
  }

  lemma NewClaimParts(rows: RowTable, claims: seq<ReversalClaim>, row: Row, c: ReversalClaim)
    requires NewClaim(rows, claims, row, c)
    ensures ClaimOk(rows[row.txn.id := row], c) && c.reversal == row.txn.id && !HasClaim(claims, c.reference)
  {
  }

  lemma WalletSideKept(db: Db, e: Effect, serial: nat)
    requires StructureOk(db) && EffectOk(db, e, serial)
    ensures var after := ApplyEffect(db, e);
            WalletsOk(after.wallets, after.owners) && RowsOk(after.rows, after.wallets)
              && InboxOk(after.inbox, after.byKey)
  {
    RowsKept(db.rows, db.wallets, e.row);
    if e.transfer.Some? {
      WalletsKept(db.wallets, db.owners, e.transfer.value.wallet);
      RowsKeptByWallet(db.rows[e.row.txn.id := e.row], db.wallets, e.transfer.value.wallet);
    }
  }

  lemma IndexSideKept(db: Db, e: Effect, serial: nat)
    requires StructureOk(db) && EffectOk(db, e, serial)
    ensures var after := ApplyEffect(db, e);
            IndexOk(after.rows, after.byKey, KeyOf) && IndexOk(after.rows, after.byExternal, ExternalOf)
  {
    IndexKept(db.rows, db.byKey, KeyOf, e.row);
    IndexKept(db.rows, db.byExternal, ExternalOf, e.row);
  }

  lemma LedgerSideKept(db: Db, e: Effect, serial: nat)
    requires StructureOk(db) && EffectOk(db, e, serial)
    ensures var after := ApplyEffect(db, e);
            LedgerOk(after.rows, after.ledger) && Chained(after.ledger) && ClaimsOk(after.rows, after.claims)
  {
    StructureParts(db);
    EffectOwes(db, e, serial);
    hide StructureOk, EffectOk, RowFits, TransferFits, EventsFit, RowsOk, LedgerOk, Chained, ClaimsOk, Placed, EntryOk,
         NewClaim, LastBalance, HasClaim;
    if e.transfer.Some? {
      var tr := e.transfer.value;
      LedgerPosted(db.rows, db.wallets, db.ledger, e.row, tr.entry);
      ChainExtends(db.ledger, tr.entry);
      if tr.claim.Some? {
        NewClaimParts(db.rows, db.claims, e.row, tr.claim.value);
        ClaimsExtended(db.rows, db.claims, e.row, tr.claim.value);
      } else {
        ClaimsKept(db.rows, db.claims, e.row);
      }
    } else {
      LedgerKept(db.rows, db.wallets, db.ledger, e.row);
      ClaimsKept(db.rows, db.claims, e.row);
    }
  }

  lemma SameOwnerSamePlayer(a: Wallet, b: Wallet)
    requires OwnerOf(a) == OwnerOf(b)
    ensures a.playerId == b.playerId
  {
  }

  lemma OutboxKept(db: Db, e: Effect, serial: nat)
    requires StructureOk(db) && EffectOk(db, e, serial)
    ensures EventsOk(db.rows[e.row.txn.id := e.row], db.wallets, db.outbox + e.events)
    ensures TallyOk(db.rows[e.row.txn.id := e.row], db.outbox + e.events)
  {
    StructureParts(db);
    EffectOwes(db, e, serial);
    assert EventKindsFit(db.rows, e.row.txn, e.transfer.Some?, e.events) && |e.events| <= 2;
    hide StructureOk, EffectOk, TransferFits, RowsOk, EventsOk, TallyOk, Placed, EventOk, EntryOk, NewClaim,
         EventKindsFit, WalletOk, OwnerOf;
    EventsKept(db.rows, db.wallets, db.outbox, e.row, e.events, serial);
    TallyKept(db.rows, db.outbox, e.row, e.transfer.Some?, e.events);
  }

  lemma EventSideKept(db: Db, e: Effect, serial: nat)
    requires StructureOk(db) && EffectOk(db, e, serial)
    ensures var after := ApplyEffect(db, e);
            EventsOk(after.rows, after.wallets, after.outbox) && TallyOk(after.rows, after.outbox)
  {
    EffectOwes(db, e, serial);
    OutboxKept(db, e, serial);
    hide StructureOk, EffectOk, RowFits, EventsFit, TransferFits, EventsOk, TallyOk, Placed, EntryOk, NewClaim,
         WalletOk, OwnerOf;
    if e.transfer.Some? {
      SameOwnerSamePlayer(e.transfer.value.wallet, db.wallets[e.row.txn.walletId]);
      EventsKeptByWallet(db.rows[e.row.txn.id := e.row], db.wallets, db.outbox + e.events, e.transfer.value.wallet);
    }
  }

  lemma ReplayAfterQuiet(outbox: seq<Event>, events: seq<Event>, w: WalletId)
    requires |events| <= 1 && (|events| == 1 ==> KindOfEvent(events[0]) != OfBalance)
    ensures Replay(outbox + events, w) == Replay(outbox, w)
  {
    if events == [] {
      assert outbox + events == outbox;
    } else {
      assert outbox + events == outbox + [events[0]];
      ReplayOfAppend(outbox, events[0], w);
    }
  }

  lemma ReplayAfterPosting(outbox: seq<Event>, events: seq<Event>, w: WalletId)
    requires |events| == 2 && KindOfEvent(events[0]) == OfProcessed && KindOfEvent(events[1]) == OfBalance
    ensures Replay(outbox + events, w) ==
            if w == events[1].data.walletId then (events[1].data.balanceAfter.minorUnits as int,
                                                  events[1].data.walletVersion)
            else Replay(outbox, w)
  {
    assert outbox + events == outbox + [events[0]] + [events[1]];
    ReplayOfAppend(outbox, events[0], w);
    ReplayOfAppend(outbox + [events[0]], events[1], w);
  }

  lemma ChainAfterQuiet(rows: RowTable, outbox: seq<Event>, events: seq<Event>)
    requires EventsChained(rows, outbox)
    requires |events| <= 1 && (|events| == 1 ==> KindOfEvent(events[0]) != OfBalance)
    ensures EventsChained(rows, outbox + events)
  {
    if events == [] {
      assert outbox + events == outbox;
    } else {
      assert outbox + events == outbox + [events[0]];
      EventChainExtends(rows, outbox, events[0]);
    }
  }

  lemma ChainAfterPosting(rows: RowTable, outbox: seq<Event>, events: seq<Event>)
    requires EventsChained(rows, outbox)
    requires |events| == 2 && KindOfEvent(events[0]) == OfProcessed && KindOfEvent(events[1]) == OfBalance
    requires events[1].data.transactionId in rows
    requires events[1].data.balanceBefore.minorUnits == Replay(outbox, events[1].data.walletId).0
    requires events[1].data.walletVersion == Replay(outbox, events[1].data.walletId).1
                                             + VersionStep(rows[events[1].data.transactionId].txn.kind)
    ensures EventsChained(rows, outbox + events)
  {
    assert outbox + events == outbox + [events[0]] + [events[1]];
    EventChainExtends(rows, outbox, events[0]);
    ReplayOfAppend(outbox, events[0], events[1].data.walletId);
    EventChainExtends(rows, outbox + [events[0]], events[1]);
  }

  /** The shape of the events of an effect that posts nothing, and of one that posts. */
  lemma EventShapes(db: Db, e: Effect, serial: nat)
    requires EventsFit(db, e, serial) && (e.transfer.Some? <==> e.row.txn.state == Processed && e.row.txn.kind != Loss)
    ensures e.transfer.None? ==> |e.events| <= 1 && (|e.events| == 1 ==> KindOfEvent(e.events[0]) != OfBalance)
    ensures e.transfer.Some? ==>
              && |e.events| == 2 && KindOfEvent(e.events[0]) == OfProcessed && KindOfEvent(e.events[1]) == OfBalance
              && e.events[1].data.transactionId == e.row.txn.id && e.events[1].data.walletId == e.row.txn.walletId
  {
    if e.transfer.Some? {
      assert EventOk(db.rows[e.row.txn.id := e.row], db.wallets, e.events[1]);
    }
  }

  lemma EventChainKept(db: Db, e: Effect, serial: nat)
    requires StructureOk(db) && EffectOk(db, e, serial)
    ensures EventsChained(ApplyEffect(db, e).rows, ApplyEffect(db, e).outbox)
  {
    var rows := db.rows[e.row.txn.id := e.row];
    EventChainFrame(db.rows, db.wallets, e.row, db.outbox);
    EventShapes(db, e, serial);
    if e.transfer.Some? {
      assert StartsAtBalance(db, e.transfer.value, e.row.txn.kind);
      ChainAfterPosting(rows, db.outbox, e.events);
    } else {
      ChainAfterQuiet(rows, db.outbox, e.events);
    }
  }

  lemma NoPostingOf(rows: RowTable, wallets: WalletTable, ledger: seq<LedgerEntry>, row: Row)
    requires RowsOk(rows, wallets) && LedgerOk(rows, ledger) && Placed(rows, row.txn) && row.txn.id != 0
    ensures forall i | 0 <= i < |ledger| :: ledger[i].transactionId != row.txn.id
  {
    forall i | 0 <= i < |ledger| ensures ledger[i].transactionId != row.txn.id {
      EntryKept(rows, wallets, row, ledger[i]);
    }
  }

  /** A wallet that receives nothing agrees as before. */
  lemma AgreementUntouched(db: Db, e: Effect, serial: nat, w: WalletId)
    requires StructureOk(db) && EffectOk(db, e, serial) && w in db.wallets && WalletAgrees(db, w)
    requires e.transfer.None?
    ensures WalletAgrees(ApplyEffect(db, e), w)
  {
    NoZeroRow(db.rows, db.wallets);
    NoPostingOf(db.rows, db.wallets, db.ledger, e.row);
    assert db.wallets[w].id == w;
    MovementsFrame(db.rows, e.row, db.ledger, w);
    NetKept(db.rows, db.claims, db.ledger, e.row, w);
    EventShapes(db, e, serial);
    ReplayAfterQuiet(db.outbox, e.events, w);
  }

  /** What a posting does to the four accounts of any wallet. */
  ghost predicate AccountsMoved(db: Db, after: Db, tr: Transfer, kind: Kind, w: WalletId) {
    && LastBalance(after.ledger, w) == (if w == tr.wallet.id then tr.entry.balanceAfter.minorUnits
                                        else LastBalance(db.ledger, w))
    && Movements(after.rows, after.ledger, w) ==
       Movements(db.rows, db.ledger, w) + (if w == tr.wallet.id then VersionStep(kind) else 0)
    && Replay(after.outbox, w) ==
       (if w == tr.wallet.id then (tr.entry.balanceAfter.minorUnits as int, tr.wallet.version)
        else Replay(db.outbox, w))
    && NetTotal(after.rows, after.claims, after.ledger, w) ==
       NetTotal(db.rows, db.claims, db.ledger, w) + (if w == tr.wallet.id then Signed(tr.entry) else 0)
  }

  /** The posting goes the way its row dictates, and its balance event repeats it. */
  lemma PostedAt(db: Db, e: Effect, serial: nat)
    requires StructureOk(db) && EffectOk(db, e, serial) && e.transfer.Some?
    ensures var tr := e.transfer.value;
            && tr.entry.direction == DirectionOf(db.rows, e.row.txn)
            && e.events[1].data.balanceAfter.minorUnits == tr.entry.balanceAfter.minorUnits
            && e.events[1].data.walletVersion == tr.wallet.version
  {
    EffectOwes(db, e, serial);
    hide StructureOk, EffectOk, RowFits, LedgerOk, ClaimsOk, StartsAtBalance, NewClaim;
    DirectionKept(db.rows, e.row, e.row.txn);
  }

  lemma LedgerAccountsMove(db: Db, e: Effect, serial: nat, w: WalletId)
    requires StructureOk(db) && EffectOk(db, e, serial) && e.transfer.Some?
    ensures var rows, tr := db.rows[e.row.txn.id := e.row], e.transfer.value;
            && LastBalance(db.ledger + [tr.entry], w) ==
               (if w == tr.wallet.id then tr.entry.balanceAfter.minorUnits else LastBalance(db.ledger, w))
            && Movements(rows, db.ledger + [tr.entry], w) ==
               Movements(db.rows, db.ledger, w) + (if w == tr.wallet.id then VersionStep(e.row.txn.kind) else 0)
  {
    StructureParts(db);
    EffectOwes(db, e, serial);
    hide StructureOk, EffectOk, RowFits, TransferFits, EventsFit, RowsOk, LedgerOk, Placed, EntryOk, NewClaim,
         LastBalance, Movements;
    var rows, tr := db.rows[e.row.txn.id := e.row], e.transfer.value;
    LastBalanceOfAppend(db.ledger, tr.entry, w);
    NoPostingOf(db.rows, db.wallets, db.ledger, e.row);
    MovementsFrame(db.rows, e.row, db.ledger, w);
    MovementsOfAppend(rows, db.ledger, tr.entry, w);
  }

  lemma NetAccountMoves(db: Db, e: Effect, serial: nat, w: WalletId)
    requires StructureOk(db) && EffectOk(db, e, serial) && e.transfer.Some?
    ensures var tr := e.transfer.value;
            NetTotal(db.rows[e.row.txn.id := e.row],
                     if tr.claim.Some? then db.claims + [tr.claim.value] else db.claims,
                     db.ledger + [tr.entry], w) ==
            NetTotal(db.rows, db.claims, db.ledger, w) + (if w == tr.wallet.id then Signed(tr.entry) else 0)
  {
    StructureParts(db);
    EffectOwes(db, e, serial);
    PostedAt(db, e, serial);
    hide StructureOk, EffectOk, RowFits, TransferFits, EventsFit, LedgerOk, ClaimsOk, Placed, EntryOk, NewClaim,
         NetTotal, DirectionOf, Signed;
    NetPosted(db.rows, db.claims, db.ledger, e.row, e.transfer.value.entry, e.transfer.value.claim, w);
  }

  lemma EventAccountMoves(db: Db, e: Effect, serial: nat, w: WalletId)
    requires StructureOk(db) && EffectOk(db, e, serial) && e.transfer.Some?
    ensures var tr := e.transfer.value;
            Replay(db.outbox + e.events, w) ==
            (if w == tr.wallet.id then (tr.entry.balanceAfter.minorUnits as int, tr.wallet.version)
             else Replay(db.outbox, w))
  {
    EffectOwes(db, e, serial);
    EventShapes(db, e, serial);
    PostedAt(db, e, serial);
    hide StructureOk, EffectOk, RowFits, TransferFits, EventsFit, EntryOk, NewClaim, LastBalance, Replay, DirectionOf,
         Placed;
    ReplayAfterPosting(db.outbox, e.events, w);
  }

  lemma PostedTables(db: Db, e: Effect)
    requires e.transfer.Some?
    ensures var after, tr := ApplyEffect(db, e), e.transfer.value;
            && after.rows == db.rows[e.row.txn.id := e.row] && after.ledger == db.ledger + [tr.entry]
            && after.claims == (if tr.claim.Some? then db.claims + [tr.claim.value] else db.claims)
            && after.outbox == db.outbox + e.events
  {
  }

  lemma AccountsAfterPosting(db: Db, e: Effect, serial: nat, w: WalletId)
    requires StructureOk(db) && EffectOk(db, e, serial) && e.transfer.Some?
    ensures AccountsMoved(db, ApplyEffect(db, e), e.transfer.value, e.row.txn.kind, w)
  {
    hide StructureOk, EffectOk, ApplyEffect, LastBalance, Movements, Replay, NetTotal, Signed, VersionStep;
    LedgerAccountsMove(db, e, serial, w);
    NetAccountMoves(db, e, serial, w);
    EventAccountMoves(db, e, serial, w);
    PostedTables(db, e);
  }

  lemma AgreementFromAccounts(db: Db, after: Db, tr: Transfer, kind: Kind, w: WalletId)
    requires w in db.wallets && db.wallets[w].id == w && after.wallets == db.wallets[tr.wallet.id := tr.wallet]
    requires AccountsMoved(db, after, tr, kind, w)
    requires w != tr.wallet.id ==> WalletAgrees(db, w)
    requires StartsAtBalance(db, tr, kind) && tr.wallet.balance == tr.entry.balanceAfter
    requires tr.entry.balanceAfter.minorUnits == tr.entry.balanceBefore.minorUnits + Signed(tr.entry)
    ensures WalletAgrees(after, w)
  {
  }

  lemma PostingArithmetic(db: Db, tr: Transfer, row: Row)
    requires TransferFits(db, tr, row)
    ensures tr.wallet.balance == tr.entry.balanceAfter && tr.wallet.id == row.txn.walletId
            && StartsAtBalance(db, tr, row.txn.kind)
    ensures tr.entry.balanceAfter.minorUnits == tr.entry.balanceBefore.minorUnits + Signed(tr.entry)
  {
    assert EntryOk(db.rows[row.txn.id := row], tr.entry);
  }

  lemma AgreementPosted(db: Db, e: Effect, w: WalletId)
    requires e.transfer.Some? && TransferFits(db, e.transfer.value, e.row) && OthersAgree(db, e)
    requires w in db.wallets && db.wallets[w].id == w
    requires AccountsMoved(db, ApplyEffect(db, e), e.transfer.value, e.row.txn.kind, w)
    ensures WalletAgrees(ApplyEffect(db, e), w)
  {
    PostingArithmetic(db, e.transfer.value, e.row);
    AgreementFromAccounts(db, ApplyEffect(db, e), e.transfer.value, e.row.txn.kind, w);
  }

  lemma WalletsOfStructure(db: Db, e: Effect, serial: nat)
    requires StructureOk(db) && EffectOk(db, e, serial)
    ensures WalletsOk(db.wallets, db.owners) && (e.transfer.Some? ==> TransferFits(db, e.transfer.value, e.row))
  {
  }

  lemma AgreementKept(db: Db, e: Effect, serial: nat, w: WalletId)
    requires StructureOk(db) && EffectOk(db, e, serial) && OthersAgree(db, e) && w in db.wallets
    ensures WalletAgrees(ApplyEffect(db, e), w)
  {
    hide StructureOk, EffectOk, TransferFits, AccountsMoved, ApplyEffect, WalletAgrees, Agrees, WalletsOk;
    WalletsOfStructure(db, e, serial);
    if e.transfer.Some? {
      WalletKnowsItsId(db.wallets, db.owners, w);
      AccountsAfterPosting(db, e, serial, w);
      AgreementPosted(db, e, w);
    } else {
      AgreementUntouched(db, e, serial, w);
    }
  }

  lemma WalletKnowsItsId(wallets: WalletTable, owners: map<OwnerKey, WalletId>, w: WalletId)
    requires WalletsOk(wallets, owners) && w in wallets
    ensures wallets[w].id == w
  {
  }

  lemma StructureKept(db: Db, e: Effect, serial: nat)
    requires StructureOk(db) && EffectOk(db, e, serial)
    ensures StructureOk(ApplyEffect(db, e))
  {
    WalletSideKept(db, e, serial);
    IndexSideKept(db, e, serial);
    LedgerSideKept(db, e, serial);
    EventSideKept(db, e, serial);
    EventChainKept(db, e, serial);
  }

  lemma SameWalletsAfter(db: Db, e: Effect)
    requires e.transfer.Some? ==> e.transfer.value.wallet.id in db.wallets
    ensures ApplyEffect(db, e).wallets.Keys == db.wallets.Keys
  {
  }

  /** The central preservation result. */
  lemma EffectPreserves(db: Db, e: Effect, serial: nat)
    requires StructureOk(db) && EffectOk(db, e, serial) && OthersAgree(db, e)
    ensures Inv(ApplyEffect(db, e))
  {
    StructureKept(db, e, serial);
    var after := ApplyEffect(db, e);
    SameWalletsAfter(db, e);
    forall w | w in after.wallets ensures WalletAgrees(after, w) {
      AgreementKept(db, e, serial, w);
    }
  }
}
