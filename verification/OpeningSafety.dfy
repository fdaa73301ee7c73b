/** Opening a wallet keeps every invariant (internal/application/service.go:98-166). */
module OpeningSafety {
  import opened Results
  import opened MoneyValue
  import opened Wager
  import opened Wallets
  import opened Commands
  import opened Tables
  import opened Settlement
  import opened Operations
  import opened Invariants
  import opened Preservation
  import opened EffectSafety

  // ----- A wallet nobody has touched -----

  lemma PostingsAreOnStoredWallets(rows: RowTable, wallets: WalletTable, ledger: seq<LedgerEntry>)
    requires RowsOk(rows, wallets) && LedgerOk(rows, ledger)
    ensures forall i | 0 <= i < |ledger| :: ledger[i].walletId in wallets
  {
    forall i | 0 <= i < |ledger| ensures ledger[i].walletId in wallets {
      assert EntryOk(rows, ledger[i]);
    }
  }

  lemma {:induction false} LedgerIgnores(rows: RowTable, claims: seq<ReversalClaim>, ledger: seq<LedgerEntry>,
                                         w: WalletId)
    requires forall i | 0 <= i < |ledger| :: ledger[i].walletId != w
    ensures LastBalance(ledger, w) == 0 && Movements(rows, ledger, w) == 0 && NetTotal(rows, claims, ledger, w) == 0
  {
    if ledger != [] {
      LedgerIgnores(rows, claims, ledger[..|ledger| - 1], w);
    }
  }

  lemma {:induction false} EventsIgnore(outbox: seq<Event>, w: WalletId)
    requires forall i | 0 <= i < |outbox| :: outbox[i].data.walletId != w
    ensures Replay(outbox, w) == (0, 1)
  {
    if outbox != [] {
      EventsIgnore(outbox[..|outbox| - 1], w);
    }
  }

  /** An unknown wallet has no posting and no event. */
  lemma UnknownWalletIsBlank(db: Db, w: WalletId)
    requires Inv(db) && w !in db.wallets
    ensures LastBalance(db.ledger, w) == 0 && Movements(db.rows, db.ledger, w) == 0
            && NetTotal(db.rows, db.claims, db.ledger, w) == 0 && Replay(db.outbox, w) == (0, 1)
  {
    PostingsAreOnStoredWallets(db.rows, db.wallets, db.ledger);
    LedgerIgnores(db.rows, db.claims, db.ledger, w);
    forall i | 0 <= i < |db.outbox| ensures db.outbox[i].data.walletId != w {
      assert EventOk(db.rows, db.wallets, db.outbox[i]);
    }
    EventsIgnore(db.outbox, w);
  }

  lemma EventsIgnoreNewWallet(rows: RowTable, wallets: WalletTable, outbox: seq<Event>, w: Wallet)
    requires EventsOk(rows, wallets, outbox) && w.id !in wallets
    ensures EventsOk(rows, wallets[w.id := w], outbox)
  {
    forall i | 0 <= i < |outbox| ensures EventOk(rows, wallets[w.id := w], outbox[i]) {
      assert EventOk(rows, wallets, outbox[i]);
    }
  }

  lemma WalletsExtended(wallets: WalletTable, owners: map<OwnerKey, WalletId>, w: Wallet)
    requires WalletsOk(wallets, owners) && WalletOk(w) && w.id !in wallets && OwnerOf(w) !in owners
    ensures WalletsOk(wallets[w.id := w], owners[OwnerOf(w) := w.id])
  {
  }

  /** Inserting the wallet row leaves everything right but the new wallet's own account. */
  lemma InsertedWalletKeeps(db: Db, w: Wallet)
    requires Inv(db) && WalletOk(w) && w.id !in db.wallets && OwnerOf(w) !in db.owners
    ensures var after := Apply(db, InsertWallet(w));
            StructureOk(after) && forall v | v in after.wallets && v != w.id :: WalletAgrees(after, v)
  {
    WalletsExtended(db.wallets, db.owners, w);
    RowsKeptByWallet(db.rows, db.wallets, w);
    EventsIgnoreNewWallet(db.rows, db.wallets, db.outbox, w);
    var after := Apply(db, InsertWallet(w));
    forall v | v in after.wallets && v != w.id ensures WalletAgrees(after, v) {
      assert WalletAgrees(db, v);
    }
  }

  // ----- The OPENING operation -----

  /** What a positive opening persists, field by field. */
  function OpenedEffect(w: Wallet, env: Env): Effect {
    var zero := Money(0, w.currency);
    Effect(
      Terminal(WagerTransaction(env.serial, Internal, Opening, "", "", "", NoVersion, None, w.id, w.playerId, "", "",
                                w.balance,
                                "", 0, Processed, NoFailure, w.balance, 0, env.now, env.now)),
      false,
      Some(Transfer(w, LedgerEntry(env.serial, w.id, env.serial, Credit, w.balance, zero, w.balance, env.now), None)),
      [Event(2 * env.serial, w.id, env.correlation, env.now,
             ProcessedData(env.serial, Internal, "", "", w.id, w.playerId, "", "", Opening, w.balance, w.balance)),
       Event(2 * env.serial + 1, w.id, env.correlation, env.now,
             BalanceChangedData(w.id, env.serial, Credit, w.balance, zero, w.balance, w.version))])
  }

  lemma OpeningSucceeds(w: Wallet, env: Env)
    requires WalletOk(w) && w.balance.minorUnits > 0 && EnvOk(env)
    ensures OpeningEffect(w, env) == Ok(OpenedEffect(w, env))
  {
    EntryExact(LedgerEntry(env.serial, w.id, env.serial, Credit, w.balance, Money(0, w.currency), w.balance, env.now));
  }

  lemma OpenedRowFits(db: Db, w: Wallet, env: Env)
    requires EnvOk(env) && SerialFresh(db, env.serial) && WalletOk(w) && w.balance.minorUnits > 0
    requires w.id in db.wallets && db.wallets[w.id] == w
    ensures RowFits(db, OpenedEffect(w, env).row)
  {
  }

  lemma OpenedEventsFit(db: Db, w: Wallet, env: Env)
    requires EnvOk(env) && SerialFresh(db, env.serial) && WalletOk(w) && w.balance.minorUnits > 0
    requires w.id in db.wallets && db.wallets[w.id] == w
    ensures EventsFit(db, OpenedEffect(w, env), env.serial)
  {
    var e := OpenedEffect(w, env);
    assert EventOk(db.rows[env.serial := e.row], db.wallets, e.events[0]);
    assert EventOk(db.rows[env.serial := e.row], db.wallets, e.events[1]);
  }

  lemma OpenedEffectOk(db: Db, w: Wallet, env: Env)
    requires EnvOk(env) && SerialFresh(db, env.serial) && WalletOk(w) && w.balance.minorUnits > 0 && w.version == 1
    requires w.id in db.wallets && db.wallets[w.id] == w
    requires LastBalance(db.ledger, w.id) == 0 && Movements(db.rows, db.ledger, w.id) == 0
    requires NetTotal(db.rows, db.claims, db.ledger, w.id) == 0 && Replay(db.outbox, w.id) == (0, 1)
    ensures EffectOk(db, OpenedEffect(w, env), env.serial)
  {
    OpenedRowFits(db, w, env);
    OpenedEventsFit(db, w, env);
  }

  /** A new wallet: either it stays without any financial row, or its OPENING is recorded. */
  lemma OpenKeeps(db: Db, cmd: OpenWalletCommand, id: WalletId, env: Env)
    requires Inv(db) && EnvOk(env) && SerialFresh(db, env.serial) && id !in db.wallets
    requires OpenWallet(db, cmd, id, env).Ok?
    ensures Inv(ApplyOpened(db, OpenWallet(db, cmd, id, env).value))
  {
    var o := OpenWallet(db, cmd, id, env).value;
    OpenedWalletFacts(db, cmd, id, env);
    UnknownWalletIsBlank(db, id);
    InsertedWalletKeeps(db, o.wallet);
    OpenedKeeps(db, o, env);
  }

  lemma OpenedWalletFacts(db: Db, cmd: OpenWalletCommand, id: WalletId, env: Env)
    requires OpenWallet(db, cmd, id, env).Ok? && EnvOk(env)
    ensures var o := OpenWallet(db, cmd, id, env).value;
            && WalletOk(o.wallet) && o.wallet.id == id && o.wallet.version == 1 && OwnerOf(o.wallet) !in db.owners
            && o.wallet.balance == cmd.initialBalance && o.wallet.playerId == cmd.playerId
            && o.opening == (if o.wallet.balance.minorUnits > 0 then Some(OpenedEffect(o.wallet, env)) else None)
  {
    var o := OpenWallet(db, cmd, id, env).value;
    if o.wallet.balance.minorUnits > 0 {
      OpeningSucceeds(o.wallet, env);
    }
  }

  lemma OpenedKeeps(db: Db, o: Opened, env: Env)
    requires EnvOk(env) && SerialFresh(db, env.serial) && WalletOk(o.wallet) && o.wallet.version == 1
    requires o.opening == (if o.wallet.balance.minorUnits > 0 then Some(OpenedEffect(o.wallet, env)) else None)
    requires LastBalance(db.ledger, o.wallet.id) == 0 && Movements(db.rows, db.ledger, o.wallet.id) == 0
    requires NetTotal(db.rows, db.claims, db.ledger, o.wallet.id) == 0 && Replay(db.outbox, o.wallet.id) == (0, 1)
    requires var after := Apply(db, InsertWallet(o.wallet));
             StructureOk(after) && forall v | v in after.wallets && v != o.wallet.id :: WalletAgrees(after, v)
    ensures Inv(ApplyOpened(db, o))
  {
    hide StructureOk, EffectOk;
    var inserted := Apply(db, InsertWallet(o.wallet));
    if o.opening.Some? {
      OpenedEffectOk(inserted, o.wallet, env);
      EffectPreserves(inserted, o.opening.value, env.serial);
    }
  }
}
