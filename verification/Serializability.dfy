/** Every run of the interleaved system leaves the balances, ledger and claims that running its committed operations
    whole, one after the other in commit order, would leave. */
module Serializability {
  import opened Results
  import opened Wager
  import opened Wallets
  import opened Commands
  import opened Resolution
  import opened Tables
  import opened Settlement
  import opened Operations
  import opened Invariants
  import opened SettlementSafety
  import opened OperationSafety
  import opened OpeningSafety
  import opened Interleaving
  import opened Noninterference
  import opened Commitment
  import opened SerialDecision

  // ----- Two effects of one operation -----

  /** Here the operation waits or is rejected, there it is rejected; neither moves money. */
  predicate EndsApart(t: WagerTransaction, here: Effect, there: Effect) {
    && here.transfer.None? && there.transfer.None?
    && SameCommand(t, here.row.txn) && SameCommand(t, there.row.txn) && NeedsReference(t)
    && (here.row.txn.state == Rejected || here.row.txn.state == PendingReference)
    && there.row.txn.state == Rejected
  }

  lemma RejectEnds(wall: Wallet, t: WagerTransaction, reference: TransactionId, code: FailureCode, env: Env)
    requires Reject(wall, t, reference, code, env).Ok?
    ensures var e := Reject(wall, t, reference, code, env).value.effect;
            e.transfer.None? && SameCommand(t, e.row.txn) && e.row.txn.state == Rejected
  {
  }

  lemma WaitEnds(t: WagerTransaction, attempts: nat, env: Env)
    ensures AwaitReference(t, env).Ok? ==>
              var e := AwaitReference(t, env).value.effect;
              e.transfer.None? && SameCommand(t, e.row.txn) && e.row.txn.state == PendingReference
    ensures RescheduleReference(t, attempts, env).Ok? ==>
              var e := RescheduleReference(t, attempts, env).value.effect;
              e.transfer.None? && SameCommand(t, e.row.txn) && e.row.txn.state == t.state
  {
  }

  /** A plan without a movement that is not a plain LOSS ends waiting or rejected. */
  lemma IdlePlanEnds(wall: Wallet, t: WagerTransaction, attempts: nat, ref: Option<WagerTransaction>, claimRead: bool,
                     env: Env, s: Settled)
    requires PlanOperation(t, ref, claimRead).Ok?
    requires PlanOperation(t, ref, claimRead).value.pending
             || PlanOperation(t, ref, claimRead).value.failure != NoFailure
    requires Settle(wall, t, attempts, Ok(ref), claimRead, env) == Ok(s)
    ensures s.effect.transfer.None? && SameCommand(t, s.effect.row.txn)
    ensures s.effect.row.txn.state == Rejected || s.effect.row.txn.state == PendingReference
  {
    hide Settle, Reject, AwaitReference, RescheduleReference, PlanOperation, SameCommand;
    var plan := PlanOperation(t, ref, claimRead).value;
    SettleUnfolds(wall, t, attempts, ref, claimRead, env);
    WaitEnds(t, attempts, env);
    if t.state == PendingReference && plan.pending {
      if env.now >= t.referenceDeadline {
        RejectEnds(wall, t, 0, ReferenceNotFound, env);
      }
    } else if !plan.pending {
      RejectEnds(wall, t, plan.referenceId, plan.failure, env);
    }
  }

  /** A refusal always succeeds as a rejection. */
  lemma RefusalRejects(wall: Wallet, t: WagerTransaction, attempts: nat, ref: Option<WagerTransaction>,
                       claimRead: bool, env: Env)
    requires Decidable(wall, t, env) && PlanOperation(t, ref, claimRead).Ok?
    requires var plan := PlanOperation(t, ref, claimRead).value;
             !plan.pending && plan.failure != NoFailure && plan.failure != PermanentInfrastructure
    ensures var r := Settle(wall, t, attempts, Ok(ref), claimRead, env);
            r.Ok? && r.value.effect.row.txn.state == Rejected && r.value.effect.transfer.None?
              && SameCommand(t, r.value.effect.row.txn)
  {
    hide Settle, Reject, PlanOperation, Decidable, Quiet, SameCommand;
    var plan := PlanOperation(t, ref, claimRead).value;
    SettleUnfolds(wall, t, attempts, ref, claimRead, env);
    RejectIsQuiet(wall, t, plan.referenceId, plan.failure, env);
    RejectEnds(wall, t, plan.referenceId, plan.failure, env);
  }

  lemma PlansDecide(wall: Wallet, t: WagerTransaction, attempts: nat, a: Option<WagerTransaction>, claimA: bool,
                    b: Option<WagerTransaction>, claimB: bool, env: Env)
    requires PlanOperation(t, a, claimA).Ok? && PlanOperation(t, a, claimA) == PlanOperation(t, b, claimB)
    ensures Settle(wall, t, attempts, Ok(a), claimA, env) == Settle(wall, t, attempts, Ok(b), claimB, env)
  {
    SettleUnfolds(wall, t, attempts, a, claimA, env);
    SettleUnfolds(wall, t, attempts, b, claimB, env);
  }

  /** What the operation settles here it settles there too, or they end apart without moving money. */
  lemma SettlesAlike(c: Db, s: Db, wall: Wallet, t: WagerTransaction, attempts: nat, ref: Option<WagerTransaction>,
                     claimC: bool,
                     refS: Option<WagerTransaction>, claimS: bool, env: Env, here: Settled)
    requires Alike(c, s) && Decidable(wall, t, env) && ReferenceKnown(c, t, Ok(ref), claimC)
    requires ReadThere(s, t, refS, claimS)
    requires ExternalOf(t) in c.byExternal ==> c.byExternal[ExternalOf(t)] == t.id
    requires Settle(wall, t, attempts, Ok(ref), claimC, env) == Ok(here)
    ensures var there := Settle(wall, t, attempts, Ok(refS), claimS, env);
            && there.Ok?
            && (there.value == here
                || (EndsApart(t, here.effect, there.value.effect) && Hopeless(s.rows, s.byExternal, t)))
  {
    hide Alike, ReferenceKnown, ReadThere, Settle, PlanOperation, Hopeless, SameCommand;
    DecidableIsSubmittable(wall, t, env);
    DecidesAlike(c, s, t, ref, claimC, refS, claimS);
    var a, b := PlanOperation(t, ref, claimC).value, PlanOperation(t, refS, claimS).value;
    if a == b {
      PlansDecide(wall, t, attempts, ref, claimC, refS, claimS, env);
    } else {
      IdlePlanEnds(wall, t, attempts, ref, claimC, env, here);
      RefusalRejects(wall, t, attempts, refS, claimS, env);
      HopelessWaits(s, t);
    }
  }

  lemma HopelessWaits(s: Db, t: WagerTransaction)
    requires Hopeless(s.rows, s.byExternal, t)
    ensures NeedsReference(t)
  {
  }

  lemma DecidableIsSubmittable(wall: Wallet, t: WagerTransaction, env: Env)
    requires Decidable(wall, t, env)
    ensures Submittable(t) && t.id != 0 && (t.state == Pending || t.state == PendingReference)
  {
  }

  // ----- Two sets of tables after them -----

  /** A hopeless reference stays hopeless. */
  lemma HopelessStays(s: Db, after: Db, t: WagerTransaction)
    requires Grows(s, after) && Hopeless(s.rows, s.byExternal, t)
    ensures Hopeless(after.rows, after.byExternal, t)
  {
    var id := s.byExternal[(t.providerId, t.referenceExternalId)];
    assert SameCommand(s.rows[id].txn, after.rows[id].txn);
  }

  lemma DoomStays(s: Db, after: Db, c: Row, r: Row)
    requires Grows(s, after) && Doomed(c, r, s)
    ensures Doomed(c, r, after)
  {
    hide Grows, Hopeless;
    HopelessStays(s, after, c.txn);
  }

  /** Alike rows stay alike when one row changes, alike, on both sides. */
  lemma RowsStayAlike(c: RowTable, s: RowTable, serial: Db, after: Db, id: TransactionId, here: Row, there: Row)
    requires RowsAlike(c, s, serial) && Grows(serial, after) && (here == there || Doomed(here, there, after))
    ensures RowsAlike(c[id := here], s[id := there], after)
  {
    hide Grows, Doomed;
    forall k | k in c && k != id ensures c[k] == s[k] || Doomed(c[k], s[k], after) {
      if c[k] != s[k] {
        DoomStays(serial, after, c[k], s[k]);
      }
    }
  }

  /** The tables an effect leaves behind, one by one. */
  lemma TablesAfter(db: Db, e: Effect)
    ensures var after := ApplyEffect(db, e);
            && after.wallets == (if e.transfer.Some?
                                 then db.wallets[e.transfer.value.wallet.id := e.transfer.value.wallet] else db.wallets)
            && after.ledger == (if e.transfer.Some? then db.ledger + [e.transfer.value.entry] else db.ledger)
            && after.claims == (if e.transfer.Some? && e.transfer.value.claim.Some?
                                then db.claims + [e.transfer.value.claim.value] else db.claims)
  {
  }

  lemma SameEffectAlike(c: Db, s: Db, e: Effect)
    requires Alike(c, s) && Grows(s, ApplyEffect(s, e))
    ensures Alike(ApplyEffect(c, e), ApplyEffect(s, e))
  {
    hide Grows, RowsAlike, ApplyEffect, KeyOf, ExternalOf;
    AppliedParts(c, e);
    AppliedParts(s, e);
    TablesAfter(c, e);
    TablesAfter(s, e);
    RowsStayAlike(c.rows, s.rows, s, ApplyEffect(s, e), e.row.txn.id, e.row, e.row);
  }

  lemma ApartIsDoomed(t: WagerTransaction, here: Effect, there: Effect, after: Db)
    requires EndsApart(t, here, there) && Hopeless(after.rows, after.byExternal, t)
    ensures Doomed(here.row, there.row, after)
  {
  }

  lemma ApartEffectsAlike(c: Db, s: Db, t: WagerTransaction, here: Effect, there: Effect)
    requires Alike(c, s) && EndsApart(t, here, there) && Hopeless(s.rows, s.byExternal, t)
    requires Grows(s, ApplyEffect(s, there))
    ensures Alike(ApplyEffect(c, here), ApplyEffect(s, there))
  {
    hide Grows, RowsAlike, Hopeless;
    var after := ApplyEffect(s, there);
    HopelessStays(s, after, t);
    ApartIsDoomed(t, here, there, after);
    RowsStayAlike(c.rows, s.rows, s, after, t.id, here.row, there.row);
  }

  /** Here a doomed row waits on or is rejected, there nothing happens. */
  lemma DoomedPassAlike(c: Db, s: Db, t: WagerTransaction, here: Effect)
    requires Alike(c, s) && t.id in c.rows && c.rows[t.id].txn == t && t.state == PendingReference
             && c.rows[t.id] != s.rows[t.id]
    requires here.transfer.None? && SameCommand(t, here.row.txn)
             && (here.row.txn.state == Rejected || here.row.txn.state == PendingReference)
    requires KeyOf(t) in c.byKey && c.byKey[KeyOf(t)] == t.id && ExternalOf(t) in c.byExternal
             && c.byExternal[ExternalOf(t)] == t.id
    ensures Alike(ApplyEffect(c, here), s)
  {
    assert KeyOf(here.row.txn) == KeyOf(t) && ExternalOf(here.row.txn) == ExternalOf(t);
    assert Doomed(here.row, s.rows[t.id], s);
    assert c.byKey[KeyOf(t) := t.id] == c.byKey && c.byExternal[ExternalOf(t) := t.id] == c.byExternal;
  }

  lemma DeliveredAlike(c: Db, s: Db, d: InboxDelivery, completedAt: Time)
    requires Alike(c, s)
    ensures Alike(CompletedInbox(c, d, completedAt), CompletedInbox(s, d, completedAt))
  {
  }

  lemma AccountTables(db: Db, o: Opened, env: Env)
    requires AccountReady(db, o, env)
    ensures var after := ApplyOpened(db, o);
            if o.opening.Some? then
              && after.ledger == db.ledger + [o.opening.value.transfer.value.entry]
              && after.rows == db.rows[o.opening.value.row.txn.id := o.opening.value.row]
            else after.ledger == db.ledger && after.rows == db.rows
  {
  }

  lemma AccountsAlike(c: Db, s: Db, o: Opened, env: Env)
    requires Alike(c, s) && AccountReady(s, o, env) && AccountReady(c, o, env)
    ensures Alike(ApplyOpened(c, o), ApplyOpened(s, o))
  {
    hide RowsAlike, OpenedEffect, WalletOk, ApplyOpened, Grows, Within, AccountReady, OwnerOf;
    AccountParts(c, o, env);
    AccountParts(s, o, env);
    AccountTables(c, o, env);
    AccountTables(s, o, env);
    AccountLands(s, o, env, NOTHING_HELD.(wallets := {o.wallet.id}, rows := {env.serial},
                                          owners := {OwnerOf(o.wallet)}));
    var after := ApplyOpened(s, o);
    if o.opening.Some? {
      var row := o.opening.value.row;
      RowsStayAlike(c.rows, s.rows, s, after, row.txn.id, row, row);
    } else {
      RowsSurvive(c.rows, s.rows, s, after);
    }
  }

  lemma RowsSurvive(c: RowTable, s: RowTable, serial: Db, after: Db)
    requires RowsAlike(c, s, serial) && Grows(serial, after)
    ensures RowsAlike(c, s, after)
  {
    hide Grows, Doomed;
    forall k | k in c ensures c[k] == s[k] || Doomed(c[k], s[k], after) {
      if c[k] != s[k] {
        DoomStays(serial, after, c[k], s[k]);
      }
    }
  }

  // ----- Leases -----

  function Leased(row: Row, now: Time, lease: nat): Row {
    row.(claimedUntil := now + lease, txn := row.txn.(updatedAt := now))
  }

  lemma LeaseIsUpdate(db: Db, id: TransactionId, now: Time, lease: nat)
    ensures LeaseReference(db, id, now, lease) ==
            if id in db.rows && DueReference(db.rows[id], now)
               then db.(rows := db.rows[id := Leased(db.rows[id], now, lease)]) else db
  {
  }

  lemma LeasedDoom(c: Row, r: Row, now: Time, lease: nat, serial: Db)
    requires Doomed(c, r, serial)
    ensures Doomed(Leased(c, now, lease), r, serial) && !DueReference(r, now)
  {
  }

  lemma LeaseOneAlike(c: Db, s: Db, id: TransactionId, now: Time, lease: nat)
    requires Alike(c, s) && Inv(s)
    ensures Alike(LeaseReference(c, id, now, lease), LeaseReference(s, id, now, lease))
  {
    hide Inv, LeaseReference, Leased, Doomed, Grows, Within, DueReference, SerialFresh;
    LeaseIsUpdate(c, id, now, lease);
    LeaseIsUpdate(s, id, now, lease);
    var after := LeaseReference(s, id, now, lease);
    if id in s.rows {
      StoredRowRehydrates(s, id);
    }
    LeaseOneLands(s, id, now, lease, NOTHING_HELD.(rows := {id}));
    RowsSurvive(c.rows, s.rows, s, after);
    if id in c.rows && DueReference(c.rows[id], now) {
      if c.rows[id] == s.rows[id] {
        RowsStayAlike(c.rows, s.rows, s, after, id, Leased(c.rows[id], now, lease), Leased(c.rows[id], now, lease));
      } else {
        LeasedDoom(c.rows[id], s.rows[id], now, lease, s);
        RowsStayAlike(c.rows, s.rows, s, after, id, Leased(c.rows[id], now, lease), s.rows[id]);
        assert s.rows[id := s.rows[id]] == s.rows;
      }
    } else if id in c.rows && c.rows[id] != s.rows[id] {
      LeasedDoom(c.rows[id], s.rows[id], now, lease, s);
    }
  }

  lemma {:induction false} LeasesAlike(c: Db, s: Db, picked: seq<TransactionId>, now: Time, lease: nat)
    requires Alike(c, s) && Inv(s)
    ensures Alike(LeaseReferences(c, picked, now, lease), LeaseReferences(s, picked, now, lease))
    decreases picked
  {
    hide Alike, LeaseReference, Inv;
    if picked != [] {
      LeaseOneAlike(c, s, picked[0], now, lease);
      LeaseOneKeeps(s, picked[0], now, lease);
      LeasesAlike(LeaseReference(c, picked[0], now, lease), LeaseReference(s, picked[0], now, lease), picked[1..], now,
                  lease);
    }
  }
}
