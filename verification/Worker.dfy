/** The worker that recovers waiting operations: claim a batch, then resolve each
    (internal/adapters/worker/reference.go:100-140, internal/adapters/postgres/transactions.go:121-153). */
module Worker {
  import opened Results
  import opened Wager
  import opened AppErrors
  import opened Tables
  import opened Settlement
  import opened Operations
  import opened Invariants
  import opened OperationSafety
  import opened DueSelection
  import opened ServiceRuns
  import opened Service
  import opened Backoff
  import SettlementSafety
  import SerialRuns
  import Interleaving
  import Commitment

  /** The waiting rows whose attempt is due, with the instants they are ordered by; locked rows are skipped. */
  function DueReferences(db: Db, now: Time, locked: set<TransactionId>): map<nat, Time> {
    map id | id in db.rows && id !in locked && DueReference(db.rows[id], now) :: db.rows[id].nextAttemptAt
  }

  // ----- What a claim takes, by the columns -----

  /** A waiting row whose attempt is due and whose lease, if it ever had one, is over; locked rows are skipped. */
  predicate Claimable(rows: RowTable, locked: set<TransactionId>, now: Time, id: TransactionId) {
    && id in rows && id !in locked
    && rows[id].txn.state == PendingReference && rows[id].nextAttemptAt <= now && rows[id].claimedUntil <= now
  }

  predicate ComesFirst(rows: RowTable, a: TransactionId, b: TransactionId)
    requires a in rows && b in rows
  {
    rows[a].nextAttemptAt < rows[b].nextAttemptAt || (rows[a].nextAttemptAt == rows[b].nextAttemptAt && a <= b)
  }

  /** The picked rows are claimable, in order; a claimable row is left out only if the batch is full of rows that come
      no later. */
  ghost predicate ClaimsFirst(rows: RowTable, locked: set<TransactionId>, now: Time, picked: seq<TransactionId>) {
    && |picked| <= 50
    && (forall i | 0 <= i < |picked| :: Claimable(rows, locked, now, picked[i]))
    && (forall i, j | 0 <= i < j < |picked| :: picked[i] != picked[j] && ComesFirst(rows, picked[i], picked[j]))
    && (forall id | Claimable(rows, locked, now, id) && id !in picked ::
          |picked| == 50 && forall i | 0 <= i < |picked| :: ComesFirst(rows, picked[i], id))
  }

  /** The tables a claim leaves: the picked rows are leased for 30 seconds and stamped, and nothing else is touched. */
  function Claimed(db: Db, picked: seq<TransactionId>, now: Time): Db {
    db.(rows := map id | id in db.rows ::
          if id in picked
          then db.rows[id].(claimedUntil := now + 30 * SECOND, txn := db.rows[id].txn.(updatedAt := now))
          else db.rows[id])
  }

  lemma PickedComeFirst(db: Db, locked: set<TransactionId>, now: Time, picked: seq<TransactionId>)
    requires FirstDue(DueReferences(db, now, locked), picked, CLAIM_BATCH)
    ensures ClaimsFirst(db.rows, locked, now, picked)
  {
    var due := DueReferences(db, now, locked);
    forall id ensures Claimable(db.rows, locked, now, id) <==> id in due {
    }
    forall i | 0 <= i < |picked| ensures Claimable(db.rows, locked, now, picked[i]) {
    }
    forall i, j | 0 <= i < j < |picked| ensures picked[i] != picked[j] && ComesFirst(db.rows, picked[i], picked[j]) {
      assert NoLater(due, picked[i], picked[j]);
    }
    forall id | Claimable(db.rows, locked, now, id) && id !in picked
      ensures |picked| == 50 && forall i | 0 <= i < |picked| :: ComesFirst(db.rows, picked[i], id)
    {
      forall i | 0 <= i < |picked| ensures ComesFirst(db.rows, picked[i], id) {
        assert NoLater(due, picked[i], id);
      }
    }
  }

  /** What the claim statement writes. */
  lemma {:induction false} ClaimWrites(db: Db, locked: set<TransactionId>, picked: seq<TransactionId>, now: Time)
    requires forall i | 0 <= i < |picked| :: Claimable(db.rows, locked, now, picked[i])
    requires forall i, j | 0 <= i < j < |picked| :: picked[i] != picked[j]
    ensures LeaseReferences(db, picked, now, CLAIM_LEASE) == Claimed(db, picked, now)
    decreases picked
  {
    if picked == [] {
      assert Claimed(db, picked, now).rows == db.rows;
    } else {
      var next, rest := LeaseReference(db, picked[0], now, CLAIM_LEASE), picked[1..];
      forall i | 0 <= i < |rest| ensures Claimable(next.rows, locked, now, rest[i]) {
        assert rest[i] == picked[i + 1];
        assert Claimable(db.rows, locked, now, picked[i + 1]);
      }
      ClaimWrites(next, locked, rest, now);
      assert forall id :: id in picked <==> id == picked[0] || id in rest;
      assert Claimed(next, rest, now).rows == Claimed(db, picked, now).rows;
    }
  }

  /** In the interleaved engine the same claim is a step: it is possible whenever the rows that transactions hold are
      passed over, and it leaves the same tables. */
  lemma ClaimsAreSteps(s: Interleaving.System, locked: set<TransactionId>, picked: seq<TransactionId>)
    requires ClaimsFirst(s.db.rows, locked, s.clock, picked)
    requires forall q | q in s.procs :: Interleaving.Holdings(s.procs[q]).rows <= locked
    ensures Interleaving.Enabled(s, Interleaving.LeaseStep(picked, CLAIM_LEASE))
    ensures Interleaving.Do(s, Interleaving.LeaseStep(picked, CLAIM_LEASE)).db == Claimed(s.db, picked, s.clock)
  {
    hide Interleaving.Holdings, LeaseReferences, Claimed;
    PickedAreClaimed(s.db, locked, s.clock, picked);
    forall i | 0 <= i < |picked|
      ensures picked[i] in s.db.rows && DueReference(s.db.rows[picked[i]], s.clock)
              && forall q | q in s.procs :: picked[i] !in Interleaving.Holdings(s.procs[q]).rows
    {
      assert Claimable(s.db.rows, locked, s.clock, picked[i]);
    }
  }

  // ----- A pass -----

  /** One resolution of a pass: its surroundings, its fault, whether the pass is cancelled before it, and the tables
      others may have left behind by the time it starts. */
  datatype Turn = Turn(env: Env, fault: Fault, cancelled: bool, others: Option<Db>)

  /** The tables a resolution finds. */
  function Found(db: Db, turn: Turn): Db {
    if turn.others.Some? then turn.others.value else db
  }

  /** The tables a resolution leaves. */
  function AfterTurn(db: Db, id: TransactionId, turn: Turn): Db {
    var found := Found(db, turn);
    if turn.fault == StoreDown then found else After(found, Resolve(found, id, turn.env))
  }

  /** The tables after resolving a claimed batch one by one, as far as the pass gets. */
  function Resolved(db: Db, picked: seq<TransactionId>, turns: seq<Turn>): Db
    requires |picked| <= |turns|
    decreases picked
  {
    if picked == [] || turns[0].cancelled then db
    else Resolved(AfterTurn(db, picked[0], turns[0]), picked[1..], turns[1..])
  }

  /** The worker hears that the operation has ended. */
  predicate Heard(o: Outcome, fault: Fault) {
    fault == NoFault && match o
      case Answered(result) => result.state.IsTerminal()
      case Settles(s) => s.result.state.IsTerminal()
      case Refused(_) => false
  }

  /** How many operations of a batch the pass hears to have ended. */
  function HeardEnded(db: Db, picked: seq<TransactionId>, turns: seq<Turn>): nat
    requires |picked| <= |turns|
    decreases picked
  {
    if picked == [] || turns[0].cancelled then 0
    else
      (if Heard(Resolve(Found(db, turns[0]), picked[0], turns[0].env), turns[0].fault) then 1 else 0)
      + HeardEnded(AfterTurn(db, picked[0], turns[0]), picked[1..], turns[1..])
  }

  /** The identities a pass may use are unused, whatever others have done, and differ from one another;
      what others leave behind are good tables. */
  ghost predicate TurnsOk(db: Db, turns: seq<Turn>) {
    && (forall i | 0 <= i < |turns| ::
          EnvOk(turns[i].env) && turns[i].fault != LostRace && SerialFresh(db, turns[i].env.serial))
    && (forall i | 0 <= i < |turns| && turns[i].others.Some? :: Inv(turns[i].others.value))
    && (forall i, j | 0 <= i <= j < |turns| && turns[i].others.Some? ::
          SerialFresh(turns[i].others.value, turns[j].env.serial))
    && (forall i, j | 0 <= i < j < |turns| :: turns[i].env.serial != turns[j].env.serial)
  }

  /** A resolution uses up no identity but its own. */
  lemma ResolutionUses(db: Db, id: TransactionId, env: Env, n: nat)
    requires Inv(db) && EnvOk(env) && SerialFresh(db, env.serial) && SerialFresh(db, n) && n != env.serial
    ensures SerialFresh(After(db, Resolve(db, id, env)), n)
  {
    hide Inv, SerialFresh, Settle, LoadReference, ClaimRead, RehydrateTransaction, ApplyEffect;
    if id != 0 && id in db.rows && Resolve(db, id, env).Settles? {
      StoredRowRehydrates(db, id);
      var t, attempts := db.rows[id].txn, db.rows[id].attempts;
      WaitingRowIsReady(db, id, env);
      var ref := LoadReference(db, t);
      SettledUses(db, id, env, n, ref.value, ClaimRead(db, ref));
    }
  }

  lemma SettledUses(db: Db, id: TransactionId, env: Env, n: nat, ref: Option<WagerTransaction>, claimRead: bool)
    requires id in db.rows && db.rows[id].txn.walletId in db.wallets && SerialFresh(db, n) && n != env.serial
    requires SettlementSafety.SettleReady(db, db.wallets[db.rows[id].txn.walletId], db.rows[id].txn, ref, claimRead,
                                          env)
    requires Settle(db.wallets[db.rows[id].txn.walletId], db.rows[id].txn, db.rows[id].attempts, Ok(ref), claimRead,
                    env).Ok?
    ensures var s := Settle(db.wallets[db.rows[id].txn.walletId], db.rows[id].txn, db.rows[id].attempts, Ok(ref),
                            claimRead, env).value;
            SerialFresh(ApplyEffect(db, s.effect), n)
  {
    var wall, t := db.wallets[db.rows[id].txn.walletId], db.rows[id].txn;
    hide SerialFresh, Settle, ApplyEffect, SettlementSafety.SettleReady;
    SerialRuns.LandsThere(db, wall, t, db.rows[id].attempts, ref, claimRead, env,
                          Settle(wall, t, db.rows[id].attempts, Ok(ref), claimRead, env).value);
  }

  lemma FoundTables(db: Db, turns: seq<Turn>)
    requires Inv(db) && turns != [] && TurnsOk(db, turns)
    ensures Inv(Found(db, turns[0])) && TurnsOk(Found(db, turns[0]), turns)
  {
    hide Inv, SerialFresh;
  }

  lemma TurnsStay(db: Db, id: TransactionId, turns: seq<Turn>)
    requires Inv(db) && turns != [] && TurnsOk(db, turns)
    ensures TurnsOk(AfterTurn(db, id, turns[0]), turns[1..])
  {
    hide Inv, SerialFresh, Resolve, After;
    FoundTables(db, turns);
    var found, rest := Found(db, turns[0]), turns[1..];
    forall i | 0 <= i < |rest| ensures SerialFresh(AfterTurn(db, id, turns[0]), rest[i].env.serial) {
      assert rest[i] == turns[i + 1];
      ResolutionUses(found, id, turns[0].env, rest[i].env.serial);
    }
  }

  lemma {:induction false} LeaseKeepsSerials(db: Db, picked: seq<TransactionId>, now: Time, lease: nat,
                                             turns: seq<Turn>)
    requires Inv(db) && TurnsOk(db, turns)
    ensures TurnsOk(LeaseReferences(db, picked, now, lease), turns)
  {
    hide Inv, SerialFresh, LeaseReferences;
    var f := Interleaving.NOTHING_HELD.(rows := set i | 0 <= i < |picked| :: picked[i]);
    Commitment.LeaseLands(db, picked, now, lease, f);
  }

  /** Resolving a batch up to a point and then the rest is resolving the batch. */
  lemma ResolvedUnfolds(db: Db, picked: seq<TransactionId>, turns: seq<Turn>)
    requires picked != [] && |picked| <= |turns| && !turns[0].cancelled
    ensures Resolved(db, picked, turns) == Resolved(AfterTurn(db, picked[0], turns[0]), picked[1..], turns[1..])
    ensures HeardEnded(db, picked, turns) ==
            (if Heard(Resolve(Found(db, turns[0]), picked[0], turns[0].env), turns[0].fault) then 1 else 0)
            + HeardEnded(AfterTurn(db, picked[0], turns[0]), picked[1..], turns[1..])
  {
    hide AfterTurn, Resolve, Heard;
  }

  /** Claims the first due rows under a lease, fifty at most and none that is locked, and resolves them one by one; a
      failed resolution does not stop the pass.
      Others may change the tables before each resolution. The committed tables end as the claims, the others and the
      whole resolutions leave them, and every invariant is kept. */
  method ResolveOnce(service: WagerService, now: Time, locked: set<TransactionId>, turns: seq<Turn>)
    returns (resolved: nat, picked: seq<TransactionId>)
    requires Inv(service.store.committed) && |turns| == CLAIM_BATCH && TurnsOk(service.store.committed, turns)
    modifies service.store
    ensures Inv(service.store.committed)
    ensures |picked| <= |turns| && ClaimsFirst(old(service.store.committed).rows, locked, now, picked)
    ensures service.store.committed == Resolved(Claimed(old(service.store.committed), picked, now), picked, turns)
    ensures resolved == HeardEnded(Claimed(old(service.store.committed), picked, now), picked, turns)
  {
    hide Inv, Resolved, HeardEnded, Heard, TurnsOk, FirstDue, LeaseReferences, Resolve, After, AfterTurn, ClaimsFirst,
         Claimed;
    var before := service.store.committed;
    picked := PickFirst(DueReferences(before, now, locked), CLAIM_BATCH);
    PickedWithin(DueReferences(before, now, locked), picked, CLAIM_BATCH);
    PickedComeFirst(before, locked, now, picked);
    PickedAreClaimed(before, locked, now, picked);
    LeaseKeeps(before, picked, now, CLAIM_LEASE);
    LeaseKeepsSerials(before, picked, now, CLAIM_LEASE, turns);
    service.store.committed := LeaseReferences(before, picked, now, CLAIM_LEASE);
    ghost var goal, total := Resolved(service.store.committed, picked, turns), HeardEnded(service.store.committed,
        picked, turns);
    resolved := 0;
    var i := 0;
    while i < |picked| && !turns[i].cancelled
      invariant 0 <= i <= |picked| <= |turns|
      invariant Inv(service.store.committed) && TurnsOk(service.store.committed, turns[i..])
      invariant goal == Resolved(service.store.committed, picked[i..], turns[i..])
      invariant total == resolved + HeardEnded(service.store.committed, picked[i..], turns[i..])
    {
      ghost var db := service.store.committed;
      assert picked[i..][0] == picked[i] && turns[i..][0] == turns[i] && picked[i..][1..] == picked[i + 1..]
             && turns[i..][1..] == turns[i + 1..];
      FoundTables(db, turns[i..]);
      FirstTurn(Found(db, turns[i]), turns[i..]);
      TurnsStay(db, picked[i], turns[i..]);
      ResolvedUnfolds(db, picked[i..], turns[i..]);
      if turns[i].others.Some? {
        service.store.committed := turns[i].others.value;
      }
      ghost var found := service.store.committed;
      if picked[i] != 0 {
        var r := service.ResolvePendingReference(picked[i], turns[i].env, turns[i].fault);
        CommitsAfter(found, Resolve(found, picked[i], turns[i].env), turns[i].fault, r, service.store.committed);
        if r.Ok? && r.value.state.IsTerminal() {
          resolved := resolved + 1;
        }
      } else {
        NothingToResolve(found, turns[i].env);
      }
      TurnUnfolds(db, picked[i], turns[i]);
      i := i + 1;
    }
    PassEnds(service.store.committed, picked[i..], turns[i..]);
  }

  lemma PickedAreClaimed(db: Db, locked: set<TransactionId>, now: Time, picked: seq<TransactionId>)
    requires ClaimsFirst(db.rows, locked, now, picked)
    ensures LeaseReferences(db, picked, now, CLAIM_LEASE) == Claimed(db, picked, now)
  {
    hide LeaseReferences, Claimed, Claimable;
    ClaimWrites(db, locked, picked, now);
  }

  lemma TurnUnfolds(db: Db, id: TransactionId, turn: Turn)
    ensures var found := Found(db, turn);
            AfterTurn(db, id, turn) == if turn.fault == StoreDown then found
              else After(found, Resolve(found, id, turn.env))
  {
  }

  lemma FirstTurn(db: Db, turns: seq<Turn>)
    requires turns != [] && TurnsOk(db, turns)
    ensures EnvOk(turns[0].env) && turns[0].fault != LostRace && SerialFresh(db, turns[0].env.serial)
  {
  }

  lemma PassEnds(db: Db, picked: seq<TransactionId>, turns: seq<Turn>)
    requires |picked| <= |turns| && (picked == [] || turns[0].cancelled)
    ensures Resolved(db, picked, turns) == db && HeardEnded(db, picked, turns) == 0
  {
  }

  lemma NothingToResolve(db: Db, env: Env)
    ensures After(db, Resolve(db, 0, env)) == db && forall fault :: !Heard(Resolve(db, 0, env), fault)
  {
  }

  /** Whatever a transaction answers, it leaves the tables as the whole operation does or untouched. */
  lemma CommitsAfter(before: Db, o: Outcome, fault: Fault, r: Result<WagerResult, AppError>, after: Db)
    requires Commits(before, o, fault, r, after) && fault != LostRace
    ensures after == if fault == StoreDown then before else After(before, o)
    ensures r.Ok? && r.value.state.IsTerminal() <==> Heard(o, fault)
  {
  }
}
