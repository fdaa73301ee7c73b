/** How long an operation can wait for its reference, over every run under a clock that never goes back
    (internal/application/service.go:272-326, 643-677, internal/application/backoff.go:33-60,
    internal/adapters/postgres/transactions.go:121-153). */
module ReferenceLifecycle {
  import opened Results
  import opened Wager
  import opened Wallets
  import opened AppErrors
  import opened Resolution
  import opened Backoff
  import opened Tables
  import opened Settlement
  import opened Operations
  import opened Invariants
  import opened SettlementSafety
  import opened Interleaving
  import opened Noninterference
  import opened Commitment
  import opened SystemSafety
  import opened Readings
  import opened SteadyClock
  import LocalSteps

  const MAX_RESCHEDULES := 104

  // ----- The shortest waits -----

  /** The shortest time in which the first n + 1 attempts come due. */
  function ShortestWait(n: nat): nat {
    ExponentialDelay(n) + if n == 0 then 0 else ShortestWait(n - 1)
  }

  lemma {:induction false} ShortestWaitClosedForm(n: nat)
    requires n >= 10
    ensures ExponentialDelay(n) == BACKOFF_CAP
    ensures ShortestWait(n) == 1023 * SECOND + (n - 9) * BACKOFF_CAP
  {
    if n == 10 {
      FirstTenDelays();
    } else {
      ShortestWaitClosedForm(n - 1);
    }
  }

  lemma FirstTenDelays()
    ensures ExponentialDelay(10) == BACKOFF_CAP && ShortestWait(10) == 1023 * SECOND + BACKOFF_CAP
  {
    assert ExponentialDelay(0) == SECOND && ShortestWait(0) == SECOND;
    assert ExponentialDelay(1) == 2 * SECOND && ShortestWait(1) == 3 * SECOND;
    assert ExponentialDelay(2) == 4 * SECOND && ShortestWait(2) == 7 * SECOND;
    assert ExponentialDelay(3) == 8 * SECOND && ShortestWait(3) == 15 * SECOND;
    assert ExponentialDelay(4) == 16 * SECOND && ShortestWait(4) == 31 * SECOND;
    assert ExponentialDelay(5) == 32 * SECOND && ShortestWait(5) == 63 * SECOND;
    assert ExponentialDelay(6) == 64 * SECOND && ShortestWait(6) == 127 * SECOND;
    assert ExponentialDelay(7) == 128 * SECOND && ShortestWait(7) == 255 * SECOND;
    assert ExponentialDelay(8) == 256 * SECOND && ShortestWait(8) == 511 * SECOND;
    assert ExponentialDelay(9) == 512 * SECOND && ShortestWait(9) == 1023 * SECOND;
    assert ExponentialDelay(10) == BACKOFF_CAP;
  }

  /** 104 shortest waits fit before the deadline and 105 do not, so the bound cannot be lowered. */
  lemma DeadlineFits104()
    ensures ShortestWait(MAX_RESCHEDULES - 1) < REFERENCE_TTL <= ShortestWait(MAX_RESCHEDULES)
  {
    ShortestWaitClosedForm(MAX_RESCHEDULES - 1);
    ShortestWaitClosedForm(MAX_RESCHEDULES);
  }

  lemma DelayAtLeast(attempt: nat, hash: nat)
    ensures ReferenceDelay(attempt, hash) >= ExponentialDelay(attempt)
  {
    ReferenceDelayBounds(attempt, hash);
    ExponentialDelayClosedForm(attempt);
  }

  // ----- One pass -----

  /** What a committed pass does to a waiting operation: it ends it, or, before the deadline only, it reschedules it
      after the backoff of one more attempt. */
  lemma CycleEndsOrReschedules(wall: Wallet, t: WagerTransaction, attempts: nat, ref: Result<Option<WagerTransaction>,
                               AppError>,
                               claimRead: bool, env: Env)
    requires t.state == PendingReference && Settle(wall, t, attempts, ref, claimRead, env).Ok?
    ensures var e := Settle(wall, t, attempts, ref, claimRead, env).value.effect;
            if e.row.txn.state == PendingReference then
              && e.row == Row(t.(updatedAt := env.now), env.now + ReferenceDelay(attempts + 1, env.hash), attempts + 1,
                              0)
              && env.now < t.referenceDeadline
            else
              e.row.txn.state.IsTerminal() && SameCommand(t, e.row.txn)
  {
    hide Classify, CreditWallet, DebitWallet, NewLedgerEntry, SameCommand;
    if ref.Ok? {
      var plan := PlanOperation(t, ref.value, claimRead);
      SettleUnfolds(wall, t, attempts, ref.value, claimRead, env);
      if plan.value.pending {
        WaitOutcome(wall, t, attempts, env);
      } else {
        EndOutcome(wall, t, plan.value, env);
      }
    } else {
      FailOutcome(wall, t, env);
    }
  }

  lemma WaitOutcome(wall: Wallet, t: WagerTransaction, attempts: nat, env: Env)
    requires t.state == PendingReference
    ensures var r := StillWaiting(wall, t, attempts, env);
            r.Ok? ==>
              if r.value.effect.rescheduled then
                && r.value.effect.row == Row(t.(updatedAt := env.now), env.now + ReferenceDelay(attempts + 1, env.hash),
                                             attempts + 1, 0)
                && env.now < t.referenceDeadline
              else r.value.effect.row.txn.state == Rejected && SameCommand(t, r.value.effect.row.txn)
  {
  }

  lemma EndOutcome(wall: Wallet, t: WagerTransaction, plan: Plan, env: Env)
    requires !plan.pending
    ensures var r := ExecutePlan(wall, t, plan, env);
            r.Ok? ==>
                !r.value.effect.rescheduled && r.value.effect.row.txn.state.IsTerminal()
                  && SameCommand(t, r.value.effect.row.txn)
  {
    hide CreditWallet, DebitWallet, NewLedgerEntry;
  }

  lemma FailOutcome(wall: Wallet, t: WagerTransaction, env: Env)
    ensures Fail(wall, t, env).Ok? ==>
              var e := Fail(wall, t, env).value.effect;
              !e.rescheduled && e.row.txn.state.IsTerminal() && SameCommand(t, e.row.txn)
  {
  }

  /** Every pass that commits at or after the deadline ends the wait, whatever it reads. */
  lemma DeadlineEndsTheWait(wall: Wallet, t: WagerTransaction, attempts: nat, ref: Result<Option<WagerTransaction>,
                            AppError>,
                            claimRead: bool, env: Env)
    requires t.state == PendingReference && Settle(wall, t, attempts, ref, claimRead, env).Ok?
    requires env.now >= t.referenceDeadline
    ensures Settle(wall, t, attempts, ref, claimRead, env).value.effect.row.txn.state.IsTerminal()
  {
    hide Settle;
    CycleEndsOrReschedules(wall, t, attempts, ref, claimRead, env);
  }

  /** A decision leaves the update instant as it was or sets it to its own reading. */
  predicate KeepsInstant(r: Result<Settled, AppError>, t: WagerTransaction, env: Env) {
    r.Ok? ==> r.value.effect.row.txn.updatedAt == t.updatedAt || r.value.effect.row.txn.updatedAt == env.now
  }

  lemma PlannedKeepsInstant(wall: Wallet, t: WagerTransaction, plan: Plan, env: Env)
    ensures KeepsInstant(ExecutePlan(wall, t, plan, env), t, env)
  {
    hide CreditWallet, DebitWallet, NewLedgerEntry;
  }

  lemma WaitKeepsInstant(wall: Wallet, t: WagerTransaction, attempts: nat, env: Env)
    ensures KeepsInstant(StillWaiting(wall, t, attempts, env), t, env) && KeepsInstant(Fail(wall, t, env), t, env)
  {
  }

  lemma EndedKeepsInstant(wall: Wallet, t: WagerTransaction, attempts: nat, ref: Result<Option<WagerTransaction>,
                          AppError>,
                          claimRead: bool, env: Env)
    requires Settle(wall, t, attempts, ref, claimRead, env).Ok?
    ensures KeepsInstant(Settle(wall, t, attempts, ref, claimRead, env), t, env)
  {
    hide PlanOperation, ExecutePlan, StillWaiting, Fail, KeepsInstant;
    WaitKeepsInstant(wall, t, attempts, env);
    if ref.Ok? {
      var plan := PlanOperation(t, ref.value, claimRead);
      SettleUnfolds(wall, t, attempts, ref.value, claimRead, env);
      PlannedKeepsInstant(wall, t, plan.value, env);
    }
  }

  /** What a first submission leaves: an ended operation, or one that waits for its first attempt. */
  lemma SubmissionEndsOrWaits(wall: Wallet, t: WagerTransaction, ref: Result<Option<WagerTransaction>, AppError>,
                              claimRead: bool, env: Env)
    requires t.state == Pending && t.createdAt == t.updatedAt == env.now && Settle(wall, t, 0, ref, claimRead, env).Ok?
    ensures var row := Settle(wall, t, 0, ref, claimRead, env).value.effect.row;
            if row.txn.state == PendingReference then
              && row.attempts == 0 && row.nextAttemptAt == env.now + ReferenceDelay(0, env.hash)
              && row.txn.updatedAt == env.now == row.txn.createdAt
            else row.txn.state.IsTerminal() && row.txn.updatedAt == env.now
  {
    hide Classify, CreditWallet, DebitWallet, NewLedgerEntry, SameCommand, AwaitReference;
    EndedKeepsInstant(wall, t, 0, ref, claimRead, env);
    if ref.Ok? {
      var plan := PlanOperation(t, ref.value, claimRead);
      SettleUnfolds(wall, t, 0, ref.value, claimRead, env);
      if plan.value.pending {
        AwaitOutcome(t, env);
      } else {
        EndOutcome(wall, t, plan.value, env);
      }
    } else {
      FailOutcome(wall, t, env);
    }
  }

  lemma AwaitOutcome(t: WagerTransaction, env: Env)
    requires AwaitReference(t, env).Ok?
    ensures var row := AwaitReference(t, env).value.effect.row;
            row == Row(t.(state := PendingReference, referenceDeadline := env.now + REFERENCE_TTL,
                          updatedAt := env.now), env.now + ReferenceDelay(0, env.hash), 0, 0)
  {
  }

  // ----- Passes and claims in the log -----

  predicate IsResolve(e: Entry, id: TransactionId) {
    e.ResolveEntry? && e.id == id
  }

  predicate IsLease(e: Entry, id: TransactionId) {
    e.LeaseEntry? && id in e.picked
  }

  /** A claim has picked the row since its last pass. */
  predicate Leased(log: seq<Entry>, id: TransactionId) {
    log != [] && var e := log[|log| - 1]; IsLease(e, id) || (!IsResolve(e, id) && Leased(log[..|log| - 1], id))
  }

  /** The committed passes over a row, as far as each follows a claim of the row since the pass before it, or does
      not. */
  function Passes(log: seq<Entry>, id: TransactionId, leased: bool): nat {
    if log == [] then 0
    else
      var rest := log[..|log| - 1];
      Passes(rest, id, leased) + if IsResolve(log[|log| - 1], id) && Leased(rest, id) == leased then 1 else 0
  }

  lemma LogGrows(log: seq<Entry>, e: Entry, id: TransactionId)
    ensures Leased(log + [e], id) == (IsLease(e, id) || (!IsResolve(e, id) && Leased(log, id)))
    ensures forall leased ::
              Passes(log + [e], id, leased) == Passes(log, id, leased) + if IsResolve(e, id) && Leased(log, id) ==
                  leased then 1 else 0
  {
    assert (log + [e])[..|log + [e]| - 1] == log;
  }

  // ----- What holds in every state -----

  /** The time n shortest waits take. */
  function Elapsed(n: nat): nat {
    if n == 0 then 0 else ShortestWait(n - 1)
  }

  /** A waiting row with so many claimed and unclaimed passes behind it: each claimed pass has used up one more wait. */
  predicate Waiting(row: Row, claimed: nat, unclaimed: nat, leased: bool) {
    && row.attempts == claimed + unclaimed && Elapsed(claimed) < REFERENCE_TTL
    && row.nextAttemptAt >= row.txn.createdAt + Elapsed(claimed) + ExponentialDelay(row.attempts)
    && row.txn.updatedAt >= row.txn.createdAt + Elapsed(if leased then claimed + 1 else claimed)
  }

  predicate RowWaits(row: Row, log: seq<Entry>, id: TransactionId) {
    if row.txn.state == PendingReference then Waiting(row, Passes(log, id, true), Passes(log, id, false),
                                                      Leased(log, id))
    else Passes(log, id, true) <= MAX_RESCHEDULES + 1
  }

  predicate Unknown(log: seq<Entry>, id: TransactionId) {
    !Leased(log, id) && Passes(log, id, true) == 0 && Passes(log, id, false) == 0
  }

  ghost predicate RowsWait(rows: RowTable, log: seq<Entry>) {
    && (forall id | id in rows :: RowWaits(rows[id], log, id))
    && (forall id | id !in rows :: Unknown(log, id))
  }

  predicate RowInstants(rows: RowTable, clock: Time) {
    forall id | id in rows :: rows[id].txn.updatedAt <= clock
  }

  /** A pass reads its clock after whatever last touched its row. */
  predicate PassInstant(pr: Proc) {
    match pr.phase
    case Inserting(w) => w.txn.updatedAt <= w.env.now
    case ReadingReference(w) => w.txn.updatedAt <= w.env.now
    case ReadingClaim(w, _) => w.txn.updatedAt <= w.env.now
    case Writing(w, _, _, _, _) => w.txn.updatedAt <= w.env.now
    case _ => true
  }

  ghost predicate WaitsOk(s: System) {
    s.steady ==>
        RowsWait(s.db.rows, s.log) && RowInstants(s.db.rows, s.clock) && forall p | p in s.procs ::
            PassInstant(s.procs[p])
  }

  // ----- Arithmetic of the waits -----

  lemma {:induction false} DelaysRise(a: nat, b: nat)
    requires a <= b
    ensures ExponentialDelay(a) <= ExponentialDelay(b) <= BACKOFF_CAP
    decreases b
  {
    if a < b {
      DelaysRise(a, b - 1);
    } else if b > 0 {
      DelaysRise(b - 1, b - 1);
    }
  }

  lemma {:induction false} WaitsRise(a: nat, b: nat)
    requires a <= b
    ensures ShortestWait(a) <= ShortestWait(b)
    decreases b
  {
    if a < b {
      WaitsRise(a, b - 1);
    }
  }

  lemma WaitingIsBounded(row: Row, claimed: nat, unclaimed: nat, leased: bool)
    requires Waiting(row, claimed, unclaimed, leased)
    ensures claimed <= MAX_RESCHEDULES
  {
    hide ShortestWait;
    if claimed > MAX_RESCHEDULES {
      DeadlineFits104();
      WaitsRise(MAX_RESCHEDULES, claimed - 1);
    }
  }

  lemma FirstWait(row: Row, hash: nat)
    requires row.attempts == 0 && row.txn.updatedAt == row.txn.createdAt
    requires row.nextAttemptAt == row.txn.createdAt + ReferenceDelay(0, hash)
    ensures Waiting(row, 0, 0, false)
  {
    DelayAtLeast(0, hash);
  }

  lemma RescheduledWaits(row: Row, next: Row, claimed: nat, unclaimed: nat, leased: bool, now: Time, hash: nat)
    requires Waiting(row, claimed, unclaimed, leased) && row.txn.updatedAt <= now < row.txn.createdAt + REFERENCE_TTL
    requires next == Row(row.txn.(updatedAt := now), now + ReferenceDelay(row.attempts + 1, hash), row.attempts + 1, 0)
    ensures Waiting(next, if leased then claimed + 1 else claimed, if leased then unclaimed else unclaimed + 1, false)
  {
    hide ShortestWait, ReferenceDelay, ExponentialDelay;
    DelayAtLeast(row.attempts + 1, hash);
  }

  lemma ClaimedWaits(row: Row, next: Row, claimed: nat, unclaimed: nat, leased: bool, now: Time)
    requires Waiting(row, claimed, unclaimed, leased) && row.nextAttemptAt <= now
    requires next == row.(txn := row.txn.(updatedAt := now), claimedUntil := next.claimedUntil)
    ensures Waiting(next, claimed, unclaimed, true)
  {
    hide ExponentialDelay;
    DelaysRise(claimed, row.attempts);
    assert Elapsed(claimed + 1) == ExponentialDelay(claimed) + Elapsed(claimed);
  }

  // ----- Commits -----

  /** A pass decided on the row as it is stored. */
  lemma PassRow(db: Db, pr: Proc)
    requires Inv(db) && ProcOk(db, pr) && pr.phase.Writing? && pr.op.Recovery?
    ensures var w := pr.phase.work;
            && pr.op.id in db.rows && db.rows[pr.op.id].txn == w.txn && db.rows[pr.op.id].attempts == w.attempts
            && w.txn.id == pr.op.id && w.txn.state == PendingReference
               && w.txn.referenceDeadline == w.txn.createdAt + REFERENCE_TTL
            && Settle(w.wall, w.txn, w.attempts, pr.phase.ref, pr.phase.claimRead, w.env) == Ok(pr.phase.settled)
  {
    hide Inv, OpOk, Settle, ReferenceKnown, Statements, RehydrateWallet;
    StoredWaitingRow(db, pr.op.id);
  }

  lemma StoredWaitingRow(db: Db, id: TransactionId)
    requires Inv(db) && id in db.rows
    ensures RowOk(db.rows[id]) && db.rows[id].txn.id == id
  {
  }

  lemma SubmittedRow(db: Db, pr: Proc)
    requires ProcOk(db, pr) && pr.phase.Writing? && pr.op.Submission?
    ensures var w := pr.phase.work;
            && w.txn.id !in db.rows && w.attempts == 0 && w.txn.state == Pending
               && w.txn.createdAt == w.txn.updatedAt == w.env.now
            && Settle(w.wall, w.txn, 0, pr.phase.ref, pr.phase.claimRead, w.env) == Ok(pr.phase.settled)
  {
    hide OpOk, Settle, ReferenceKnown, Statements, RehydrateWallet, NewTransaction;
  }

  /** The row a decided transaction stores, and that its commit changes no other. */
  lemma CommittedRow(db: Db, pr: Proc)
    requires Inv(db) && ProcOk(db, pr) && pr.phase.Writing? && pr.todo == []
    requires SerialFresh(db, pr.phase.work.env.serial)
    ensures ApplyAll(db, pr.done).rows == db.rows[pr.phase.work.txn.id := pr.phase.settled.effect.row]
    ensures pr.op.Submission? || pr.op.Recovery?
  {
    hide Inv, ProcOk, SerialFresh, ApplyAll, ApplyEffect, Committed, Landed, InPlace;
    WritingCommits(db, pr);
    SettledShape(db, pr);
    assert pr.phase.settled.effect.row.txn.id == pr.phase.work.txn.id;
    AppliedParts(db, pr.phase.settled.effect);
    RowsOfCommitted(db, pr);
    WritesOfWork(db, pr);
  }

  lemma WritesOfWork(db: Db, pr: Proc)
    requires ProcOk(db, pr) && pr.phase.Writing?
    ensures pr.op.Submission? || pr.op.Recovery?
  {
    hide OpOk, Settle, ReferenceKnown, Statements;
  }

  /** A pass over a waiting row counts as claimed or unclaimed and leaves it waiting, or ends it within the bound. */
  lemma PassCounts(db: Db, log: seq<Entry>, pr: Proc, env: Env)
    requires Inv(db) && ProcOk(db, pr) && pr.phase.Writing? && pr.op.Recovery? && PassInstant(pr)
    requires pr.op.id in db.rows ==> RowWaits(db.rows[pr.op.id], log, pr.op.id)
    ensures RowWaits(pr.phase.settled.effect.row, log + [ResolveEntry(pr.op.id, env)], pr.op.id)
  {
    hide Inv, ProcOk, Settle, Waiting, Leased, Passes, SameCommand;
    PassRow(db, pr);
    var w, id := pr.phase.work, pr.op.id;
    var row, next := db.rows[id], pr.phase.settled.effect.row;
    LogGrows(log, ResolveEntry(id, env), id);
    WaitingIsBounded(row, Passes(log, id, true), Passes(log, id, false), Leased(log, id));
    CycleEndsOrReschedules(w.wall, w.txn, w.attempts, pr.phase.ref, pr.phase.claimRead, w.env);
    if next.txn.state == PendingReference {
      RescheduledWaits(row, next, Passes(log, id, true), Passes(log, id, false), Leased(log, id), w.env.now,
                       w.env.hash);
    }
  }

  lemma SubmissionCounts(db: Db, log: seq<Entry>, pr: Proc)
    requires ProcOk(db, pr) && pr.phase.Writing? && pr.op.Submission? && Unknown(log, pr.phase.work.txn.id)
    ensures RowWaits(pr.phase.settled.effect.row, log, pr.phase.work.txn.id)
  {
    hide ProcOk, Settle, Waiting, Leased, Passes;
    SubmittedRow(db, pr);
    var w := pr.phase.work;
    SubmissionEndsOrWaits(w.wall, w.txn, pr.phase.ref, pr.phase.claimRead, w.env);
    if pr.phase.settled.effect.row.txn.state == PendingReference {
      FirstWait(pr.phase.settled.effect.row, w.env.hash);
    }
  }

  /** Passes over other rows, submissions and openings count for nothing. */
  lemma OthersCountNothing(log: seq<Entry>, e: Entry, id: TransactionId)
    requires !IsLease(e, id) && !IsResolve(e, id)
    ensures Leased(log + [e], id) == Leased(log, id)
    ensures forall leased :: Passes(log + [e], id, leased) == Passes(log, id, leased)
  {
    hide Leased, Passes;
    LogGrows(log, e, id);
  }

  lemma OthersWait(rows: RowTable, log: seq<Entry>, e: Entry, held: set<TransactionId>)
    requires RowsWait(rows, log) && forall id | id !in held :: !IsLease(e, id) && !IsResolve(e, id)
    ensures forall id | id in rows && id !in held :: RowWaits(rows[id], log + [e], id)
    ensures forall id | id !in rows && id !in held :: Unknown(log + [e], id)
  {
    hide Leased, Passes, IsLease, IsResolve, Waiting;
    forall id | id !in held
           ensures (id in rows ==> RowWaits(rows[id], log + [e], id)) && (id !in rows ==> Unknown(log + [e], id)) {
      OthersCountNothing(log, e, id);
    }
  }

  lemma WritingWaits(db: Db, log: seq<Entry>, pr: Proc, spare: nat)
    requires Inv(db) && ProcOk(db, pr) && pr.phase.Writing? && pr.todo == []
    requires SerialFresh(db, pr.phase.work.env.serial)
    requires RowsWait(db.rows, log) && PassInstant(pr)
    ensures RowsWait(ApplyAll(db, pr.done).rows, log + [CommitEntry(pr, spare)])
  {
    hide Inv, ProcOk, SerialFresh, ApplyAll, RowWaits, Unknown, IsLease;
    CommittedRow(db, pr);
    var id := pr.phase.work.txn.id;
    var e := CommitEntry(pr, spare);
    if pr.op.Recovery? {
      PassRow(db, pr);
      PassCounts(db, log, pr, e.env);
      ResolveTouches(pr, spare);
      OthersWait(db.rows, log, e, {id});
    } else {
      SubmittedRow(db, pr);
      SubmissionCounts(db, log, pr);
      SubmitTouches(pr, spare);
      OthersWait(db.rows, log, e, {});
      SameCounts(pr.phase.settled.effect.row, log, e, id);
    }
  }

  lemma SameCounts(row: Row, log: seq<Entry>, e: Entry, id: TransactionId)
    requires RowWaits(row, log, id) && !IsLease(e, id) && !IsResolve(e, id)
    ensures RowWaits(row, log + [e], id)
  {
    hide Leased, Passes, Waiting;
    OthersCountNothing(log, e, id);
  }

  lemma ResolveTouches(pr: Proc, spare: nat)
    requires pr.op.Recovery?
    ensures CommitEntry(pr, spare) == ResolveEntry(pr.op.id, CommitEntry(pr, spare).env)
    ensures forall id | id != pr.op.id :: !IsLease(CommitEntry(pr, spare), id) && !IsResolve(CommitEntry(pr, spare), id)
  {
  }

  lemma SubmitTouches(pr: Proc, spare: nat)
    requires !pr.op.Recovery?
    ensures forall id :: !IsLease(CommitEntry(pr, spare), id) && !IsResolve(CommitEntry(pr, spare), id)
  {
  }

  lemma OpenedRow(o: Opened, env: Env, db: Db)
    requires AccountReady(db, o, env)
    ensures var after := ApplyOpened(db, o).rows;
            && (after == db.rows
                || (env.serial in after && after == db.rows[env.serial := after[env.serial]] && env.serial !in db.rows
                    && after[env.serial].txn.state == Processed && after[env.serial].txn.updatedAt == env.now))
  {
  }

  lemma CommitWaits(db: Db, log: seq<Entry>, pr: Proc, spare: nat)
    requires Inv(db) && ProcOk(db, pr) && ReadyToCommit(pr) && (SerialOf(pr) != 0 ==> SerialFresh(db, SerialOf(pr)))
    requires RowsWait(db.rows, log) && PassInstant(pr)
    ensures RowsWait(ApplyAll(db, pr.done).rows, log + [CommitEntry(pr, spare)])
  {
    hide Inv, ProcOk, SerialFresh, ApplyAll, RowWaits, Unknown, IsLease, IsResolve, Landed, ApplyOpened, CommitEntry;
    if pr.phase.Writing? {
      LocalSteps.EnvOfWork(db, pr);
      WritingWaits(db, log, pr, spare);
    } else {
      NoRecovery(db, pr);
      SubmitTouches(pr, spare);
      OthersWait(db.rows, log, CommitEntry(pr, spare), {});
      if pr.phase.Completing? {
        CompletingCommits(db, pr);
      } else {
        EnvOfAccount(db, pr);
        AccountCommits(db, pr);
        OpenedRow(pr.phase.account, pr.phase.env, db);
        EndedIsBounded(ApplyOpened(db, pr.phase.account).rows, log + [CommitEntry(pr, spare)], pr.phase.env.serial);
      }
    }
  }

  lemma NoRecovery(db: Db, pr: Proc)
    requires ProcOk(db, pr) && (pr.phase.Completing? || pr.phase.WritingAccount?)
    ensures !pr.op.Recovery?
  {
    hide OpOk, AccountReady, OpenStatements, AnsweredBy;
  }

  lemma EndedIsBounded(rows: RowTable, log: seq<Entry>, id: TransactionId)
    ensures id in rows && rows[id].txn.state == Processed && Unknown(log, id) ==> RowWaits(rows[id], log, id)
  {
  }

  // ----- Claims -----

  function Touched(row: Row, now: Time, lease: nat): Row {
    if DueReference(row, now) then row.(claimedUntil := now + lease, txn := row.txn.(updatedAt := now)) else row
  }

  lemma TouchedOnce(db: Db, id: TransactionId, now: Time, lease: nat)
    ensures var after := LeaseReference(db, id, now, lease).rows;
            && after.Keys == db.rows.Keys
            && forall other | other in db.rows ::
                 after[other] == if other == id then Touched(db.rows[other], now, lease) else db.rows[other]
  {
  }

  lemma TouchedAgain(row: Row, now: Time, lease: nat)
    ensures Touched(Touched(row, now, lease), now, lease) == Touched(row, now, lease)
  {
  }

  lemma {:induction false} ClaimTouches(db: Db, picked: seq<TransactionId>, now: Time, lease: nat)
    ensures var after := LeaseReferences(db, picked, now, lease).rows;
            && after.Keys == db.rows.Keys
            && forall id | id in db.rows :: after[id] == if id in picked then Touched(db.rows[id], now, lease)
               else db.rows[id]
    decreases picked
  {
    hide LeaseReference, Touched;
    if picked != [] {
      TouchedOnce(db, picked[0], now, lease);
      ClaimTouches(LeaseReference(db, picked[0], now, lease), picked[1..], now, lease);
      if picked[0] in db.rows {
        TouchedAgain(db.rows[picked[0]], now, lease);
      }
    }
  }

  lemma ClaimWaits(s: System, picked: seq<TransactionId>, lease: nat)
    requires LeaseEnabled(s, picked) && RowsWait(s.db.rows, s.log)
    ensures RowsWait(LeaseReferences(s.db, picked, s.clock, lease).rows, s.log + [LeaseEntry(picked, s.clock, lease)])
  {
    hide Passes, Leased, Waiting, LeaseReferences, Holdings;
    var e := LeaseEntry(picked, s.clock, lease);
    ClaimTouches(s.db, picked, s.clock, lease);
    var after := LeaseReferences(s.db, picked, s.clock, lease).rows;
    forall id ensures (id in after ==> RowWaits(after[id], s.log + [e], id))
           && (id !in after ==> Unknown(s.log + [e], id)) {
      LogGrows(s.log, e, id);
      if id in picked {
        assert DueReference(s.db.rows[id], s.clock);
        assert RowWaits(s.db.rows[id], s.log, id);
        ClaimedWaits(s.db.rows[id], after[id], Passes(s.log, id, true), Passes(s.log, id, false), Leased(s.log, id),
                     s.clock);
      }
    }
  }

  // ----- Instants -----

  lemma CommitInstants(db: Db, pr: Proc, clock: Time)
    requires Inv(db) && ProcOk(db, pr) && ReadyToCommit(pr) && (SerialOf(pr) != 0 ==> SerialFresh(db, SerialOf(pr)))
    requires RowInstants(db.rows, clock) && PassInstant(pr) && PhaseTimes(pr, clock)
    ensures RowInstants(ApplyAll(db, pr.done).rows, clock)
  {
    hide Inv, ProcOk, SerialFresh, ApplyAll, Landed, ApplyOpened, Settle;
    if pr.phase.Writing? {
      LocalSteps.EnvOfWork(db, pr);
      CommittedRow(db, pr);
      var w := pr.phase.work;
      Decided(db, pr);
      EndedKeepsInstant(w.wall, w.txn, w.attempts, pr.phase.ref, pr.phase.claimRead, w.env);
    } else if pr.phase.Completing? {
      CompletingCommits(db, pr);
    } else {
      EnvOfAccount(db, pr);
      AccountCommits(db, pr);
      OpenedRow(pr.phase.account, pr.phase.env, db);
    }
  }

  lemma Decided(db: Db, pr: Proc)
    requires ProcOk(db, pr) && pr.phase.Writing?
    ensures var w := pr.phase.work;
            Settle(w.wall, w.txn, w.attempts, pr.phase.ref, pr.phase.claimRead, w.env) == Ok(pr.phase.settled)
  {
    hide OpOk, InPlace, Settle, ReferenceKnown, Statements;
  }

  lemma NewInstant(wall: Result<Option<Wallet>, AppError>, pr: Proc, env: Env)
    requires pr.op.Submission? && NewTransaction(wall, pr.op.cmd, env).Ok?
    ensures NewTransaction(wall, pr.op.cmd, env).value.updatedAt == env.now
  {
  }

  /** Only taking the wallet's lock takes a reading: the row was last touched before it. */
  lemma ActionInstants(s: System, pr: Proc, a: Action)
    requires ProcOk(s.db, pr) && PhaseFits(pr, a) && PassInstant(pr) && RowInstants(s.db.rows, s.clock)
    ensures PassInstant(AfterAction(s, pr, a))
  {
    hide OpOk, LoadReference, View, LookupKey, LookupExternal, ReplayOrConflict, ExternalAnswer, Settle, Statements,
         CompletionOf, ClaimRead, Rehydrate, NewTransaction, LookupWallet, OpenWallet, OpenStatements, InPlace, Locked,
         Begun, ReferenceKnown, AccountWriting, AnsweredBy, Wrote;
    if a.LockWalletStep? {
      var wall, env := LookupWallet(s.db, pr.op.cmd.walletId), NewEnv(s, a.correlation, a.hash);
      if NewTransaction(wall, pr.op.cmd, env).Ok? {
        NewInstant(wall, pr, env);
      }
    }
  }

  lemma StartInstant(op: Op, now: Time)
    ensures PassInstant(Started(op, now))
  {
    hide Precheck;
  }

  lemma EndInstant(pr: Proc, a: Answer)
    ensures PassInstant(Finish(pr, a))
  {
  }

  lemma ClaimInstants(db: Db, picked: seq<TransactionId>, clock: Time, lease: nat)
    requires RowInstants(db.rows, clock)
    ensures RowInstants(LeaseReferences(db, picked, clock, lease).rows, clock)
  {
    hide LeaseReferences;
    ClaimTouches(db, picked, clock, lease);
  }

  // ----- Runs -----

  lemma StepWaits(s: System, step: Step)
    requires SysOk(s) && Timely(s) && WaitsOk(s) && Enabled(s, step)
    ensures WaitsOk(Do(s, step))
  {
    hide Inv, ProcOk, Exclusive, TimesOk, PhaseTimes, LeaseReferences, ApplyAll, ReadyToCommit, AfterAction, Started,
         CommitAnswer, LeaseEnabled, SerialFresh, SerialOf, RowsWait, PassInstant, CommitEntry, FutureIsFresh,
         RowInstants;
    if s.steady {
      match step
      case Start(p, op) => StartInstant(op, s.clock);
      case Local(p, a) =>
        SafeProc(s, p);
        ActionInstants(s, s.procs[p], a);
      case CommitStep(p, replyLost) =>
        SafeProc(s, p);
        CommitWaits(s.db, s.log, s.procs[p], s.nextSerial);
        CommitInstants(s.db, s.procs[p], s.clock);
        EndInstant(s.procs[p], if replyLost then Failure(Transient) else CommitAnswer(s.procs[p]));
      case StopStep(_) =>
      case LeaseStep(picked, lease) =>
        ClaimWaits(s, picked, lease);
        ClaimInstants(s.db, picked, s.clock, lease);
      case TickStep(now) => InstantsPass(s.db.rows, s.clock, now);
    }
  }

  lemma InstantsPass(rows: RowTable, clock: Time, now: Time)
    requires RowInstants(rows, clock) && clock <= now
    ensures RowInstants(rows, now)
  {
  }

  lemma {:induction false} RunsWait(trace: seq<System>, i: nat)
    requires Run(trace) && i < |trace|
    ensures WaitsOk(trace[i])
  {
    hide SysOk, Enabled, Do, Timely, WaitsOk;
    if i == 0 {
      InitWaits(trace[0]);
    } else {
      RunsWait(trace, i - 1);
      RunsAreSafe(trace, i - 1);
      RunsAreTimely(trace, i - 1);
      assert Next(trace[i - 1], trace[i - 1 + 1]);
      var step :| Enabled(trace[i - 1], step) && trace[i] == Do(trace[i - 1], step);
      StepWaits(trace[i - 1], step);
    }
  }

  lemma InitWaits(s: System)
    requires Init(s)
    ensures WaitsOk(s)
  {
  }

  /** Over every run under a clock that never goes back: the retry counter of a waiting operation counts exactly its
      committed passes; at most 104 of them followed a claim of the row since the pass before, so the counter is at most
      104 plus the passes without such a claim; and once it has ended, at most 105 passes did, the one that ended it
      included. */
  lemma WaitsAreBounded(trace: seq<System>, i: nat, id: TransactionId)
    requires Run(trace) && trace[0].steady && i < |trace| && id in trace[i].db.rows
    ensures var row, log := trace[i].db.rows[id], trace[i].log;
            && Passes(log, id, true) <= MAX_RESCHEDULES + 1
            && (row.txn.state == PendingReference ==>
                  && row.attempts == Passes(log, id, true) + Passes(log, id, false)
                  && Passes(log, id, true) <= MAX_RESCHEDULES
                     && row.attempts <= MAX_RESCHEDULES + Passes(log, id, false))
  {
    hide Run, Passes, Leased;
    RunsWait(trace, i);
    RunsAreTimely(trace, i);
    var row, log := trace[i].db.rows[id], trace[i].log;
    assert RowWaits(row, log, id);
    if row.txn.state == PendingReference {
      WaitingIsBounded(row, Passes(log, id, true), Passes(log, id, false), Leased(log, id));
    }
  }
}
