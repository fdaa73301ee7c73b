/** Concrete runs that show what the exact conditions exclude: an overtaken operation, a movement stamped before its
    wallet's creation and a reschedule stamped before its row's. */
module Counterexamples {
  import opened Results
  import opened MoneyValue
  import opened Wager
  import opened Wallets
  import opened AppErrors
  import opened Commands
  import opened Resolution
  import opened Tables
  import opened Settlement
  import opened Operations
  import opened Invariants
  import opened SettlementSafety
  import opened StatementRuns
  import opened OperationSafety
  import opened Interleaving
  import opened Noninterference
  import opened Commitment
  import opened SystemSafety
  import opened RunBuilding
  import opened Readings
  import LocalSteps
  import SerialDecision
  import SerialRuns
  import SerialExactness
  import SteadyClock

  // ----- What the operations of these runs decide -----

  lemma ReadyAtClaim(s: System, p: ProcId)
    requires SysOk(s) && p in s.procs && s.procs[p].phase.ReadingClaim?
    ensures var w := s.procs[p].phase.work; Decidable(w.wall, w.txn, w.env) && Inv(s.db) && ProcOk(s.db, s.procs[p])
    ensures SerialFresh(s.db, s.procs[p].phase.work.env.serial)
  {
    hide Inv, ProcOk, Exclusive, SerialFresh, FutureIsFresh, Decidable;
    assert ProcOk(s.db, s.procs[p]);
    LocalSteps.EnvOfWork(s.db, s.procs[p]);
    WorkAtClaim(s.db, s.procs[p]);
  }

  lemma WorkAtClaim(db: Db, pr: Proc)
    requires Inv(db) && ProcOk(db, pr) && pr.phase.ReadingClaim? && SerialFresh(db, pr.phase.work.env.serial)
    ensures Decidable(pr.phase.work.wall, pr.phase.work.txn, pr.phase.work.env)
  {
    hide Inv, SerialFresh, Settleable, Decidable, OpOk, NewTransaction, RehydrateWallet, ReferenceKnown, WorkPrefix,
         ClaimRead;
    SettleableIsDecidable(db, pr.phase.work.wall, pr.phase.work.txn, pr.phase.work.env);
  }

  /** A LOSS is processed without moving money. */
  lemma LossSettles(w: Work) returns (settled: Settled)
    requires Decidable(w.wall, w.txn, w.env) && w.txn.kind == Loss && w.txn.state == Pending && w.attempts == 0
    ensures Settle(w.wall, w.txn, 0, Ok(None), false, w.env) == Ok(settled)
    ensures var e := settled.effect;
            e.row.txn.id == w.txn.id && e.row.txn.state == Processed && ExternalOf(e.row.txn) == ExternalOf(w.txn)
    ensures settled.effect.transfer.None? && settled.effect.row.txn.origin == External
    ensures NeedsReference(settled.effect.row.txn) == NeedsReference(w.txn)
  {
    LossIsQuiet(w.wall, w.txn, NOTHING, w.env);
    settled := ProcessWithoutMovement(w.wall, w.txn, NOTHING, w.env).value;
  }

  /** A first submission whose reference is not there waits. */
  lemma WaitSettles(w: Work) returns (settled: Settled)
    requires Decidable(w.wall, w.txn, w.env) && NeedsReference(w.txn) && w.txn.state == Pending && w.attempts == 0
    requires w.txn.createdAt == w.txn.updatedAt == w.env.now
    ensures Settle(w.wall, w.txn, 0, Ok(None), false, w.env) == Ok(settled)
    ensures var e := settled.effect;
            e.row.txn.id == w.txn.id && e.row.txn.state == PendingReference && SameCommand(w.txn, e.row.txn)
    ensures settled.effect.transfer.None?
  {
    AwaitIsQuiet(w.wall, w.txn, w.env);
    settled := AwaitReference(w.txn, w.env).value;
  }

  /** A WIN without a reference credits its wallet. */
  lemma WinSettles(w: Work) returns (settled: Settled)
    requires Decidable(w.wall, w.txn, w.env) && w.txn.kind == Win && !NeedsReference(w.txn) && w.txn.state == Pending
    requires w.attempts == 0
    requires w.wall.balance.minorUnits + w.txn.amount.minorUnits <= MAX_INT64
    ensures Settle(w.wall, w.txn, 0, Ok(None), false, w.env) == Ok(settled)
    ensures settled.effect.transfer.Some? && SameCommand(w.txn, settled.effect.row.txn)
  {
    var plan := Plan(Some(Movement(Credit, w.txn.amount)), false, 0, NoFailure, false);
    assert PlanOperation(w.txn, None, false) == Ok(plan);
    MovementEnds(w.wall, w.txn, plan, plan.movement.value, w.env);
    SettleUnfolds(w.wall, w.txn, 0, None, false, w.env);
    settled := ApplyMovement(w.wall, w.txn, plan, plan.movement.value, w.env).value;
  }

  /** What is known of the work of a submission from its command. */
  lemma WorkFacts(s: System, cmd: SubmitWagerCommand)
    requires NewTransaction(LookupWallet(s.db, cmd.walletId), cmd, EnvOf(s)).Ok?
    ensures var w := WorkOf(s, cmd);
            && w.txn.kind == cmd.kind && w.txn.referenceExternalId == cmd.referenceExternalId
               && w.txn.providerId == cmd.providerId
            && w.txn.state == Pending && w.txn.id == s.nextSerial
               && w.txn.createdAt == w.txn.updatedAt == w.env.now == s.clock
            && w.attempts == 0 && w.txn.walletId == cmd.walletId && w.txn.amount == cmd.amount
               && w.env.serial == s.nextSerial
            && KeyOf(w.txn) == (cmd.providerId, cmd.idempotencyKey)
               && ExternalOf(w.txn) == (cmd.providerId, cmd.externalId)
            && cmd.walletId in s.db.wallets && w.wall == s.db.wallets[cmd.walletId]
  {
    hide RehydrateWallet;
  }

  predicate NobodyHolds(s: System) {
    forall q | q in s.procs :: Holdings(s.procs[q]) == NOTHING_HELD
  }

  lemma NobodyIsFree(s: System, p: ProcId, f: Footprint)
    requires NobodyHolds(s)
    ensures Free(s, p, f)
  {
    hide Holdings;
  }

  // ----- An overtaken operation -----

  /** A REFUND and a LOSS on another wallet whose external identity the REFUND names as its reference. */
  predicate Crossing(refund: SubmitWagerCommand, loss: SubmitWagerCommand) {
    && refund.kind == Refund && loss.kind == Loss && refund.walletId != loss.walletId
       && refund.providerId == loss.providerId
    && loss.externalId == refund.referenceExternalId && refund.externalId != loss.externalId
       && refund.idempotencyKey != loss.idempotencyKey
    && loss.referenceExternalId == ""
  }

  ghost predicate Starting(s: System, refund: SubmitWagerCommand, loss: SubmitWagerCommand, p: ProcId, q: ProcId) {
    && Reached(s) && SerialExactness.AsReplayed(s) && NobodyHolds(s) && p != q && Crossing(refund, loss)
    && MaySettle(s, p, refund) && MaySettle(s, q, loss) && (loss.providerId, "") !in s.db.byExternal
  }

  function RefundReading(s: System, refund: SubmitWagerCommand): Proc
    requires NewTransaction(LookupWallet(s.db, refund.walletId), refund, EnvOf(s)).Ok?
  {
    var w := WorkOf(s, refund);
    SubmissionAt(refund, [InsertRow(w.txn)], ReadingClaim(w, Ok(None)))
  }

  /** The LOSS may run from start to commit while the compensation stands before its claim read. */
  lemma LossIsFree(s: System, refund: SubmitWagerCommand, loss: SubmitWagerCommand, p: ProcId, q: ProcId)
    requires Starting(s, refund, loss, p, q)
    ensures var mid := With(s, p, RefundReading(s, refund), 1);
            && MaySettle(mid, q, loss) && Free(mid, q, SubmissionFootprint(mid, loss))
  {
    hide Reached, Validate, RehydrateWallet;
    var mid := With(s, p, RefundReading(s, refund), 1);
    Holds(s, refund, RefundReading(s, refund));
    LaterSerial(LookupWallet(s.db, loss.walletId), loss, EnvOf(s), EnvOf(mid));
  }

  lemma ReferenceIsAbsent(s: System, refund: SubmitWagerCommand, loss: SubmitWagerCommand, p: ProcId, q: ProcId)
    requires Starting(s, refund, loss, p, q)
    ensures (refund.providerId, refund.referenceExternalId) !in s.db.byExternal
    ensures refund.referenceExternalId != refund.externalId
    ensures refund.referenceExternalId != "" && loss.referenceExternalId != loss.externalId
  {
    hide Reached, NewTransaction, LookupWallet;
  }

  lemma LaterSerial(wall: Result<Option<Wallet>, AppError>, cmd: SubmitWagerCommand, a: Env, b: Env)
    requires NewTransaction(wall, cmd, a).Ok? && b.serial >= a.serial && b.now == a.now
    ensures NewTransaction(wall, cmd, b).Ok?
  {
  }

  lemma LossDecides(s: System, refund: SubmitWagerCommand, loss: SubmitWagerCommand, p: ProcId, q: ProcId)
    returns (settled: Settled)
    requires Starting(s, refund, loss, p, q)
    ensures var mid := With(s, p, RefundReading(s, refund), 1);
            && NewTransaction(LookupWallet(mid.db, loss.walletId), loss, EnvOf(mid)).Ok?
            && Reached(With(mid, q, DecidedAt(loss, WorkOf(mid, loss), settled), 1))
    ensures var row := settled.effect.row;
            && row.txn.id == s.nextSerial + 1 && row.txn.state == Processed && row.txn.origin == External
            && ExternalOf(row.txn) == (loss.providerId, loss.externalId) && !NeedsReference(row.txn)
  {
    hide Reached, Holdings, Covered, Disjoint, NewTransaction, LookupWallet, DecidedAt, Settle, WorkOf, SysOk,
         MaySubmit, Decidable, Serial, SerialExactness.AsReplayed, Free, SubmissionFootprint;
    var mid := With(s, p, RefundReading(s, refund), 1);
    ReferenceIsAbsent(s, refund, loss, p, q);
    NobodyIsFree(s, p, SubmissionFootprint(s, refund));
    ComesToClaim(s, p, refund);
    LossIsFree(s, refund, loss, p, q);
    ComesToClaim(mid, q, loss);
    WorkFacts(mid, loss);
    LossNeedsNone(s, mid, refund, loss, p, q);
    var w := WorkOf(mid, loss);
    var reading := With(mid, q, SubmissionAt(loss, [InsertRow(w.txn)], ReadingClaim(w, Ok(None))), 1);
    ReachedIsSafe(reading);
    ReadyAtClaim(reading, q);
    settled := LossSettles(w);
    ComesToCommit(mid, mid, q, loss, 1, settled);
  }

  /** The compensation reads its reference as absent; then the LOSS runs and commits. */
  lemma LossCommits(s: System, refund: SubmitWagerCommand, loss: SubmitWagerCommand, p: ProcId, q: ProcId)
    returns (t: System, row: Row)
    requires Starting(s, refund, loss, p, q)
    ensures Reached(t) && SerialExactness.AsReplayed(t) && Free(t, p, SubmissionFootprint(s, refund))
    ensures p in t.procs && t.procs[p] == RefundReading(s, refund)
    ensures t.db.rows == s.db.rows[s.nextSerial + 1 := row] && row.txn.state == Processed && !NeedsReference(row.txn)
    ensures t.steady == s.steady
    ensures (loss.providerId, loss.externalId) in t.db.byExternal
  {
    hide Reached, Holdings, NewTransaction, LookupWallet, DecidedAt, WorkOf, ApplyEffect, MaySubmit, Serial,
         SerialExactness.AsReplayed, Free, Crossing;
    var settled := LossDecides(s, refund, loss, p, q);
    var mid := With(s, p, RefundReading(s, refund), 1);
    var w := WorkOf(mid, loss);
    LossNeedsNone(s, mid, refund, loss, p, q);
    CommitsDecision(mid, q, loss, w, 1, settled);
    t := Ended(mid, q, DecidedAt(loss, w, settled), 1, ApplyEffect(mid.db, settled.effect));
    row := settled.effect.row;
    AppliedParts(mid.db, settled.effect);
    ReplayedAt(s, mid);
    PlainCommitIsReplayed(mid, q, loss, w, 1, settled);
    EndedIsFree(s, refund, p, q, t);
  }

  lemma ReplayedAt(s: System, mid: System)
    requires SerialExactness.AsReplayed(s) && mid.db == s.db && mid.log == s.log
    ensures SerialExactness.AsReplayed(mid)
  {
  }

  lemma LossNeedsNone(s: System, mid: System, refund: SubmitWagerCommand, loss: SubmitWagerCommand, p: ProcId,
                      q: ProcId)
    requires Starting(s, refund, loss, p, q)
    requires NewTransaction(LookupWallet(mid.db, loss.walletId), loss, EnvOf(mid)).Ok?
    ensures !NeedsReference(WorkOf(mid, loss).txn)
  {
    hide Reached, NewTransaction, LookupWallet;
    WorkFacts(mid, loss);
  }

  lemma EndedIsFree(s: System, refund: SubmitWagerCommand, p: ProcId, q: ProcId, t: System)
    requires NobodyHolds(s) && p != q
    requires (forall r | r in t.procs && r != p && r != q :: r in s.procs && t.procs[r] == s.procs[r])
    requires q in t.procs && t.procs[q].phase.Finished?
    ensures Free(t, p, SubmissionFootprint(s, refund))
  {
  }

  lemma PlainCommitIsReplayed(t: System, p: ProcId, cmd: SubmitWagerCommand, w: Work, drawn: nat, settled: Settled)
    requires Reached(With(t, p, DecidedAt(cmd, w, settled), drawn)) && SerialExactness.AsReplayed(t)
    requires !NeedsReference(w.txn)
    ensures SerialExactness.AsReplayed(Ended(t, p, DecidedAt(cmd, w, settled), drawn,
                                             ApplyEffect(t.db, settled.effect)))
  {
    hide Reached, ApplyEffect, SysOk, Serial, Ended, Statements;
    var now := With(t, p, DecidedAt(cmd, w, settled), drawn);
    ReachedIsSafe(now);
    CommitsDecision(t, p, cmd, w, drawn, settled);
    SerialExactness.StepsAsReplayed(now, CommitStep(p, false));
  }

  /** Then the compensation decides to wait and commits: overtaken, it leaves rows no serial run leaves. */
  lemma RefundIsOvertaken(s: System, refund: SubmitWagerCommand, loss: SubmitWagerCommand, p: ProcId, q: ProcId)
    returns (t: System, first: Row, second: Row)
    requires Starting(s, refund, loss, p, q)
    ensures Reached(t) && t.steady == s.steady && !SerialExactness.RowsAsReplayed(t)
    ensures t.db.rows == s.db.rows[s.nextSerial + 1 := first][s.nextSerial := second]
    ensures first.txn.state == Processed && !NeedsReference(first.txn) && second.txn.state == PendingReference
  {
    hide Reached, Holdings, Covered, Disjoint, NewTransaction, LookupWallet, DecidedAt, Settle, Written, WorkOf, SysOk,
         ApplyEffect, MaySubmit, Decidable, Serial, Free, SameCommand, SerialExactness.AsReplayed,
         SerialExactness.RowsAsReplayed, Statements;
    ReferenceIsAbsent(s, refund, loss, p, q);
    var mid, row := LossCommits(s, refund, loss, p, q);
    first := row;
    WorkFacts(s, refund);
    var w := WorkOf(s, refund);
    var settled := RefundWaits(s, mid, refund, p);
    CommitsDecision(mid, p, refund, w, 0, settled);
    t := Ended(mid, p, DecidedAt(refund, w, settled), 0, ApplyEffect(mid.db, settled.effect));
    second := settled.effect.row;
    AppliedParts(mid.db, settled.effect);
    OvertakenCommitShows(mid, p, refund, w, settled);
  }

  lemma RefundWaits(s: System, mid: System, refund: SubmitWagerCommand, p: ProcId) returns (settled: Settled)
    requires NewTransaction(LookupWallet(s.db, refund.walletId), refund, EnvOf(s)).Ok?
    requires refund.referenceExternalId != ""
    requires Reached(mid) && Free(mid, p, SubmissionFootprint(s, refund)) && p in mid.procs
    requires mid.procs[p] == RefundReading(s, refund)
    ensures Reached(With(mid, p, DecidedAt(refund, WorkOf(s, refund), settled), 0))
    ensures settled.effect.row.txn.id == s.nextSerial && settled.effect.row.txn.state == PendingReference
    ensures settled.effect.transfer.None?
  {
    hide Reached, Holdings, Covered, Disjoint, NewTransaction, LookupWallet, DecidedAt, Settle, WorkOf, SysOk,
         Decidable, Free, SameCommand, SubmissionFootprint;
    WorkFacts(s, refund);
    var w := WorkOf(s, refund);
    assert mid.procs[p := RefundReading(s, refund)] == mid.procs;
    ReachedIsSafe(mid);
    ReadyAtClaim(mid, p);
    settled := WaitSettles(w);
    ComesToCommit(s, mid, p, refund, 0, settled);
  }

  lemma OvertakenCommitShows(t: System, p: ProcId, cmd: SubmitWagerCommand, w: Work, settled: Settled)
    requires Reached(With(t, p, DecidedAt(cmd, w, settled), 0)) && SerialExactness.AsReplayed(t)
    requires NeedsReference(w.txn) && (w.txn.providerId, w.txn.referenceExternalId) in t.db.byExternal
    ensures !SerialExactness.RowsAsReplayed(Ended(t, p, DecidedAt(cmd, w, settled), 0,
                                                  ApplyEffect(t.db, settled.effect)))
  {
    hide Reached, ApplyEffect, SysOk, Serial, Ended, Statements;
    var now := With(t, p, DecidedAt(cmd, w, settled), 0);
    ReachedIsSafe(now);
    CommitsDecision(t, p, cmd, w, 0, settled);
    SerialExactness.StepsAsReplayed(now, CommitStep(p, false));
  }

  // ----- Starting from nothing -----

  /** Opening an empty wallet, seen from outside. */
  lemma OpensEmpty(s: System, p: ProcId, open: OpenWalletCommand, id: WalletId) returns (t: System)
    requires Reached(s) && NobodyHolds(s) && p !in s.procs && s.clock != 0 && ValidateOpen(open).Ok?
    requires open.initialBalance.minorUnits == 0
    requires id != "" && id !in s.db.wallets && (open.playerId, open.initialBalance.currency) !in s.db.owners
    requires forall q | q in s.procs && s.procs[q].op.OpenAccount? :: s.procs[q].op.walletId != id
    ensures Reached(t) && NobodyHolds(t) && t.procs.Keys == s.procs.Keys + {p} && t.clock == s.clock
    ensures t.steady == s.steady
    ensures t.db == Apply(s.db, InsertWallet(EmptyWallet(s, open, id))) && t.procs[p].op == OpenAccount(open, id)
    ensures forall q | q in s.procs :: t.procs[q] == s.procs[q]
    ensures t.nextSerial > s.nextSerial && (SerialExactness.AsReplayed(s) ==> SerialExactness.AsReplayed(t))
  {
    hide Reached, Holdings, Apply, SerialExactness.AsReplayed, EmptyWallet, AccountFootprint;
    NobodyIsFree(s, p, AccountFootprint(s, EmptyWallet(s, open, id)));
    Opens(s, p, open, id);
    var pr := Written(AccountProc(s, open, id));
    t := Ended(s, p, pr, 1, Apply(s.db, InsertWallet(EmptyWallet(s, open, id))));
    EndedHoldsNothing(pr);
    if SerialExactness.AsReplayed(s) {
      OpeningIsReplayed(s, p, open, id);
    }
  }

  lemma EndedHoldsNothing(pr: Proc)
    ensures Holdings(Finish(pr, CommitAnswer(pr))) == NOTHING_HELD
  {
  }

  lemma OpeningIsReplayed(s: System, p: ProcId, open: OpenWalletCommand, id: WalletId)
    requires Reached(s) && MayOpen(s, p, open, id) && SerialExactness.AsReplayed(s)
    ensures SerialExactness.AsReplayed(Ended(s, p, Written(AccountProc(s, open, id)), 1,
                                             Apply(s.db, InsertWallet(EmptyWallet(s, open, id)))))
  {
    hide Reached, SysOk, Serial, Ended, Apply, Free, ApplyAll;
    var pr := Written(AccountProc(s, open, id));
    var now := With(s, p, pr, 1);
    ComesToOpen(s, p, open, id);
    ReachedIsSafe(now);
    Commits(s, p, pr, 1);
    RunOne(s.db, InsertWallet(EmptyWallet(s, open, id)));
    assert pr.done == [InsertWallet(EmptyWallet(s, open, id))];
    SerialExactness.StepsAsReplayed(now, CommitStep(p, false));
  }

  function Fresh(clock: Time, steady: bool): System {
    System(EMPTY, map[], 1, clock, steady, [])
  }

  lemma FreshIsReached(clock: Time, steady: bool)
    requires clock != 0
    ensures Reached(Fresh(clock, steady)) && SerialExactness.AsReplayed(Fresh(clock, steady))
    ensures NobodyHolds(Fresh(clock, steady))
  {
    InitIsReached(Fresh(clock, steady));
  }

  lemma OpenedAccepts(s: System, open: OpenWalletCommand, cmd: SubmitWagerCommand)
    requires Validate(cmd).Ok? && ValidateOpen(open).Ok? && s.clock != 0 && s.nextSerial != 0
    requires cmd.walletId in s.db.wallets && cmd.amount.currency == open.initialBalance.currency
    requires s.db.wallets[cmd.walletId].(createdAt := 1, updatedAt := 1) ==
               Wallet(cmd.walletId, open.playerId, open.initialBalance.currency, open.initialBalance, 1, 1, 1)
    requires Legible(s.db.wallets[cmd.walletId])
    ensures NewTransaction(LookupWallet(s.db, cmd.walletId), cmd, EnvOf(s)).Ok?
  {
    hide Validate;
    var w := s.db.wallets[cmd.walletId];
    assert w.id == cmd.walletId && w.playerId == open.playerId && w.currency == open.initialBalance.currency
           && w.balance == open.initialBalance && w.version == 1;
    assert cmd.walletId != "" by { NamesItsWallet(cmd); }
    assert RehydrateWallet(w).Ok?;
    ValidationAgreesWithConstructor(cmd, EnvOf(s));
  }

  lemma NamesItsWallet(cmd: SubmitWagerCommand)
    requires Validate(cmd).Ok?
    ensures cmd.walletId != "" && cmd.externalId != ""
  {
  }

  /** Two empty wallets, nothing else. */
  lemma TwoWallets(refund: SubmitWagerCommand, loss: SubmitWagerCommand, open: OpenWalletCommand,
                   other: OpenWalletCommand) returns (s: System)
    requires Validate(refund).Ok? && Validate(loss).Ok? && Crossing(refund, loss) && ValidateOpen(open).Ok?
    requires ValidateOpen(other).Ok?
    requires open.initialBalance.minorUnits == 0 && other.initialBalance.minorUnits == 0
    requires open.playerId != other.playerId
    requires refund.amount.currency == open.initialBalance.currency
    requires loss.amount.currency == other.initialBalance.currency
    ensures Starting(s, refund, loss, 2, 3) && s.steady && s.db.rows == map[]
  {
    hide Reached, Holdings, SerialExactness.AsReplayed, Validate, ValidateOpen, NobodyHolds, NewTransaction,
         LookupWallet;
    var start := Fresh(1, true);
    FreshIsReached(1, true);
    NamesItsWallet(refund);
    NamesItsWallet(loss);
    var one := OpensEmpty(start, 0, open, refund.walletId);
    s := OpensEmpty(one, 1, other, loss.walletId);
    OpenedAccepts(s, open, refund);
    OpenedAccepts(s, other, loss);
  }

  lemma RunOf(t: System) returns (run: seq<System>)
    requires Reached(t)
    ensures Run(run) && run != [] && run[|run| - 1] == t && run[0].steady == t.steady
  {
    hide Init, Next;
    run :| Run(run) && run[|run| - 1] == t;
    SteadyClock.RunsAreTimely(run, |run| - 1);
  }

  /** Of one row that ended without a reference and one that waits, only the waiting one can differ from the serial
      run's. */
  lemma WaitingRowDiffers(run: seq<System>, loss: TransactionId, refund: TransactionId)
    requires Run(run) && run != []
    requires var rows := run[|run| - 1].db.rows;
             && rows.Keys == {loss, refund} && rows[loss].txn.state == Processed
                && rows[refund].txn.state == PendingReference
             && rows != Serial(run[|run| - 1].log).rows
    ensures var here, there := run[|run| - 1].db.rows, Serial(run[|run| - 1].log).rows;
            refund in there && SameCommand(here[refund].txn, there[refund].txn) && there[refund].txn.state == Rejected
  {
    hide Serial, Run, SameCommand, SerialDecision.Hopeless;
    SerialRuns.InterleavingsAreSerializable(run, |run| - 1);
    var id :| id in run[|run| - 1].db.rows && run[|run| - 1].db.rows[id] != Serial(run[|run| - 1].log).rows[id];
    assert id == refund;
  }

  lemma WaitingRowCrosses(run: seq<System>, loss: TransactionId, refund: TransactionId)
    requires Run(run) && run != []
    requires var rows := run[|run| - 1].db.rows;
             rows.Keys == {loss, refund} && !NeedsReference(rows[loss].txn) && rows != Serial(run[|run| - 1].log).rows
    ensures SerialExactness.CrossesWallets(run[|run| - 1].db, refund)
  {
    hide Serial, Run, SerialExactness.CrossesWallets, NeedsReference;
    var db := run[|run| - 1].db;
    if !SerialExactness.CrossesWallets(db, refund) {
      forall id | id in db.rows ensures !SerialExactness.CrossesWallets(db, id) {
        if id == loss {
          StandsAlone(db, loss);
        }
      }
      SerialExactness.WithinWalletsRunsAreSerial(run, |run| - 1);
    }
  }

  lemma StandsAlone(db: Db, id: TransactionId)
    requires id in db.rows && !NeedsReference(db.rows[id].txn)
    ensures !SerialExactness.CrossesWallets(db, id)
  {
  }

  /** Any valid REFUND and any valid LOSS on another wallet under the identity it names can meet like this, even under a
      clock that never goes back: the REFUND reads its reference as absent, the LOSS commits, and then the REFUND
      commits. It waits here, while the serial run has rejected it. */
  lemma CrossingsCanBeOvertaken(refund: SubmitWagerCommand, loss: SubmitWagerCommand, open: OpenWalletCommand,
                                other: OpenWalletCommand)
    returns (run: seq<System>, id: TransactionId)
    requires Validate(refund).Ok? && Validate(loss).Ok? && Crossing(refund, loss) && ValidateOpen(open).Ok?
    requires ValidateOpen(other).Ok?
    requires open.initialBalance.minorUnits == 0 && other.initialBalance.minorUnits == 0
    requires open.playerId != other.playerId
    requires refund.amount.currency == open.initialBalance.currency
    requires loss.amount.currency == other.initialBalance.currency
    ensures Run(run) && run != [] && run[0].steady
    ensures var here, there := run[|run| - 1].db, Serial(run[|run| - 1].log);
            && here.rows != there.rows && id in here.rows && id in there.rows
               && SameCommand(here.rows[id].txn, there.rows[id].txn)
            && here.rows[id].txn.state == PendingReference && there.rows[id].txn.state == Rejected
            && SerialExactness.CrossesWallets(here, id)
  {
    hide Starting, Reached, Crossing, Validate, ValidateOpen, Run, SameCommand, Serial, SerialExactness.CrossesWallets,
         NeedsReference;
    var s := TwoWallets(refund, loss, open, other);
    var t, first, second := RefundIsOvertaken(s, refund, loss, 2, 3);
    id := s.nextSerial;
    run := RunOf(t);
    assert t.db.rows.Keys == {s.nextSerial + 1, id};
    WaitingRowDiffers(run, s.nextSerial + 1, id);
    WaitingRowCrosses(run, s.nextSerial + 1, id);
  }

  const ZERO := Money(0, "BRL")
  const ONE := Money(1, "BRL")
  const REFUND_OF_X := SubmitWagerCommand("v", "t", "k", "a", "p", "r", "g", Refund, ONE, "x")
  const LOSS_X := SubmitWagerCommand("v", "x", "l", "b", "q", "r", "g", Loss, ZERO, "")

  lemma CommandsAreGood()
    ensures Validate(REFUND_OF_X).Ok? && Validate(LOSS_X).Ok? && Crossing(REFUND_OF_X, LOSS_X)
    ensures ValidateOpen(OpenWalletCommand("p", ZERO)).Ok? && ValidateOpen(OpenWalletCommand("q", ZERO)).Ok?
  {
    assert |"a"| == |"b"| == 1 && "a"[0] != "b"[0] && "t"[0] != "x"[0] && "k"[0] != "l"[0];
  }

  /** So the rows of some run are not those of its serial run. */
  lemma SomeRunIsOvertaken() returns (run: seq<System>)
    ensures Run(run) && run != [] && run[0].steady && run[|run| - 1].db.rows != Serial(run[|run| - 1].log).rows
  {
    hide Run, Crossing, Validate, ValidateOpen, Serial, SerialExactness.CrossesWallets;
    CommandsAreGood();
    assert "p" != "q" by { assert "p"[0] != "q"[0]; }
    var id;
    run, id := CrossingsCanBeOvertaken(REFUND_OF_X, LOSS_X, OpenWalletCommand("p", ZERO), OpenWalletCommand("q", ZERO));
  }

  // ----- Stamps out of order -----

  /** The clock moves, in either direction. */
  lemma Ticks(s: System, now: Time)
    requires Reached(s) && now != 0 && !s.steady
    ensures Reached(s.(clock := now))
  {
    hide Reached;
    StepReaches(s, TickStep(now));
  }

  /** One empty wallet, opened at the first instant; the clock then moves to the second. */
  lemma OneWallet(open: OpenWalletCommand, cmd: SubmitWagerCommand, created: Time, now: Time) returns (s: System)
    requires ValidateOpen(open).Ok? && open.initialBalance.minorUnits == 0 && Validate(cmd).Ok? && created != 0
    requires now != 0
    requires cmd.amount.currency == open.initialBalance.currency
    ensures Reached(s) && NobodyHolds(s) && s.procs.Keys == {0} && MaySettle(s, 1, cmd) && s.clock == now && !s.steady
    ensures s.db.byKey == map[] && s.db.byExternal == map[] && s.db.rows == map[]
    ensures cmd.walletId in s.db.wallets && s.db.wallets[cmd.walletId].createdAt == created
    ensures s.db.wallets[cmd.walletId].balance.minorUnits == 0
    ensures Legible(s.db.wallets[cmd.walletId])
  {
    hide Reached, Holdings, Validate, ValidateOpen, NewTransaction, LookupWallet;
    FreshIsReached(created, false);
    NamesItsWallet(cmd);
    var one := OpensEmpty(Fresh(created, false), 0, open, cmd.walletId);
    Ticks(one, now);
    s := one.(clock := now);
    OpenedAccepts(s, open, cmd);
  }

  lemma DecidesAlone(s: System, cmd: SubmitWagerCommand)
    requires Reached(s) && NobodyHolds(s) && MaySettle(s, 1, cmd) && s.db.byExternal == map[]
    requires cmd.referenceExternalId != cmd.externalId
    ensures var w := WorkOf(s, cmd);
            && Reached(With(s, 1, SubmissionAt(cmd, [InsertRow(w.txn)], ReadingClaim(w, Ok(None))), 1))
               && Decidable(w.wall, w.txn, w.env)
  {
    hide Reached, Holdings, SysOk, NewTransaction, LookupWallet, MaySubmit, WorkOf, Decidable, SubmissionFootprint,
         Free;
    var w := WorkOf(s, cmd);
    NobodyIsFree(s, 1, SubmissionFootprint(s, cmd));
    ComesToClaim(s, 1, cmd);
    var reading := With(s, 1, SubmissionAt(cmd, [InsertRow(w.txn)], ReadingClaim(w, Ok(None))), 1);
    ReachedIsSafe(reading);
    ReadyAtClaim(reading, 1);
  }

  lemma CommitsAlone(s: System, cmd: SubmitWagerCommand, settled: Settled) returns (t: System)
    requires Reached(s) && NobodyHolds(s) && MaySettle(s, 1, cmd)
    requires var w := WorkOf(s, cmd);
             && Reached(With(s, 1, SubmissionAt(cmd, [InsertRow(w.txn)], ReadingClaim(w, Ok(None))), 1))
             && Settle(w.wall, w.txn, 0, Ok(None), false, w.env) == Ok(settled)
    ensures Reached(With(s, 1, DecidedAt(cmd, WorkOf(s, cmd), settled), 1)) && Reached(t)
    ensures t == Ended(s, 1, DecidedAt(cmd, WorkOf(s, cmd), settled), 1, ApplyEffect(s.db, settled.effect))
    ensures NobodyHolds(t)
  {
    hide Reached, Holdings, NewTransaction, LookupWallet, MaySubmit, WorkOf, SubmissionFootprint, Free, Settle,
         DecidedAt, ApplyEffect;
    NobodyIsFree(s, 1, SubmissionFootprint(s, cmd));
    ComesToCommit(s, s, 1, cmd, 1, settled);
    CommitsDecision(s, 1, cmd, WorkOf(s, cmd), 1, settled);
    EndedHoldsNothing(DecidedAt(cmd, WorkOf(s, cmd), settled));
    t := Ended(s, 1, DecidedAt(cmd, WorkOf(s, cmd), settled), 1, ApplyEffect(s.db, settled.effect));
  }

  /** A WIN commits under a reading before its wallet's creation. */
  lemma WinSpoilsWallet(win: SubmitWagerCommand, s: System) returns (t: System)
    requires Reached(s) && NobodyHolds(s) && MaySettle(s, 1, win) && s.db.byExternal == map[] && s.db.byKey == map[]
    requires win.kind == Win && win.referenceExternalId == "" && s.db.wallets[win.walletId].balance.minorUnits == 0
    requires s.clock < s.db.wallets[win.walletId].createdAt
    ensures Reached(t) && NobodyHolds(t) && t.procs.Keys == s.procs.Keys + {1} && Illegible(t.db, win.walletId)
    ensures t.steady == s.steady && t.clock == s.clock
    ensures t.db.byKey.Keys <= {(win.providerId, win.idempotencyKey)}
    ensures t.db.byExternal.Keys <= {(win.providerId, win.externalId)}
  {
    hide Reached, Holdings, SysOk, NewTransaction, LookupWallet, WorkOf, Decidable, DecidedAt, ApplyEffect, Settle,
         SameCommand;
    NamesItsWallet(win);
    WorkFacts(s, win);
    var w := WorkOf(s, win);
    DecidesAlone(s, win);
    var settled := WinSettles(w);
    t := CommitsAlone(s, win, settled);
    AppliedParts(s.db, settled.effect);
    SerialDecision.SameCommandSameIdentity(w.txn, settled.effect.row.txn);
    StampedWallet(s, win, w, settled);
  }

  lemma StampedWallet(s: System, cmd: SubmitWagerCommand, w: Work, settled: Settled)
    requires Reached(With(s, 1, DecidedAt(cmd, w, settled), 1)) && settled.effect.transfer.Some?
    requires w.env.now < w.wall.createdAt
    ensures Illegible(ApplyEffect(s.db, settled.effect), w.wall.id) && w.wall.id == w.txn.walletId
  {
    hide Reached, SysOk, ApplyEffect, Inv, ProcOk, Statements, ApplyAll, SerialFresh, Landed;
    var now := With(s, 1, DecidedAt(cmd, w, settled), 1);
    ReachedIsSafe(now);
    SafeProc(now, 1);
    SafeWork(now, 1);
    WritingCommits(s.db, DecidedAt(cmd, w, settled));
    CommittedWallets(s.db, DecidedAt(cmd, w, settled));
    WorkWallet(s.db, DecidedAt(cmd, w, settled));
  }

  /** The next submission on that wallet ends in a corrupt record. */
  lemma NextOneFails(t: System, cmd: SubmitWagerCommand)
    requires Reached(t) && NobodyHolds(t) && MaySubmit(t, 2, cmd) && Illegible(t.db, cmd.walletId)
    ensures Reached(With(t, 2, SubmissionAt(cmd, [], Finished(Failure(CorruptRecord))), 1))
  {
    hide Reached, Holdings, SysOk, LookupWallet, MaySubmit, SubmissionFootprint, Free, Illegible, AfterLockWallet,
         Covered;
    NobodyIsFree(t, 2, SubmissionFootprint(t, cmd));
    ComesToLock(t, 2, cmd);
    ReachedTables(t);
    IllegibleReads(t.db, cmd.walletId);
    var now := With(t, 2, SubmissionAt(cmd, [], LockingWallet), 0);
    var next := AfterLockWallet(t.db, SubmissionAt(cmd, [], LockingWallet), EnvOf(t));
    LockingFails(t, cmd);
    HoldsNothing(t, cmd, Finished(Failure(CorruptRecord)));
    Acts(t, 2, SubmissionAt(cmd, [], LockingWallet), 0, LockWalletStep("-", 0), SubmissionFootprint(t, cmd));
  }

  lemma LockingFails(t: System, cmd: SubmitWagerCommand)
    requires LookupWallet(t.db, cmd.walletId) == Err(CorruptRecord)
    ensures AfterLockWallet(t.db, SubmissionAt(cmd, [], LockingWallet), EnvOf(t)) ==
              SubmissionAt(cmd, [], Finished(Failure(CorruptRecord)))
  {
    hide LookupWallet;
  }

  lemma ReachedTables(t: System)
    requires Reached(t)
    ensures Inv(t.db)
  {
    hide Reached, Inv;
    ReachedIsSafe(t);
  }

  /** A WIN stamped before its wallet's creation, and the next submission on that wallet fails over a corrupt record. */
  lemma LateStampsBreakThePromise(open: OpenWalletCommand, win: SubmitWagerCommand, next: SubmitWagerCommand,
                                  created: Time, now: Time)
    returns (run: seq<System>)
    requires ValidateOpen(open).Ok? && open.initialBalance.minorUnits == 0 && Validate(win).Ok? && Validate(next).Ok?
    requires 0 < now < created
    requires win.amount.currency == open.initialBalance.currency && win.kind == Win && win.referenceExternalId == ""
    requires next.walletId == win.walletId && next.idempotencyKey != win.idempotencyKey
    requires next.externalId != win.externalId
    ensures Run(run) && run != [] && 2 in run[|run| - 1].procs && run[|run| - 1].procs[2].op == Submission(next, None)
    ensures run[|run| - 1].procs[2].phase == Finished(Failure(CorruptRecord))
  {
    hide Reached, NobodyHolds, Run, Validate, ValidateOpen, NewTransaction, LookupWallet, Illegible, Legible;
    var s := OneWallet(open, win, created, now);
    var t := WinSpoilsWallet(win, s);
    NextOneFails(t, next);
    run := RunOf(With(t, 2, SubmissionAt(next, [], Finished(Failure(CorruptRecord))), 1));
  }

  /** A compensation waits. */
  lemma RefundStartsToWait(refund: SubmitWagerCommand, s: System) returns (t: System, id: TransactionId)
    requires Reached(s) && NobodyHolds(s) && MaySettle(s, 1, refund) && s.db.byExternal == map[]
    requires refund.referenceExternalId != "" && refund.referenceExternalId != refund.externalId
    ensures Reached(t) && NobodyHolds(t) && t.procs.Keys == s.procs.Keys + {1} && t.steady == s.steady
    ensures t.db.wallets == s.db.wallets
    ensures id in t.db.rows && t.db.rows[id].txn.state == PendingReference && t.db.rows[id].txn.createdAt == s.clock
    ensures var x := t.db.rows[id].txn;
            && x.walletId == refund.walletId && NeedsReference(x)
               && (x.providerId, x.referenceExternalId) !in t.db.byExternal
  {
    hide Reached, Holdings, SysOk, NewTransaction, LookupWallet, WorkOf, Decidable, DecidedAt, ApplyEffect, Settle,
         MaySubmit;
    WorkFacts(s, refund);
    var w := WorkOf(s, refund);
    DecidesAlone(s, refund);
    var settled := WaitSettles(w);
    t := CommitsAlone(s, refund, settled);
    AppliedParts(s.db, settled.effect);
    id := w.txn.id;
  }

  lemma PassIsReady(t: System, id: TransactionId)
    requires Reached(t) && t.procs.Keys == {0, 1} && t.clock != 0 && id in t.db.rows
    requires t.db.rows[id].txn.state == PendingReference
    requires var x := t.db.rows[id].txn;
             && NeedsReference(x) && (x.providerId, x.referenceExternalId) !in t.db.byExternal
             && x.walletId in t.db.wallets && Legible(t.db.wallets[x.walletId])
    ensures MayRecover(t, 2, id)
  {
    hide Reached, Inv, RowOk;
    ReachedTables(t);
    StoredRowRehydrates(t.db, id);
    StoredWalletIsOk(t.db, t.db.rows[id].txn.walletId);
  }

  /** The pass that reads a clock before the row's creation, and no reference, ends in an internal-invariant error. */
  lemma EarlyPassFails(t: System, id: TransactionId)
    requires Reached(t) && NobodyHolds(t) && MayRecover(t, 2, id) && t.clock < t.db.rows[id].txn.createdAt
    ensures Reached(With(t, 2, RecoveryAt(id, Finished(Failure(Invariant))), 1))
  {
    hide Reached, Holdings, SysOk, Inv, ProcOk, SerialFresh, Covered, Free, MayRecover, RecoveryWork, AfterReadClaim;
    RecoveryParts(t, id);
    NobodyIsFree(t, 2, RecoveryFootprint(t, id));
    RecoveryComesToClaim(t, 2, id);
    var pr := RecoveryAt(id, ReadingClaim(RecoveryWork(t, id), Ok(None)));
    var now := With(t, 2, pr, 1);
    ReachedIsSafe(now);
    ReadyAtClaim(now, 2);
    PassIsEarly(t, id);
    ReadClaimEnds(t.db, pr, 1);
    EndsAs(t.db, pr);
    RecoveryHolds(t, 2, id);
    Acts(t, 2, pr, 1, ReadClaimStep(1), RecoveryFootprint(t, id));
  }

  lemma RecoveryParts(t: System, id: TransactionId)
    requires MayRecover(t, 2, id)
    ensures id in t.db.rows && t.db.rows[id].txn.walletId in t.db.wallets
  {
  }

  lemma EndsAs(db: Db, pr: Proc)
    requires pr.phase.ReadingClaim? && AfterReadClaim(db, pr, 1).phase == Finished(Failure(Invariant))
    ensures AfterReadClaim(db, pr, 1) == pr.(done := [], todo := [], phase := Finished(Failure(Invariant)))
  {
    hide Settle, ClaimRead, View;
  }

  lemma PassIsEarly(t: System, id: TransactionId)
    requires MayRecover(t, 2, id) && t.clock < t.db.rows[id].txn.createdAt
    ensures !RescheduleInTime(t.db, RecoveryAt(id, ReadingClaim(RecoveryWork(t, id), Ok(None))))
  {
    hide RehydrateTransaction, RehydrateWallet;
    SerialDecision.NoReferenceWaits(t.db.rows[id].txn,
                                    ClaimRead(View(t.db, RecoveryAt(id, ReadingClaim(RecoveryWork(t, id), Ok(None)))),
                                              Ok(None)));
  }

  /** A compensation that waits, and a later pass that reads a clock before its creation but not before its wallet's. */
  lemma EarlyPassesBreakThePromise(open: OpenWalletCommand, refund: SubmitWagerCommand, created: Time, submitted: Time,
                                   now: Time)
    returns (run: seq<System>, id: TransactionId)
    requires ValidateOpen(open).Ok? && open.initialBalance.minorUnits == 0 && Validate(refund).Ok?
    requires 0 < created <= now < submitted
    requires refund.amount.currency == open.initialBalance.currency && refund.kind == Refund
    requires refund.referenceExternalId != refund.externalId
    ensures Run(run) && run != [] && 2 in run[|run| - 1].procs
    ensures run[|run| - 1].procs[2] == RecoveryAt(id, Finished(Failure(Invariant)))
  {
    hide Reached, NobodyHolds, Run, ValidateOpen, NewTransaction, LookupWallet, Legible, NeedsReference, MayRecover;
    var s := OneWallet(open, refund, created, submitted);
    var waiting;
    waiting, id := RefundStartsToWait(refund, s);
    Ticks(waiting, now);
    var t := waiting.(clock := now);
    StillNobody(waiting, now);
    PassIsReady(t, id);
    EarlyPassFails(t, id);
    run := RunOf(With(t, 2, RecoveryAt(id, Finished(Failure(Invariant))), 1));
  }

  lemma StillNobody(s: System, now: Time)
    requires NobodyHolds(s)
    ensures NobodyHolds(s.(clock := now))
  {
  }

  const WIN_OF_ONE := SubmitWagerCommand("v", "t", "k", "a", "p", "r", "g", Win, ONE, "")
  const NEXT_LOSS := SubmitWagerCommand("v", "x", "l", "a", "p", "r", "g", Loss, ZERO, "")

  lemma MoreCommandsAreGood()
    ensures Validate(WIN_OF_ONE).Ok? && Validate(NEXT_LOSS).Ok? && Validate(REFUND_OF_X).Ok?
    ensures ValidateOpen(OpenWalletCommand("p", ZERO)).Ok?
    ensures NEXT_LOSS.idempotencyKey != WIN_OF_ONE.idempotencyKey && NEXT_LOSS.externalId != WIN_OF_ONE.externalId
    ensures REFUND_OF_X.referenceExternalId != REFUND_OF_X.externalId
  {
    assert "t"[0] != "x"[0] && "k"[0] != "l"[0];
  }

  /** So some run ends in a corrupt record and some run in an internal-invariant error. */
  lemma SomeRunsBreakThePromise() returns (late: seq<System>, early: seq<System>)
    ensures Run(late) && late != [] && Run(early) && early != []
    ensures 2 in late[|late| - 1].procs && late[|late| - 1].procs[2].phase == Finished(Failure(CorruptRecord))
    ensures 2 in early[|early| - 1].procs && early[|early| - 1].procs[2].phase == Finished(Failure(Invariant))
    ensures !Promise(late[|late| - 1]) && !Promise(early[|early| - 1])
  {
    hide Run, Validate, ValidateOpen, LookupWallet;
    MoreCommandsAreGood();
    late := LateStampsBreakThePromise(OpenWalletCommand("p", ZERO), WIN_OF_ONE, NEXT_LOSS, 2, 1);
    var id;
    early, id := EarlyPassesBreakThePromise(OpenWalletCommand("p", ZERO), REFUND_OF_X, 1, 5, 1);
    assert !EndsWell(late[|late| - 1].procs[2]) && !EndsWell(early[|early| - 1].procs[2]);
  }
}
