/** A clock that never goes back takes every step in time: then a validated operation never meets an internal-invariant
    or corrupt-record error (internal/application/service.go:503-677, internal/domain/financial/wallet.go:54-86). */
module SteadyClock {
  import opened Results
  import opened Wager
  import opened Wallets
  import opened AppErrors
  import opened Commands
  import opened Tables
  import opened Settlement
  import opened Operations
  import opened Invariants
  import opened OperationSafety
  import opened Interleaving
  import opened Noninterference
  import opened Commitment
  import opened SystemSafety
  import opened Readings
  import LocalSteps
  import Serializability

  /** No stored instant lies in the future. */
  predicate TimesOk(db: Db, clock: Time) {
    && (forall w | w in db.wallets :: Legible(db.wallets[w]) && db.wallets[w].updatedAt <= clock)
    && (forall id | id in db.rows :: db.rows[id].txn.createdAt <= clock)
  }

  predicate WorkTimes(w: Work, clock: Time) {
    w.wall.createdAt <= w.env.now <= clock && w.txn.createdAt <= w.env.now
  }

  predicate PhaseTimes(pr: Proc, clock: Time) {
    match pr.phase
    case Inserting(w) => WorkTimes(w, clock)
    case ReadingReference(w) => WorkTimes(w, clock)
    case ReadingClaim(w, _) => WorkTimes(w, clock)
    case Writing(w, _, _, _, _) => WorkTimes(w, clock)
    case InsertingAccount(openedAt) => openedAt <= clock
    case WritingAccount(o, env) => env.now <= clock && o.wallet.createdAt == env.now == o.wallet.updatedAt
    case _ => true
  }

  ghost predicate Timely(s: System) {
    s.steady ==> TimesOk(s.db, s.clock) && forall p | p in s.procs :: PhaseTimes(s.procs[p], s.clock)
  }

  // ----- Statements -----

  lemma NewTransactionTimes(wall: Result<Option<Wallet>, AppError>, cmd: SubmitWagerCommand, env: Env)
    requires NewTransaction(wall, cmd, env).Ok?
    ensures NewTransaction(wall, cmd, env).value.createdAt == env.now
  {
  }

  lemma LockWalletTimes(db: Db, pr: Proc, env: Env, clock: Time)
    requires Inv(db) && TimesOk(db, clock) && pr.op.Submission? && pr.phase.LockingWallet? && env.now == clock
    ensures PhaseTimes(AfterLockWallet(db, pr, env), clock)
  {
    hide Inv, NewTransaction, LookupWallet;
    WalletReads(db, pr.op.cmd.walletId);
    var wall := LookupWallet(db, pr.op.cmd.walletId);
    if NewTransaction(wall, pr.op.cmd, env).Ok? {
      NewTransactionTimes(wall, pr.op.cmd, env);
    }
  }

  lemma LockRowWalletTimes(db: Db, pr: Proc, env: Env, clock: Time)
    requires Inv(db) && TimesOk(db, clock) && ProcOk(db, pr) && pr.phase.LockingRowWallet? && env.now == clock
    ensures PhaseTimes(AfterLockRowWallet(db, pr, env), clock)
  {
    hide Inv, RowOk, OpOk, LookupWallet;
    StoredRowRehydrates(db, pr.op.id);
    WalletReads(db, db.rows[pr.op.id].txn.walletId);
  }

  lemma InsertAccountTimes(db: Db, pr: Proc, env: Env, clock: Time)
    requires pr.op.OpenAccount? && pr.phase.InsertingAccount? && env.now <= clock
    ensures PhaseTimes(AfterInsertAccount(db, pr, env), clock)
  {
    hide OpenWallet, OpenStatements;
    if OpenWallet(db, pr.op.open, pr.op.walletId, env).Ok? {
      LocalSteps.OpenInstants(db, pr.op.open, pr.op.walletId, env);
    }
  }

  /** The other statements take no reading: they keep what was read or end. */
  lemma OtherActionsKeepTimes(db: Db, pr: Proc, a: Action, clock: Time)
    requires PhaseFits(pr, a) && PhaseTimes(pr, clock)
    ensures a.BeginInboxStep? ==> PhaseTimes(AfterBeginInbox(db, pr), clock)
    ensures a.LookupKeyStep? ==> PhaseTimes(AfterLookupKey(db, pr, a.completedAt), clock)
    ensures a.LookupExternalStep? ==> PhaseTimes(AfterLookupExternal(db, pr, a.completedAt), clock)
    ensures a.InsertStep? ==> PhaseTimes(AfterInsert(db, pr), clock)
    ensures a.LockRowStep? ==> PhaseTimes(AfterLockRow(db, pr), clock)
    ensures a.ReadReferenceStep? ==> PhaseTimes(AfterReadReference(db, pr), clock)
    ensures a.ReadClaimStep? ==> PhaseTimes(AfterReadClaim(db, pr, a.completedAt), clock)
    ensures a.WriteStep? ==> PhaseTimes(AfterWrite(pr), clock)
    ensures PhaseTimes(StartOver(pr.(deadlocks := pr.deadlocks + 1)), clock)
    ensures PhaseTimes(Finish(pr, Failure(Transient)), clock)
  {
    hide LoadReference, View, LookupKey, LookupExternal, ReplayOrConflict, ExternalAnswer, Settle, Statements,
         CompletionOf, ClaimRead, Rehydrate, WorkTimes;
  }

  lemma OpeningTime(pr: Proc, clock: Time)
    requires PhaseTimes(pr, clock) && pr.phase.InsertingAccount?
    ensures pr.phase.openedAt <= clock
  {
  }

  lemma StartedTimes(op: Op, clock: Time)
    ensures PhaseTimes(Started(op, clock), clock)
  {
    hide Precheck;
  }

  lemma LocalTimes(s: System, pr: Proc, a: Action)
    requires Inv(s.db) && ProcOk(s.db, pr) && PhaseFits(pr, a) && TimesOk(s.db, s.clock) && PhaseTimes(pr, s.clock)
    ensures PhaseTimes(AfterAction(s, pr, a), s.clock)
  {
    hide Inv, TimesOk, ProcOk, AfterLookupKey, AfterLookupExternal, AfterLockWallet, AfterInsert, AfterLockRow,
         AfterLockRowWallet, AfterReadReference, AfterReadClaim, AfterInsertAccount, StartOver, Finish, PhaseTimes,
         AfterBeginInbox, AfterWrite;
    OtherActionsKeepTimes(s.db, pr, a, s.clock);
    match a
    case LockWalletStep(c, h) => LockWalletTimes(s.db, pr, NewEnv(s, c, h), s.clock);
    case LockRowWalletStep(c, h) => LockRowWalletTimes(s.db, pr, NewEnv(s, c, h), s.clock);
    case InsertAccountStep(c, h) =>
      OpeningTime(pr, s.clock);
      InsertAccountTimes(s.db, pr, AccountEnv(s, pr.phase.openedAt, c, h), s.clock);
    case _ =>
  }

  // ----- Commits -----

  /** What a commit does to the rows' creation instants: they stay, and a new row's is its process's reading. */
  lemma CommittedRows(db: Db, pr: Proc, clock: Time)
    requires Inv(db) && ProcOk(db, pr) && ReadyToCommit(pr) && (SerialOf(pr) != 0 ==> SerialFresh(db, SerialOf(pr)))
    requires TimesOk(db, clock) && PhaseTimes(pr, clock)
    ensures forall id | id in ApplyAll(db, pr.done).rows :: ApplyAll(db, pr.done).rows[id].txn.createdAt <= clock
  {
    hide Inv, ApplyAll, SerialFresh, ProcOk, Landed, ApplyEffect, ApplyOpened, Committed;
    if pr.phase.Writing? {
      LocalSteps.EnvOfWork(db, pr);
      WritingCommits(db, pr);
      SettledShape(db, pr);
      AppliedParts(db, pr.phase.settled.effect);
      RowsOfCommitted(db, pr);
      assert pr.phase.settled.effect.row.txn.createdAt == pr.phase.work.txn.createdAt;
    } else if pr.phase.Completing? {
      CompletingCommits(db, pr);
    } else {
      EnvOfAccount(db, pr);
      AccountCommits(db, pr);
      AccountRows(db, pr.phase.account, pr.phase.env, clock);
    }
  }

  lemma RowsOfCommitted(db: Db, pr: Proc)
    requires pr.phase.Writing?
    ensures Committed(db, pr.op, pr.phase.settled, pr.phase.completedAt).rows ==
              ApplyEffect(db, pr.phase.settled.effect).rows
  {
    hide ApplyEffect;
  }

  lemma AccountRows(db: Db, o: Opened, env: Env, clock: Time)
    requires TimesOk(db, clock) && AccountReady(db, o, env) && env.now <= clock
    ensures forall id | id in ApplyOpened(db, o).rows :: ApplyOpened(db, o).rows[id].txn.createdAt <= clock
  {
    hide ApplyOpened;
    AccountParts(db, o, env);
    Serializability.AccountTables(db, o, env);
  }

  lemma WorkInTime(db: Db, pr: Proc, clock: Time)
    requires PhaseTimes(pr, clock)
    ensures MovementInTime(pr) && RescheduleInTime(db, pr)
  {
    hide ClaimRead, View, PlanOperation;
  }

  lemma CommitTimes(db: Db, pr: Proc, clock: Time)
    requires Inv(db) && ProcOk(db, pr) && ReadyToCommit(pr) && (SerialOf(pr) != 0 ==> SerialFresh(db, SerialOf(pr)))
    requires TimesOk(db, clock) && PhaseTimes(pr, clock)
    ensures TimesOk(ApplyAll(db, pr.done), clock)
  {
    hide Inv, ApplyAll, SerialFresh, ProcOk, SerialOf, ReadyToCommit, Legible;
    CommittedRows(db, pr, clock);
    CommittedWallets(db, pr);
    CommitKeepsLegible(db, pr);
    WorkInTime(db, pr, clock);
    assert forall w | w in db.wallets :: db.wallets[w].updatedAt <= clock;
  }

  lemma {:induction false} LeaseTimes(db: Db, picked: seq<TransactionId>, now: Time, lease: nat, clock: Time)
    requires TimesOk(db, clock)
    ensures TimesOk(LeaseReferences(db, picked, now, lease), clock)
    decreases picked
  {
    if picked != [] {
      assert TimesOk(LeaseReference(db, picked[0], now, lease), clock);
      LeaseTimes(LeaseReference(db, picked[0], now, lease), picked[1..], now, lease, clock);
    }
  }

  lemma TimesPass(s: System, now: Time)
    requires Timely(s) && (s.steady ==> s.clock <= now)
    ensures Timely(s.(clock := now))
  {
    if s.steady {
      assert TimesOk(s.db, now);
      forall p | p in s.procs ensures PhaseTimes(s.procs[p], now) {
        assert PhaseTimes(s.procs[p], s.clock);
      }
    }
  }

  lemma EndedTimes(pr: Proc, a: Answer, clock: Time)
    ensures PhaseTimes(Finish(pr, a), clock)
  {
  }

  lemma StepTimes(s: System, step: Step)
    requires SysOk(s) && Timely(s) && Enabled(s, step)
    ensures Timely(Do(s, step))
  {
    hide Inv, ProcOk, Exclusive, TimesOk, PhaseTimes, LeaseReferences, ApplyAll, ReadyToCommit, AfterAction, Started,
         CommitAnswer, LeaseEnabled, SerialFresh, SerialOf;
    match step
    case Start(p, op) => StartedTimes(op, s.clock);
    case Local(p, a) =>
      if s.steady {
        LocalTimes(s, s.procs[p], a);
      }
    case CommitStep(p, replyLost) =>
      if s.steady {
        SafeProc(s, p);
        CommitTimes(s.db, s.procs[p], s.clock);
        EndedTimes(s.procs[p], if replyLost then Failure(Transient) else CommitAnswer(s.procs[p]), s.clock);
      }
    case StopStep(_) =>
    case LeaseStep(picked, lease) =>
      if s.steady {
        LeaseTimes(s.db, picked, s.clock, lease, s.clock);
      }
    case TickStep(now) => TimesPass(s, now);
  }

  lemma {:induction false} RunsAreTimely(trace: seq<System>, i: nat)
    requires Run(trace) && i < |trace|
    ensures Timely(trace[i]) && trace[i].steady == trace[0].steady
  {
    hide SysOk, Enabled, Timely;
    if i == 0 {
      InitIsTimely(trace[0]);
    } else {
      RunsAreTimely(trace, i - 1);
      RunsAreSafe(trace, i - 1);
      assert Next(trace[i - 1], trace[i - 1 + 1]);
      var step :| Enabled(trace[i - 1], step) && trace[i] == Do(trace[i - 1], step);
      StepTimes(trace[i - 1], step);
    }
  }

  lemma InitIsTimely(s: System)
    requires Init(s)
    ensures Timely(s)
  {
  }

  lemma TimelyStepsAreInTime(s: System, step: Step)
    requires Timely(s) && s.steady
    ensures InTime(s, step)
  {
    hide TimesOk, PhaseTimes, MovementInTime, RescheduleInTime;
    match step
    case CommitStep(p, _) =>
      if p in s.procs {
        WorkInTime(s.db, s.procs[p], s.clock);
      }
    case Local(p, a) =>
      if p in s.procs {
        WorkInTime(s.db, s.procs[p], s.clock);
      }
    case _ =>
  }

  /** With a clock that never goes back every step of every run is in time, so no process ever ends with an
      internal-invariant, corrupt-record or other domain error and every wallet stays readable: what remains are
      contract and conflict answers, missing rows, store errors and the overflowing credit. */
  lemma SteadyRunsFailOnlyAsExpected(trace: seq<System>, i: nat)
    requires Run(trace) && trace[0].steady && i < |trace|
    ensures Promise(trace[i]) && (i < |trace| - 1 ==> InTimeAt(trace, i))
  {
    hide Run, InTimeAt, Promise, Timely;
    forall k | 0 <= k < |trace| - 1 ensures InTimeAt(trace, k) {
      RunsAreTimely(trace, k);
      SteadyAt(trace, k);
    }
    PromiseHoldsExactlyWhen(trace);
  }

  lemma SteadyAt(trace: seq<System>, k: nat)
    requires k < |trace| - 1 && Timely(trace[k]) && trace[k].steady
    ensures InTimeAt(trace, k)
  {
    hide Timely, InTime, Enabled, Do;
    forall step | Enabled(trace[k], step) && trace[k + 1] == Do(trace[k], step) ensures InTime(trace[k], step) {
      TimelyStepsAreInTime(trace[k], step);
    }
  }
}
