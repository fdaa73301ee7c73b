/** A submission that loses a uniqueness race finds the winner's row on its next attempt
    (the loops of internal/application/service.go:63-96 and 183-204). */
module Retries {
  import opened Results
  import opened Wager
  import opened Wallets
  import opened AppErrors
  import opened Commands
  import opened Tables
  import opened Settlement
  import opened Operations
  import opened Invariants
  import opened OperationSafety
  import opened Interleaving
  import opened Noninterference
  import opened SystemSafety
  import LocalSteps

  predicate ExternalTaken(db: Db, cmd: SubmitWagerCommand) {
    (cmd.providerId, cmd.externalId) in db.byExternal
  }

  /** Somebody has committed one of the command's unique keys. */
  predicate Taken(db: Db, cmd: SubmitWagerCommand) {
    (cmd.providerId, cmd.idempotencyKey) in db.byKey || ExternalTaken(db, cmd)
  }

  function Races(pr: Proc): nat {
    if pr.collided then 1 else 0
  }

  /** After both lookups have found nothing. */
  predicate PastLookups(phase: Phase) {
    phase.LockingWallet? || phase.Inserting? || phase.ReadingReference? || phase.ReadingClaim? || phase.Writing?
  }

  /** Each attempt beyond the first is explained by a deadlock or by the one lost race,
      and after the lost race the lookups find a row. */
  predicate RetryOk(db: Db, pr: Proc) {
    if pr.op.Submission? then
      && 1 <= pr.attempt <= MAX_ATTEMPTS && pr.attempt <= 1 + pr.deadlocks + Races(pr)
      && (!pr.phase.Finished? ==> pr.attempt == 1 + pr.deadlocks + Races(pr))
      && (pr.collided ==> Taken(db, pr.op.cmd) && !PastLookups(pr.phase))
      && (pr.collided && pr.phase.LookingUpExternal? ==> ExternalTaken(db, pr.op.cmd))
      && (pr.phase == Finished(GaveUp) ==> pr.deadlocks + Races(pr) == MAX_ATTEMPTS)
    else
      pr.phase != Finished(GaveUp)
  }

  lemma RetryKept(a: Db, b: Db, pr: Proc)
    requires Grows(a, b) && RetryOk(a, pr)
    ensures RetryOk(b, pr)
  {
  }

  lemma StartOverRetries(db: Db, pr: Proc, next: Proc)
    requires RetryOk(db, pr) && !pr.phase.Finished?
    requires next == pr.(deadlocks := pr.deadlocks + 1)
             || (next == pr.(collided := true) && !pr.collided && pr.op.Submission? && Taken(db, pr.op.cmd))
    ensures RetryOk(db, StartOver(next))
  {
  }

  lemma LookupsRetry(db: Db, pr: Proc, completedAt: Time)
    requires Inv(db) && RetryOk(db, pr) && pr.op.Submission?
    ensures pr.phase.LookingUpKey? ==> RetryOk(db, AfterLookupKey(db, pr, completedAt))
    ensures pr.phase.LookingUpExternal? ==> RetryOk(db, AfterLookupExternal(db, pr, completedAt))
  {
    hide Inv, LookupKey, LookupExternal, ReplayOrConflict, ExternalAnswer;
    LookupsAreExact(db, pr.op.cmd);
  }

  lemma WorkRetries(db: Db, pr: Proc, env: Env, completedAt: Time)
    requires RetryOk(db, pr)
    ensures pr.phase.LockingWallet? && pr.op.Submission? ==> RetryOk(db, AfterLockWallet(db, pr, env))
    ensures pr.phase.LockingRow? && pr.op.Recovery? ==> RetryOk(db, AfterLockRow(db, pr))
    ensures pr.phase.LockingRowWallet? && pr.op.Recovery? ==> RetryOk(db, AfterLockRowWallet(db, pr, env))
    ensures pr.phase.ReadingReference? ==> RetryOk(db, AfterReadReference(db, pr))
    ensures pr.phase.ReadingClaim? ==> RetryOk(db, AfterReadClaim(db, pr, completedAt))
    ensures pr.phase.InsertingAccount? && pr.op.OpenAccount? ==> RetryOk(db, AfterInsertAccount(db, pr, env))
  {
    hide LookupWallet, NewTransaction, Rehydrate, LoadReference, ClaimRead, View, Settle, OpenWallet, Statements,
         OpenStatements, Taken, ExternalTaken;
  }

  lemma InsertRetries(db: Db, pr: Proc)
    requires ProcOk(db, pr) && RetryOk(db, pr) && pr.phase.Inserting?
    ensures RetryOk(db, AfterInsert(db, pr))
  {
    hide OpOk, Locked;
    var w := pr.phase.work;
    assert pr.op.Submission?;
    if KeyOf(w.txn) in db.byKey || ExternalOf(w.txn) in db.byExternal {
      InsertedKeys(db, pr);
      StartOverRetries(db, pr, pr.(collided := true));
    }
  }

  lemma InsertedKeys(db: Db, pr: Proc)
    requires ProcOk(db, pr) && pr.phase.Inserting? && pr.op.Submission?
    ensures var t := pr.phase.work.txn;
            KeyOf(t) == (pr.op.cmd.providerId, pr.op.cmd.idempotencyKey)
              && ExternalOf(t) == (pr.op.cmd.providerId, pr.op.cmd.externalId)
  {
    hide OpOk, RehydrateWallet;
    LocalSteps.NewTransactionFacts(Ok(Some(pr.phase.work.wall)), pr.op.cmd, pr.phase.work.env);
  }

  lemma LocalRetries(s: System, pr: Proc, a: Action)
    requires Inv(s.db) && ProcOk(s.db, pr) && RetryOk(s.db, pr) && PhaseFits(pr, a)
    ensures RetryOk(s.db, AfterAction(s, pr, a))
  {
    hide Inv, ProcOk, AfterLookupKey, AfterLookupExternal, AfterLockWallet, AfterInsert, AfterLockRow,
         AfterLockRowWallet, AfterReadReference, AfterReadClaim, AfterInsertAccount, StartOver, Taken, ExternalTaken;
    match a
    case BeginInboxStep =>
    case LookupKeyStep(t) => LookupsRetry(s.db, pr, t);
    case LookupExternalStep(t) => LookupsRetry(s.db, pr, t);
    case LockWalletStep(c, h) => WorkRetries(s.db, pr, NewEnv(s, c, h), 1);
    case InsertStep => InsertRetries(s.db, pr);
    case LockRowStep => WorkRetries(s.db, pr, NewEnv(s, "-", 0), 1);
    case LockRowWalletStep(c, h) =>
      RowWalletIsRecovery(s.db, pr);
      WorkRetries(s.db, pr, NewEnv(s, c, h), 1);
    case ReadReferenceStep => WorkRetries(s.db, pr, NewEnv(s, "-", 0), 1);
    case ReadClaimStep(t) => WorkRetries(s.db, pr, NewEnv(s, "-", 0), t);
    case InsertAccountStep(c, h) => WorkRetries(s.db, pr, AccountEnv(s, pr.phase.openedAt, c, h), 1);
    case WriteStep =>
    case DeadlockStep => StartOverRetries(s.db, pr, pr.(deadlocks := pr.deadlocks + 1));
    case StoreErrorStep =>
  }

  lemma RowWalletIsRecovery(db: Db, pr: Proc)
    requires ProcOk(db, pr) && pr.phase.LockingRowWallet?
    ensures pr.op.Recovery?
  {
    hide OpOk;
  }

  ghost predicate RetriesOk(s: System) {
    forall p | p in s.procs :: RetryOk(s.db, s.procs[p])
  }

  lemma StepRetries(s: System, step: Step)
    requires SysOk(s) && RetriesOk(s) && Enabled(s, step)
    ensures RetriesOk(Do(s, step))
  {
    hide Inv, RetryOk, Grows, Exclusive, SerialsOk, ProcOk, LocalEnabled, LeaseEnabled, LeaseReferences, ApplyAll,
         ReadyToCommit, AfterAction, Started, CommitAnswer, Holdings;
    StepKeeps(s, step);
    var t := Do(s, step);
    forall p | p in s.procs ensures RetryOk(t.db, s.procs[p]) {
      RetryKept(s.db, t.db, s.procs[p]);
    }
    match step
    case Start(p, op) => StartedRetries(s.db, op, s.clock);
    case Local(p, a) =>
      FitsPhase(s, p, a);
      LocalRetries(s, s.procs[p], a);
    case CommitStep(p, replyLost) => FinishRetries(t.db, s.procs[p], replyLost);
    case StopStep(_) =>
    case LeaseStep(_, _) =>
    case TickStep(_) =>
  }

  lemma FitsPhase(s: System, p: ProcId, a: Action)
    requires LocalEnabled(s, p, a)
    ensures p in s.procs && PhaseFits(s.procs[p], a)
  {
  }

  lemma StartedRetries(db: Db, op: Op, now: Time)
    ensures RetryOk(db, Started(op, now))
  {
    hide Precheck;
  }

  lemma FinishRetries(db: Db, pr: Proc, replyLost: bool)
    requires RetryOk(db, pr)
    ensures RetryOk(db, Finish(pr, if replyLost then Failure(Transient) else CommitAnswer(pr)))
  {
  }

  lemma {:induction false} RunsRetry(trace: seq<System>, i: nat)
    requires Run(trace) && i < |trace|
    ensures RetriesOk(trace[i])
  {
    hide SysOk, Enabled, Do, RetryOk;
    if i > 0 {
      RunsRetry(trace, i - 1);
      RunsAreSafe(trace, i - 1);
      assert Next(trace[i - 1], trace[i - 1 + 1]);
      var step :| Enabled(trace[i - 1], step) && trace[i] == Do(trace[i - 1], step);
      StepRetries(trace[i - 1], step);
    }
  }

  /** A submission starts at most three transactions and gives up only when all three have been aborted, at most one by
      a lost race and the others by deadlocks. Without a deadlock it needs at most two attempts, and once it has lost a
      race it never again gets as far as locking the wallet. */
  lemma RetriesConverge(trace: seq<System>, i: nat, p: ProcId)
    requires Run(trace) && i < |trace| && p in trace[i].procs
    ensures var pr := trace[i].procs[p];
            && (pr.op.Submission? ==> 1 <= pr.attempt <= 3)
            && (pr.phase == Finished(GaveUp) ==>
                  pr.op.Submission? && pr.deadlocks + (if pr.collided then 1 else 0) == 3)
            && (pr.op.Submission? && pr.deadlocks == 0 ==> pr.attempt <= 2)
            && (pr.op.Submission? && pr.collided ==> Taken(trace[i].db, pr.op.cmd) && !PastLookups(pr.phase))
  {
    RunsRetry(trace, i);
    assert RetryOk(trace[i].db, trace[i].procs[p]);
    hide Run, Taken;
  }
}
