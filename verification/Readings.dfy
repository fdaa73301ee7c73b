/** Exactly which clock readings keep every wallet readable and every error an expected one: a movement must not be
    stamped earlier than its wallet's creation, nor a reschedule earlier than its row's
    (internal/domain/financial/wallet.go:54-86, internal/application/service.go:503-677). */
module Readings {
  import opened Results
  import opened MoneyValue
  import opened Wager
  import opened Wallets
  import opened AppErrors
  import opened Commands
  import opened Tables
  import opened Settlement
  import opened Operations
  import opened Invariants
  import opened SettlementSafety
  import opened StatementRuns
  import opened OperationSafety
  import opened OpeningSafety
  import opened Interleaving
  import opened Noninterference
  import opened Commitment
  import opened SystemSafety
  import LocalSteps

  /** The errors a caller, a conflict, the store or an overflowing credit can cause. */
  predicate ExpectedError(e: AppError) {
    e.Contract? || e.Conflict? || e.NotFound? || e.Transient? || e.ConcurrentWrite?
      || e == Domain(MoneyFailure(Overflow))
  }

  predicate EndsWell(pr: Proc) {
    pr.phase.Finished? && pr.phase.answer.Failure? ==> ExpectedError(pr.phase.answer.error)
  }

  predicate Legible(w: Wallet) {
    0 < w.createdAt <= w.updatedAt
  }

  predicate AllLegible(wallets: WalletTable) {
    forall w | w in wallets :: Legible(wallets[w])
  }

  /** The promise: no process has ended with an internal-invariant, corrupt-record or other domain error,
      and every stored wallet can be read back. */
  ghost predicate Promise(s: System) {
    && (forall p | p in s.procs :: EndsWell(s.procs[p]))
    && (forall w | w in s.db.wallets :: LookupWallet(s.db, w) == Ok(Some(s.db.wallets[w])))
  }

  // ----- The guards on single readings -----

  /** A movement is stamped no earlier than its wallet's creation. */
  predicate MovementInTime(pr: Proc) {
    pr.phase.Writing? && pr.phase.settled.effect.transfer.Some? ==>
        pr.phase.work.wall.createdAt <= pr.phase.work.env.now
  }

  /** A pass that still has to wait reads a clock no earlier than the row's creation. */
  predicate RescheduleInTime(db: Db, pr: Proc) {
    pr.phase.ReadingClaim? && pr.phase.ref.Ok? ==>
      !TooEarly(pr.phase.work.txn, pr.phase.ref.value, ClaimRead(View(db, pr), pr.phase.ref), pr.phase.work.env)
  }

  predicate InTime(s: System, step: Step) {
    match step
    case CommitStep(p, _) => p in s.procs ==> MovementInTime(s.procs[p])
    case Local(p, a) => p in s.procs && a.ReadClaimStep? ==> RescheduleInTime(s.db, s.procs[p])
    case _ => true
  }

  // ----- Statements -----

  lemma LegibleWhen(w: Wallet)
    requires WalletOk(w)
    ensures RehydrateWallet(w) == if Legible(w) then Ok(w) else Err(BadInput)
  {
  }

  lemma StoredWalletIsOk(db: Db, id: WalletId)
    requires Inv(db) && id in db.wallets
    ensures WalletOk(db.wallets[id]) && db.wallets[id].id == id
  {
  }

  /** A stored wallet is read back if and only if it was not saved under an instant before its creation. */
  lemma WalletReads(db: Db, id: WalletId)
    requires Inv(db)
    ensures LookupWallet(db, id) ==
            if id !in db.wallets then Ok(None) else if Legible(db.wallets[id]) then Ok(Some(db.wallets[id]))
               else Err(CorruptRecord)
  {
    hide Inv, Legible, RehydrateWallet;
    if id in db.wallets {
      StoredWalletIsOk(db, id);
      LegibleWhen(db.wallets[id]);
    }
  }

  lemma PrecheckIsExpected(op: Op)
    requires Precheck(op).Err?
    ensures ExpectedError(Precheck(op).error)
  {
  }

  lemma StartedEndsWell(op: Op, now: Time)
    ensures EndsWell(Started(op, now))
  {
    hide Precheck, ExpectedError;
    if Precheck(op).Err? {
      PrecheckIsExpected(op);
    }
  }

  lemma StartOverEndsWell(pr: Proc)
    ensures EndsWell(StartOver(pr))
  {
  }

  lemma FoundRowEndsWell(pr: Proc, o: Outcome, completedAt: Time)
    requires pr.op.Submission? && EndsWell(pr) && (o.Refused? ==> ExpectedError(o.error))
    ensures EndsWell(FoundRow(pr, o, completedAt))
  {
    hide ExpectedError;
  }

  lemma LookupEndsWell(db: Db, pr: Proc, completedAt: Time)
    requires Inv(db) && pr.op.Submission? && (pr.phase.LookingUpKey? || pr.phase.LookingUpExternal?)
    ensures EndsWell(AfterLookupKey(db, pr, completedAt)) && EndsWell(AfterLookupExternal(db, pr, completedAt))
  {
    hide Inv, LookupKey, LookupExternal, FoundRow;
    LookupsAreExact(db, pr.op.cmd);
    var k, x := (pr.op.cmd.providerId, pr.op.cmd.idempotencyKey), (pr.op.cmd.providerId, pr.op.cmd.externalId);
    if k in db.byKey {
      FoundRowEndsWell(pr, ReplayOrConflict(db.rows[db.byKey[k]].txn, pr.op.cmd), completedAt);
    }
    if x in db.byExternal {
      FoundRowEndsWell(pr, ExternalAnswer(db.rows[db.byExternal[x]].txn, pr.op.cmd), completedAt);
    }
  }

  lemma NewTransactionErrors(wall: Result<Option<Wallet>, AppError>, cmd: SubmitWagerCommand, env: Env)
    requires wall.Ok? && NewTransaction(wall, cmd, env).Err?
    ensures ExpectedError(NewTransaction(wall, cmd, env).error)
  {
  }

  lemma NotFoundIsExpected()
    ensures ExpectedError(NotFound)
  {
  }

  lemma LockWalletEndsWell(db: Db, pr: Proc, env: Env)
    requires Inv(db) && AllLegible(db.wallets) && pr.op.Submission? && pr.phase.LockingWallet?
    ensures EndsWell(AfterLockWallet(db, pr, env))
  {
    hide Inv, NewTransaction, LookupWallet, ExpectedError;
    WalletReads(db, pr.op.cmd.walletId);
    var wall := LookupWallet(db, pr.op.cmd.walletId);
    if NewTransaction(wall, pr.op.cmd, env).Err? {
      NewTransactionErrors(wall, pr.op.cmd, env);
    }
    NotFoundIsExpected();
  }

  lemma LockRowEndsWell(db: Db, pr: Proc)
    requires Inv(db) && pr.op.Recovery? && pr.phase.LockingRow?
    ensures EndsWell(AfterLockRow(db, pr))
  {
    hide Inv, RowOk;
    if pr.op.id in db.rows {
      StoredRowRehydrates(db, pr.op.id);
    }
  }

  lemma LockRowWalletEndsWell(db: Db, pr: Proc, env: Env)
    requires Inv(db) && AllLegible(db.wallets) && ProcOk(db, pr) && pr.phase.LockingRowWallet?
    ensures EndsWell(AfterLockRowWallet(db, pr, env))
  {
    hide Inv, RowOk, OpOk, LookupWallet, ExpectedError;
    StoredRowRehydrates(db, pr.op.id);
    WalletReads(db, db.rows[pr.op.id].txn.walletId);
  }

  /** A decision aborts on an overflowing credit, on a reschedule before the row's creation, and on nothing else. */
  lemma DecisionAborts(db: Db, op: Op, w: Work, ref: Result<Option<WagerTransaction>, AppError>, claimRead: bool)
    requires Inv(db) && InPlace(db, op, w) && ReferenceKnown(db, w.txn, ref, claimRead) && SerialFresh(db, w.env.serial)
    ensures ref.Ok?
    ensures var r := Settle(w.wall, w.txn, w.attempts, ref, claimRead, w.env);
            && (r.Err? ==> r.error == Domain(MoneyFailure(Overflow)) || r.error == Invariant)
            && (r == Err(Invariant) <==> TooEarly(w.txn, ref.value, claimRead, w.env))
  {
    hide Inv, InPlace, Settle, SettleReady, SerialFresh, ReferenceKnown, TooEarly, Overflows;
    WorkIsReady(db, op, w, ref, claimRead);
    KnownIsOk(db, w.txn, ref, claimRead);
    SettleAbortsExactlyWhen(db, w.wall, w.txn, w.attempts, ref.value, claimRead, w.env);
  }

  /** The claim read ends the process with an internal-invariant error if and only if it comes too early. */
  lemma ReadClaimEnds(db: Db, pr: Proc, completedAt: Time)
    requires Inv(db) && ProcOk(db, pr) && pr.phase.ReadingClaim? && SerialFresh(db, pr.phase.work.env.serial)
    ensures pr.phase.ref.Ok?
    ensures RescheduleInTime(db, pr) ==> EndsWell(AfterReadClaim(db, pr, completedAt))
    ensures !RescheduleInTime(db, pr) ==> AfterReadClaim(db, pr, completedAt).phase == Finished(Failure(Invariant))
  {
    hide Inv, OpOk, InPlace, ReferenceKnown, ApplyAll, WorkPrefix, Settle, Statements, CompletionOf, SerialFresh,
         TooEarly;
    var w, ref := pr.phase.work, pr.phase.ref;
    LocalSteps.OwnViewIsInsert(db, pr.op, w);
    LocalSteps.ClaimReads(View(db, pr), db, ref);
    DecisionAborts(db, pr.op, w, ref, ClaimRead(db, ref));
  }

  lemma OpenErrorsAreExpected(db: Db, cmd: OpenWalletCommand, id: WalletId, env: Env)
    requires OpenWallet(db, cmd, id, env).Err? && EnvOk(env)
    ensures ExpectedError(OpenWallet(db, cmd, id, env).error)
  {
    hide OpeningEffect;
    if ValidateOpen(cmd).Ok? {
      var w := NewWallet(id, cmd.playerId, cmd.initialBalance.currency, cmd.initialBalance, env.now);
      if w.Ok? && w.value.balance.IsPositive() {
        OpeningSucceeds(w.value, env);
      }
    }
  }

  lemma OpenEndsWell(db: Db, pr: Proc, env: Env)
    requires pr.op.OpenAccount? && pr.phase.InsertingAccount? && EnvOk(env)
    ensures EndsWell(AfterInsertAccount(db, pr, env))
  {
    hide OpenWallet, OpenStatements, ExpectedError;
    if OpenWallet(db, pr.op.open, pr.op.walletId, env).Err? {
      OpenErrorsAreExpected(db, pr.op.open, pr.op.walletId, env);
    }
  }

  lemma OtherActionsEndWell(db: Db, pr: Proc, a: Action)
    requires PhaseFits(pr, a) && EndsWell(pr)
    ensures a.BeginInboxStep? ==> EndsWell(AfterBeginInbox(db, pr))
    ensures a.InsertStep? ==> EndsWell(AfterInsert(db, pr))
    ensures a.ReadReferenceStep? ==> EndsWell(AfterReadReference(db, pr))
    ensures a.WriteStep? ==> EndsWell(AfterWrite(pr))
    ensures a.StoreErrorStep? ==> EndsWell(Finish(pr, Failure(Transient)))
  {
    hide LoadReference, View;
    if a.InsertStep? {
      StartOverEndsWell(pr.(collided := true));
    }
  }

  lemma LocalEndsWell(s: System, pr: Proc, a: Action)
    requires Inv(s.db) && AllLegible(s.db.wallets) && ProcOk(s.db, pr) && PhaseFits(pr, a) && s.clock != 0
    requires s.nextSerial != 0
    requires SerialOf(pr) != 0 ==> SerialFresh(s.db, SerialOf(pr))
    requires EndsWell(pr) && (a.ReadClaimStep? ==> RescheduleInTime(s.db, pr))
    ensures EndsWell(AfterAction(s, pr, a))
  {
    hide Inv, AllLegible, ProcOk, AfterLookupKey, AfterLookupExternal, AfterLockWallet, AfterInsert, AfterLockRow,
         AfterLockRowWallet, AfterReadReference, AfterReadClaim, AfterInsertAccount, StartOver, EndsWell, SerialFresh,
         AfterBeginInbox, AfterWrite, Finish, RescheduleInTime;
    OtherActionsEndWell(s.db, pr, a);
    match a
    case LookupKeyStep(t) => LookupEndsWell(s.db, pr, t);
    case LookupExternalStep(t) => LookupEndsWell(s.db, pr, t);
    case LockWalletStep(c, h) => LockWalletEndsWell(s.db, pr, NewEnv(s, c, h));
    case LockRowStep => LockRowEndsWell(s.db, pr);
    case LockRowWalletStep(c, h) => LockRowWalletEndsWell(s.db, pr, NewEnv(s, c, h));
    case ReadClaimStep(t) =>
      LocalSteps.EnvOfWork(s.db, pr);
      ReadClaimEnds(s.db, pr, t);
    case InsertAccountStep(c, h) =>
      LocalSteps.OpeningReading(s.db, pr);
      OpenEndsWell(s.db, pr, AccountEnv(s, pr.phase.openedAt, c, h));
    case DeadlockStep => StartOverEndsWell(pr.(deadlocks := pr.deadlocks + 1));
    case _ =>
  }

  // ----- Commits -----

  /** What a commit does to the wallets: it saves the locked one under its reading, or inserts a new one, or none. */
  lemma CommittedWallets(db: Db, pr: Proc)
    requires Inv(db) && ProcOk(db, pr) && ReadyToCommit(pr) && (SerialOf(pr) != 0 ==> SerialFresh(db, SerialOf(pr)))
    ensures var after := ApplyAll(db, pr.done).wallets;
            if pr.phase.Writing? && pr.phase.settled.effect.transfer.Some? then
              var w, wallet := pr.phase.work, pr.phase.settled.effect.transfer.value.wallet;
              && after == db.wallets[w.wall.id := wallet] && w.wall.id in db.wallets && db.wallets[w.wall.id] == w.wall
                 && Legible(w.wall)
              && wallet.createdAt == w.wall.createdAt && wallet.updatedAt == w.env.now
            else if pr.phase.WritingAccount? then
              var wallet := pr.phase.account.wallet;
              after == db.wallets[wallet.id := wallet] && wallet.id !in db.wallets && Legible(wallet)
            else after == db.wallets
  {
    hide Inv, ApplyAll, SerialFresh, ProcOk, Landed, ApplyEffect, Committed, ApplyOpened;
    if pr.phase.Writing? {
      LocalSteps.EnvOfWork(db, pr);
      WritingCommits(db, pr);
      SettledShape(db, pr);
      AppliedParts(db, pr.phase.settled.effect);
      WalletsOfCommitted(db, pr);
      if pr.phase.settled.effect.transfer.Some? {
        SavedWallet(pr.phase.work, pr.phase.settled);
        WorkWallet(db, pr);
      }
    } else if pr.phase.Completing? {
      CompletingCommits(db, pr);
    } else {
      EnvOfAccount(db, pr);
      AccountCommits(db, pr);
      AccountInstants(db, pr);
      AccountParts(db, pr.phase.account, pr.phase.env);
    }
  }

  lemma WalletsOfCommitted(db: Db, pr: Proc)
    requires pr.phase.Writing?
    ensures Committed(db, pr.op, pr.phase.settled, pr.phase.completedAt).wallets ==
              ApplyEffect(db, pr.phase.settled.effect).wallets
  {
    hide ApplyEffect;
  }

  lemma SavedWallet(w: Work, settled: Settled)
    requires ShapeOk(w.wall, w.txn, w.env, settled) && settled.effect.transfer.Some?
    ensures var wallet := settled.effect.transfer.value.wallet;
            wallet.id == w.wall.id && wallet.createdAt == w.wall.createdAt && wallet.updatedAt == w.env.now
  {
  }

  lemma WorkWallet(db: Db, pr: Proc)
    requires Inv(db) && ProcOk(db, pr) && pr.phase.Writing?
    ensures var w := pr.phase.work;
            w.wall.id in db.wallets && db.wallets[w.wall.id] == w.wall && Legible(w.wall) && w.wall.id == w.txn.walletId
  {
    hide Inv, OpOk, Settleable, Settle, ReferenceKnown, Statements, NewTransaction, Wrote;
    StoredWalletIsOk(db, pr.phase.work.txn.walletId);
    LegibleWhen(pr.phase.work.wall);
  }

  lemma AccountInstants(db: Db, pr: Proc)
    requires ProcOk(db, pr) && pr.phase.WritingAccount?
    ensures Legible(pr.phase.account.wallet) && pr.phase.account.wallet.id !in db.wallets
  {
    hide OpOk, OpenStatements, OpenedEffect;
  }

  lemma CommitKeepsLegible(db: Db, pr: Proc)
    requires Inv(db) && ProcOk(db, pr) && ReadyToCommit(pr) && (SerialOf(pr) != 0 ==> SerialFresh(db, SerialOf(pr)))
    requires AllLegible(db.wallets)
    ensures MovementInTime(pr) ==> AllLegible(ApplyAll(db, pr.done).wallets)
    ensures !MovementInTime(pr) ==> pr.phase.work.wall.id in ApplyAll(db, pr.done).wallets
                                    && !Legible(ApplyAll(db, pr.done).wallets[pr.phase.work.wall.id])
  {
    hide Inv, ProcOk, SerialFresh, ApplyAll, ReadyToCommit, SerialOf;
    CommittedWallets(db, pr);
  }

  lemma {:induction false} LeaseKeepsWallets(db: Db, picked: seq<TransactionId>, now: Time, lease: nat)
    ensures LeaseReferences(db, picked, now, lease).wallets == db.wallets
    decreases picked
  {
    if picked != [] {
      LeaseKeepsWallets(LeaseReference(db, picked[0], now, lease), picked[1..], now, lease);
    }
  }

  // ----- One step -----

  /** The promise in the terms of the tables. */
  ghost predicate Kept(s: System) {
    AllLegible(s.db.wallets) && forall p | p in s.procs :: EndsWell(s.procs[p])
  }

  lemma PromiseIsKept(s: System)
    requires Inv(s.db)
    ensures Promise(s) <==> Kept(s)
  {
    hide Inv, LookupWallet, EndsWell, Legible;
    forall w | w in s.db.wallets
           ensures LookupWallet(s.db, w) == Ok(Some(s.db.wallets[w])) <==> Legible(s.db.wallets[w]) {
      WalletReads(s.db, w);
    }
  }

  lemma CommitAnswerEndsWell(pr: Proc, replyLost: bool)
    ensures EndsWell(Finish(pr, if replyLost then Failure(Transient) else CommitAnswer(pr)))
  {
  }

  /** A step keeps the promise if and only if it is taken in time. */
  lemma StepKeepsExactlyWhen(s: System, step: Step)
    requires SysOk(s) && Enabled(s, step) && Kept(s)
    ensures Kept(Do(s, step)) <==> InTime(s, step)
  {
    hide Inv, ProcOk, Exclusive, AllLegible, EndsWell, LeaseReferences, ApplyAll, ReadyToCommit, AfterAction, Started,
         CommitAnswer, LeaseEnabled, SerialFresh, SerialOf, MovementInTime, RescheduleInTime, FutureIsFresh,
         CommitEntry;
    match step
    case Start(p, op) => StartedEndsWell(op, s.clock);
    case Local(p, a) =>
      hide Available, FreshWalletId;
      SafeProc(s, p);
      if InTime(s, step) {
        LocalEndsWell(s, s.procs[p], a);
      } else {
        TooEarlyEnds(s, p, a);
      }
    case CommitStep(p, replyLost) =>
      SafeProc(s, p);
      CommitKeepsLegible(s.db, s.procs[p]);
      CommitAnswerEndsWell(s.procs[p], replyLost);
      if !MovementInTime(s.procs[p]) {
        StampOf(s.procs[p]);
        NotAllLegible(ApplyAll(s.db, s.procs[p].done).wallets, s.procs[p].phase.work.wall.id);
      }
    case StopStep(_) =>
    case LeaseStep(picked, lease) => LeaseKeepsWallets(s.db, picked, s.clock, lease);
    case TickStep(now) =>
  }

  lemma SafeProc(s: System, p: ProcId)
    requires SysOk(s) && p in s.procs
    ensures Inv(s.db) && ProcOk(s.db, s.procs[p])
    ensures (SerialOf(s.procs[p]) != 0 ==> SerialFresh(s.db, SerialOf(s.procs[p])))
    ensures s.clock != 0 && s.nextSerial != 0
  {
    hide Inv, ProcOk, Exclusive, SerialFresh;
  }

  lemma NotAllLegible(wallets: WalletTable, w: WalletId)
    requires w in wallets && !Legible(wallets[w])
    ensures !AllLegible(wallets)
  {
  }

  lemma TooEarlyEnds(s: System, p: ProcId, a: Action)
    requires SysOk(s) && LocalEnabled(s, p, a) && a.ReadClaimStep? && !RescheduleInTime(s.db, s.procs[p])
    ensures DoLocal(s, p, a).procs[p].phase == Finished(Failure(Invariant)) && !EndsWell(DoLocal(s, p, a).procs[p])
  {
    hide Inv, ProcOk, SerialFresh, RescheduleInTime, AfterReadClaim, Exclusive, SysOk, Available;
    SafeProc(s, p);
    LocalSteps.EnvOfWork(s.db, s.procs[p]);
    ReadClaimEnds(s.db, s.procs[p], a.completedAt);
  }

  // ----- Runs -----

  /** Whatever step explains the i-th transition of the run, it was taken in time. */
  ghost predicate InTimeAt(trace: seq<System>, i: nat)
    requires i < |trace| - 1
  {
    forall step | Enabled(trace[i], step) && trace[i + 1] == Do(trace[i], step) :: InTime(trace[i], step)
  }

  lemma AdvanceKeepsExactlyWhen(trace: seq<System>, i: nat)
    requires Run(trace) && i < |trace| - 1 && Kept(trace[i])
    ensures Kept(trace[i + 1]) <==> InTimeAt(trace, i)
  {
    hide SysOk, Enabled, Do, InTime, Kept;
    RunsAreSafe(trace, i);
    assert Next(trace[i], trace[i + 1]);
    if InTimeAt(trace, i) {
      var step :| Enabled(trace[i], step) && trace[i + 1] == Do(trace[i], step);
      StepKeepsExactlyWhen(trace[i], step);
    } else {
      var step :| Enabled(trace[i], step) && trace[i + 1] == Do(trace[i], step) && !InTime(trace[i], step);
      StepKeepsExactlyWhen(trace[i], step);
    }
  }

  lemma {:induction false} RunsInTimeKeep(trace: seq<System>, i: nat)
    requires Run(trace) && i < |trace| && forall k | 0 <= k < i :: InTimeAt(trace, k)
    ensures Kept(trace[i])
  {
    hide InTimeAt, Kept;
    if i > 0 {
      RunsInTimeKeep(trace, i - 1);
      AdvanceKeepsExactlyWhen(trace, i - 1);
    } else {
      StartsKept(trace);
    }
  }

  lemma StartsKept(trace: seq<System>)
    requires Run(trace)
    ensures Kept(trace[0])
  {
  }

  /** The exact condition: over a whole run nothing ends in an internal-invariant, corrupt-record or other domain error
      and every wallet stays readable if and only if no movement was stamped earlier than its wallet's creation and no
      reschedule earlier than its row's. */
  lemma PromiseHoldsExactlyWhen(trace: seq<System>)
    requires Run(trace)
    ensures (forall i | 0 <= i < |trace| :: Promise(trace[i])) <==>
              (forall i | 0 <= i < |trace| - 1 :: InTimeAt(trace, i))
  {
    hide Run, InTimeAt, Promise, Kept, Inv;
    forall i | 0 <= i < |trace| ensures Promise(trace[i]) <==> Kept(trace[i]) {
      GoodTables(trace, i);
      PromiseIsKept(trace[i]);
    }
    if forall i | 0 <= i < |trace| - 1 :: InTimeAt(trace, i) {
      forall i | 0 <= i < |trace| ensures Kept(trace[i]) {
        RunsInTimeKeep(trace, i);
      }
    } else {
      var i :| 0 <= i < |trace| - 1 && !InTimeAt(trace, i);
      if Kept(trace[i]) {
        AdvanceKeepsExactlyWhen(trace, i);
        assert !Kept(trace[i + 1]);
      }
    }
  }

  lemma GoodTables(trace: seq<System>, i: nat)
    requires Run(trace) && i < |trace|
    ensures Inv(trace[i].db)
  {
    RunsAreSafe(trace, i);
  }

  // ----- What a late stamp does -----

  predicate Illegible(db: Db, id: WalletId) {
    id in db.wallets && !Legible(db.wallets[id])
  }

  lemma IllegibleStaysOnce(s: System, step: Step, id: WalletId)
    requires SysOk(s) && Enabled(s, step) && Illegible(s.db, id)
    ensures Illegible(Do(s, step).db, id) && Do(s, step).db.wallets[id] == s.db.wallets[id]
  {
    hide Inv, ProcOk, Exclusive, LeaseReferences, ApplyAll, ReadyToCommit, AfterAction, Started, CommitAnswer,
         LocalEnabled, LeaseEnabled, SerialFresh, SerialOf, FutureIsFresh, CommitEntry, Legible;
    match step
    case CommitStep(p, _) =>
      SafeProc(s, p);
      CommittedWallets(s.db, s.procs[p]);
    case LeaseStep(picked, lease) => LeaseKeepsWallets(s.db, picked, s.clock, lease);
    case _ =>
  }

  /** Once a wallet was saved under an instant before its creation, it stays as it is for the rest of every run:
      each later lookup reports a corrupt record, so no operation on it ever takes effect again. */
  lemma {:induction false} IllegibleForever(trace: seq<System>, i: nat, j: nat, id: WalletId)
    requires Run(trace) && i <= j < |trace| && Illegible(trace[i].db, id)
    ensures Illegible(trace[j].db, id) && trace[j].db.wallets[id] == trace[i].db.wallets[id]
    ensures LookupWallet(trace[j].db, id) == Err(CorruptRecord)
    decreases j
  {
    hide SysOk, Enabled, Do, LookupWallet, Inv, Illegible;
    if i < j {
      IllegibleForever(trace, i, j - 1, id);
      RunsAreSafe(trace, j - 1);
      assert Next(trace[j - 1], trace[j - 1 + 1]);
      var step :| Enabled(trace[j - 1], step) && trace[j] == Do(trace[j - 1], step);
      IllegibleStaysOnce(trace[j - 1], step, id);
    }
    GoodTables(trace, j);
    IllegibleReads(trace[j].db, id);
  }

  lemma IllegibleReads(db: Db, id: WalletId)
    requires Inv(db) && Illegible(db, id)
    ensures LookupWallet(db, id) == Err(CorruptRecord)
  {
    hide Inv, LookupWallet, Legible;
    WalletReads(db, id);
  }

  /** A commit that is not in time makes its wallet illegible, and with it every later attempt to lock that wallet
      fails. */
  lemma LateStampSpoilsWallet(trace: seq<System>, i: nat, p: ProcId, replyLost: bool, j: nat)
    requires Run(trace) && i < j < |trace|
    requires p in trace[i].procs && Enabled(trace[i], CommitStep(p, replyLost))
    requires trace[i + 1] == Do(trace[i], CommitStep(p, replyLost))
    requires !MovementInTime(trace[i].procs[p])
    ensures var id := trace[i].procs[p].phase.work.wall.id;
            && id in trace[i + 1].db.wallets && id in trace[j].db.wallets
               && trace[j].db.wallets[id] == trace[i + 1].db.wallets[id]
            && LookupWallet(trace[j].db, id) == Err(CorruptRecord)
            && forall pr: Proc, c, h | pr.op.Submission? && pr.op.cmd.walletId == id
               && PhaseFits(pr, LockWalletStep(c, h)) ::
              AfterAction(trace[j], pr, LockWalletStep(c, h)).phase == Finished(Failure(CorruptRecord))
  {
    hide Run, SysOk, Enabled, LookupWallet, ProcOk, Inv, MovementInTime, Legible, ApplyAll, SerialFresh, SerialOf;
    var pr := trace[i].procs[p];
    StampOf(pr);
    var id := pr.phase.work.wall.id;
    RunsAreSafe(trace, i);
    SafeProc(trace[i], p);
    CommitIsReady(trace[i], p, replyLost);
    CommittedWallets(trace[i].db, pr);
    IllegibleForever(trace, i + 1, j, id);
    forall pr: Proc, c, h | pr.op.Submission? && pr.op.cmd.walletId == id && PhaseFits(pr, LockWalletStep(c, h))
      ensures AfterAction(trace[j], pr, LockWalletStep(c, h)).phase == Finished(Failure(CorruptRecord))
    {
      LockFails(trace[j], pr, c, h);
    }
  }

  lemma CommitIsReady(s: System, p: ProcId, replyLost: bool)
    requires Enabled(s, CommitStep(p, replyLost))
    ensures p in s.procs && ReadyToCommit(s.procs[p])
    ensures Do(s, CommitStep(p, replyLost)).db == ApplyAll(s.db, s.procs[p].done)
  {
    hide ReadyToCommit, ApplyAll, CommitEntry, CommitAnswer;
  }

  lemma StampOf(pr: Proc)
    requires !MovementInTime(pr)
    ensures pr.phase.Writing? && pr.phase.settled.effect.transfer.Some?
    ensures forall w: Wallet | w.createdAt == pr.phase.work.wall.createdAt && w.updatedAt == pr.phase.work.env.now ::
              !Legible(w)
  {
  }

  lemma LockFails(s: System, pr: Proc, correlation: string, hash: nat)
    requires pr.op.Submission? && LookupWallet(s.db, pr.op.cmd.walletId) == Err(CorruptRecord)
    requires PhaseFits(pr, LockWalletStep(correlation, hash))
    ensures AfterAction(s, pr, LockWalletStep(correlation, hash)).phase == Finished(Failure(CorruptRecord))
  {
    hide LookupWallet;
  }
}
