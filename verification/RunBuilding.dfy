/** Runs built operation by operation, for showing what some run does. */
module RunBuilding {
  import opened Results
  import opened Wager
  import opened Wallets
  import opened Commands
  import opened Resolution
  import opened Tables
  import opened Settlement
  import opened Operations
  import opened Invariants
  import opened StatementRuns
  import opened Interleaving
  import opened Noninterference
  import opened Commitment
  import opened SystemSafety
  import LocalSteps

  lemma RunExtends(run: seq<System>, t: System)
    requires Run(run) && Next(run[|run| - 1], t)
    ensures Run(run + [t])
  {
    var post := run + [t];
    forall i | 0 <= i < |post| - 1 ensures Next(post[i], post[i + 1]) {
      if i < |run| - 1 {
        assert Next(run[i], run[i + 1]);
      }
    }
  }

  /** Some run ends here. */
  ghost predicate Reached(s: System) {
    exists run :: Run(run) && run[|run| - 1] == s
  }

  lemma InitIsReached(s: System)
    requires Init(s)
    ensures Reached(s)
  {
    assert Run([s]) && [s][|[s]| - 1] == s;
  }

  lemma StepReaches(s: System, step: Step)
    requires Reached(s) && Enabled(s, step)
    ensures Reached(Do(s, step))
  {
    hide Enabled, Do;
    var run :| Run(run) && run[|run| - 1] == s;
    assert Next(s, Do(s, step));
    RunExtends(run, Do(s, step));
    assert (run + [Do(s, step)])[|run + [Do(s, step)]| - 1] == Do(s, step);
  }

  lemma ReachedIsSafe(s: System)
    requires Reached(s)
    ensures SysOk(s)
  {
    hide SysOk;
    var run :| Run(run) && run[|run| - 1] == s;
    RunsAreSafe(run, |run| - 1);
  }

  // ----- One process among others -----

  predicate Covered(f: Footprint, g: Footprint) {
    && f.wallets <= g.wallets && f.rows <= g.rows && f.keys <= g.keys && f.externals <= g.externals
    && f.inboxes <= g.inboxes && f.owners <= g.owners
  }

  /** Nobody else holds any of it. */
  predicate Free(s: System, p: ProcId, f: Footprint) {
    forall q | q in s.procs && q != p :: Disjoint(f, Holdings(s.procs[q]))
  }

  lemma FreeIsAvailable(s: System, p: ProcId, f: Footprint, next: Proc)
    requires Free(s, p, f) && Covered(Holdings(next), f)
    ensures Available(s, p, next)
  {
    hide Holdings;
  }

  /** The state with the process at the given point and so many identities drawn since. */
  function With(s: System, p: ProcId, pr: Proc, drawn: nat): System {
    s.(procs := s.procs[p := pr], nextSerial := s.nextSerial + drawn)
  }

  lemma Begins(s: System, p: ProcId, op: Op)
    requires Reached(s) && p !in s.procs && Precheck(op).Ok? && (op.Submission? ==> op.delivery.None?)
    ensures Reached(With(s, p, Proc(op, 1, 0, false, [], [], FirstPhase(op, s.clock)), 0))
  {
    hide Precheck, FirstPhase, Run;
    StepReaches(s, Start(p, op));
  }

  lemma Acts(s: System, p: ProcId, pr: Proc, drawn: nat, a: Action, f: Footprint)
    requires Reached(With(s, p, pr, drawn)) && PhaseFits(pr, a) && Free(s, p, f)
    requires Covered(Holdings(AfterAction(With(s, p, pr, drawn), pr, a)), f)
    requires a.InsertAccountStep? ==> FreshWalletId(With(s, p, pr, drawn), p, pr.op.walletId)
    ensures Reached(With(s, p, AfterAction(With(s, p, pr, drawn), pr, a), drawn + SerialsDrawn(a)))
  {
    hide Run, AfterAction, Holdings, Covered, SerialsDrawn, Disjoint, Reached;
    var now := With(s, p, pr, drawn);
    var next := AfterAction(now, pr, a);
    FreeIsAvailable(now, p, f, next);
    StepReaches(now, Local(p, a));
    assert now.procs[p := next] == s.procs[p := next];
    assert Do(now, Local(p, a)) == With(s, p, next, drawn + SerialsDrawn(a));
  }

  predicate IsWriting(pr: Proc) {
    pr.phase.Writing? || pr.phase.Completing? || pr.phase.WritingAccount?
  }

  function Written(pr: Proc): Proc {
    pr.(done := pr.done + pr.todo, todo := [])
  }

  lemma {:induction false} Writes(s: System, p: ProcId, pr: Proc, drawn: nat, f: Footprint)
    requires Reached(With(s, p, pr, drawn)) && IsWriting(pr) && Free(s, p, f) && Covered(Holdings(pr), f)
    ensures Reached(With(s, p, Written(pr), drawn)) && IsWriting(Written(pr)) && Holdings(Written(pr)) == Holdings(pr)
    decreases |pr.todo|
  {
    hide Reached, Free, Covered, With, Disjoint;
    if pr.todo == [] {
      assert Written(pr) == pr;
    } else {
      var next := AfterWrite(pr);
      Acts(s, p, pr, drawn, WriteStep, f);
      Writes(s, p, next, drawn, f);
      assert next.done + next.todo == pr.done + pr.todo;
    }
  }

  /** The state after a commit whose reply arrives. */
  function Ended(s: System, p: ProcId, pr: Proc, drawn: nat, db: Db): System {
    System(db, s.procs[p := Finish(pr, CommitAnswer(pr))], s.nextSerial + drawn + 1, s.clock, s.steady,
           s.log + [CommitEntry(pr, s.nextSerial + drawn)])
  }

  lemma Commits(s: System, p: ProcId, pr: Proc, drawn: nat)
    requires Reached(With(s, p, pr, drawn)) && ReadyToCommit(pr)
    ensures Enabled(With(s, p, pr, drawn), CommitStep(p, false))
    ensures Do(With(s, p, pr, drawn), CommitStep(p, false)) == Ended(s, p, pr, drawn, ApplyAll(s.db, pr.done))
    ensures Reached(Ended(s, p, pr, drawn, ApplyAll(s.db, pr.done)))
  {
    hide Run, ReadyToCommit, CommitEntry, CommitAnswer, ApplyAll, Reached;
    var now := With(s, p, pr, drawn);
    StepReaches(now, CommitStep(p, false));
    var done := Finish(pr, CommitAnswer(pr));
    assert now.procs[p := done] == s.procs[p := done];
  }

  // ----- Opening an empty wallet -----

  function EmptyWallet(s: System, open: OpenWalletCommand, id: WalletId): Wallet {
    Wallet(id, open.playerId, open.initialBalance.currency, open.initialBalance, 1, s.clock, s.clock)
  }

  function AccountFootprint(s: System, w: Wallet): Footprint {
    NOTHING_HELD.(wallets := {w.id}, rows := {s.nextSerial}, owners := {OwnerOf(w)})
  }

  predicate MayOpen(s: System, p: ProcId, open: OpenWalletCommand, id: WalletId) {
    && p !in s.procs && s.clock != 0 && ValidateOpen(open).Ok? && open.initialBalance.minorUnits == 0
    && id != "" && id !in s.db.wallets && (open.playerId, open.initialBalance.currency) !in s.db.owners
    && (forall q | q in s.procs && s.procs[q].op.OpenAccount? :: s.procs[q].op.walletId != id)
    && Free(s, p, AccountFootprint(s, EmptyWallet(s, open, id)))
  }

  function AccountProc(s: System, open: OpenWalletCommand, id: WalletId): Proc {
    var w := EmptyWallet(s, open, id);
    Proc(OpenAccount(open, id), 1, 0, false, [], [InsertWallet(w)],
         WritingAccount(Opened(w, None), Env(s.nextSerial, s.clock, "-", 0)))
  }

  lemma AccountInserted(s: System, p: ProcId, open: OpenWalletCommand, id: WalletId)
    requires MayOpen(s, p, open, id)
    ensures var op := OpenAccount(open, id);
            var pr := Proc(op, 1, 0, false, [], [], FirstPhase(op, s.clock));
            && PhaseFits(pr, InsertAccountStep("-", 0))
            && AfterAction(With(s, p, pr, 0), pr, InsertAccountStep("-", 0)) == AccountProc(s, open, id)
            && FreshWalletId(With(s, p, pr, 0), p, id)
            && Covered(Holdings(AccountProc(s, open, id)), AccountFootprint(s, EmptyWallet(s, open, id)))
  {
    hide Free;
    var w := EmptyWallet(s, open, id);
    assert OpenWallet(s.db, open, id, Env(s.nextSerial, s.clock, "-", 0)) == Ok(Opened(w, None));
    assert OpenStatements(Opened(w, None)) == [InsertWallet(w)];
  }

  lemma ComesToOpen(s: System, p: ProcId, open: OpenWalletCommand, id: WalletId)
    requires Reached(s) && MayOpen(s, p, open, id)
    ensures Reached(With(s, p, Written(AccountProc(s, open, id)), 1))
  {
    hide Reached, With, AfterAction, Holdings, Covered;
    var op := OpenAccount(open, id);
    var f := AccountFootprint(s, EmptyWallet(s, open, id));
    assert Precheck(op).Ok?;
    Begins(s, p, op);
    AccountInserted(s, p, open, id);
    Acts(s, p, Proc(op, 1, 0, false, [], [], FirstPhase(op, s.clock)), 0, InsertAccountStep("-", 0), f);
    Writes(s, p, AccountProc(s, open, id), 1, f);
  }

  /** An empty wallet is opened by one process, from start to commit. */
  lemma Opens(s: System, p: ProcId, open: OpenWalletCommand, id: WalletId)
    requires Reached(s) && MayOpen(s, p, open, id)
    ensures Reached(Ended(s, p, Written(AccountProc(s, open, id)), 1,
                          Apply(s.db, InsertWallet(EmptyWallet(s, open, id)))))
  {
    hide Reached, With, Ended, Apply;
    ComesToOpen(s, p, open, id);
    Commits(s, p, Written(AccountProc(s, open, id)), 1);
    RunOne(s.db, InsertWallet(EmptyWallet(s, open, id)));
    assert Written(AccountProc(s, open, id)).done == [InsertWallet(EmptyWallet(s, open, id))];
  }

  // ----- A submission -----

  function EnvOf(s: System): Env {
    Env(s.nextSerial, s.clock, "-", 0)
  }

  /** A command new to the tables, on a wallet that can be read. */
  predicate MaySubmit(s: System, p: ProcId, cmd: SubmitWagerCommand) {
    && p !in s.procs && s.clock != 0 && Validate(cmd).Ok?
    && (cmd.providerId, cmd.idempotencyKey) !in s.db.byKey && (cmd.providerId, cmd.externalId) !in s.db.byExternal
  }

  predicate MaySettle(s: System, p: ProcId, cmd: SubmitWagerCommand) {
    MaySubmit(s, p, cmd) && NewTransaction(LookupWallet(s.db, cmd.walletId), cmd, EnvOf(s)).Ok?
  }

  function WorkOf(s: System, cmd: SubmitWagerCommand): Work
    requires NewTransaction(LookupWallet(s.db, cmd.walletId), cmd, EnvOf(s)).Ok?
  {
    var wall := LookupWallet(s.db, cmd.walletId);
    LocalSteps.NewTransactionFacts(wall, cmd, EnvOf(s));
    Work(wall.value.value, NewTransaction(wall, cmd, EnvOf(s)).value, 0, EnvOf(s))
  }

  function SubmissionFootprint(s: System, cmd: SubmitWagerCommand): Footprint {
    Footprint({cmd.walletId}, {s.nextSerial}, {(cmd.providerId, cmd.idempotencyKey)},
              {(cmd.providerId, cmd.externalId)}, {}, {})
  }

  function SubmissionAt(cmd: SubmitWagerCommand, done: seq<Statement>, phase: Phase): Proc {
    Proc(Submission(cmd, None), 1, 0, false, done, [], phase)
  }

  lemma Holds(s: System, cmd: SubmitWagerCommand, pr: Proc)
    requires NewTransaction(LookupWallet(s.db, cmd.walletId), cmd, EnvOf(s)).Ok? && pr.op == Submission(cmd, None)
    requires pr.phase == Inserting(WorkOf(s, cmd)) || pr.phase == ReadingReference(WorkOf(s, cmd))
             || (pr.phase.ReadingClaim? && pr.phase.work == WorkOf(s, cmd))
                || (pr.phase.Writing? && pr.phase.work == WorkOf(s, cmd))
    ensures Covered(Holdings(pr), SubmissionFootprint(s, cmd))
    ensures !pr.phase.Inserting? ==> Holdings(pr) == SubmissionFootprint(s, cmd)
  {
    hide LookupWallet, NewTransaction;
    LocalSteps.NewTransactionFacts(LookupWallet(s.db, cmd.walletId), cmd, EnvOf(s));
  }

  lemma HoldsNothing(s: System, cmd: SubmitWagerCommand, phase: Phase)
    requires phase.LookingUpKey? || phase.LookingUpExternal? || phase.LockingWallet? || phase.Finished?
    ensures Covered(Holdings(SubmissionAt(cmd, [], phase)), SubmissionFootprint(s, cmd))
  {
  }

  lemma LookupsFindNothing(s: System, p: ProcId, cmd: SubmitWagerCommand)
    requires MaySubmit(s, p, cmd)
    ensures AfterLookupKey(s.db, SubmissionAt(cmd, [], LookingUpKey), 1) == SubmissionAt(cmd, [], LookingUpExternal)
    ensures AfterLookupExternal(s.db, SubmissionAt(cmd, [], LookingUpExternal), 1) ==
              SubmissionAt(cmd, [], LockingWallet)
  {
  }

  /** A submission of a new command up to its wallet's lock. */
  lemma ComesToLock(s: System, p: ProcId, cmd: SubmitWagerCommand)
    requires Reached(s) && MaySubmit(s, p, cmd) && Free(s, p, SubmissionFootprint(s, cmd))
    ensures Reached(With(s, p, SubmissionAt(cmd, [], LockingWallet), 0))
  {
    hide Reached, Holdings, Covered, Disjoint, LookupKey, LookupExternal, Validate, Free, SubmissionFootprint,
         AfterLookupKey, AfterLookupExternal;
    var f := SubmissionFootprint(s, cmd);
    Begins(s, p, Submission(cmd, None));
    LookupsFindNothing(s, p, cmd);
    HoldsNothing(s, cmd, LookingUpExternal);
    HoldsNothing(s, cmd, LockingWallet);
    Acts(s, p, SubmissionAt(cmd, [], LookingUpKey), 0, LookupKeyStep(1), f);
    Acts(s, p, SubmissionAt(cmd, [], LookingUpExternal), 0, LookupExternalStep(1), f);
  }

  lemma LocksAndInserts(s: System, p: ProcId, cmd: SubmitWagerCommand)
    requires MaySettle(s, p, cmd)
    ensures var w := WorkOf(s, cmd);
            && AfterLockWallet(s.db, SubmissionAt(cmd, [], LockingWallet), EnvOf(s)) ==
                 SubmissionAt(cmd, [], Inserting(w))
            && AfterInsert(s.db, SubmissionAt(cmd, [], Inserting(w))) ==
                 SubmissionAt(cmd, [InsertRow(w.txn)], ReadingReference(w))
  {
    hide LookupWallet, NewTransaction;
    LocalSteps.NewTransactionFacts(LookupWallet(s.db, cmd.walletId), cmd, EnvOf(s));
    assert [] + [InsertRow(WorkOf(s, cmd).txn)] == [InsertRow(WorkOf(s, cmd).txn)];
  }

  /** A submission of a new command up to the read of its reference: its row is in place. */
  lemma ComesToReference(s: System, p: ProcId, cmd: SubmitWagerCommand)
    requires Reached(s) && MaySettle(s, p, cmd) && Free(s, p, SubmissionFootprint(s, cmd))
    ensures var w := WorkOf(s, cmd);
            Reached(With(s, p, SubmissionAt(cmd, [InsertRow(w.txn)], ReadingReference(w)), 1))
  {
    hide Reached, Holdings, Covered, Disjoint, Free, SubmissionFootprint, AfterLockWallet, AfterInsert, NewTransaction,
         LookupWallet, MaySubmit, WorkOf;
    var f := SubmissionFootprint(s, cmd);
    var w := WorkOf(s, cmd);
    ComesToLock(s, p, cmd);
    LocksAndInserts(s, p, cmd);
    Holds(s, cmd, SubmissionAt(cmd, [], Inserting(w)));
    Holds(s, cmd, SubmissionAt(cmd, [InsertRow(w.txn)], ReadingReference(w)));
    Acts(s, p, SubmissionAt(cmd, [], LockingWallet), 0, LockWalletStep("-", 0), f);
    Acts(s, p, SubmissionAt(cmd, [], Inserting(w)), 1, InsertStep, f);
  }

  /** The reference is read: an operation without one, or whose reference is not there, reads none. */
  lemma ReadsNone(s: System, p: ProcId, cmd: SubmitWagerCommand)
    requires MaySettle(s, p, cmd)
    requires cmd.referenceExternalId != cmd.externalId && (cmd.providerId, cmd.referenceExternalId) !in s.db.byExternal
    ensures var w := WorkOf(s, cmd);
            AfterReadReference(s.db, SubmissionAt(cmd, [InsertRow(w.txn)], ReadingReference(w))) ==
            SubmissionAt(cmd, [InsertRow(w.txn)], ReadingClaim(w, Ok(None)))
  {
    hide LookupWallet;
    var w := WorkOf(s, cmd);
    RunOne(s.db, InsertRow(w.txn));
    assert ExternalOf(w.txn) == (cmd.providerId, cmd.externalId) && w.txn.referenceExternalId == cmd.referenceExternalId
           && w.txn.providerId == cmd.providerId;
    hide NewTransaction;
  }

  lemma ComesToClaim(s: System, p: ProcId, cmd: SubmitWagerCommand)
    requires Reached(s) && MaySettle(s, p, cmd) && Free(s, p, SubmissionFootprint(s, cmd))
    requires cmd.referenceExternalId != cmd.externalId && (cmd.providerId, cmd.referenceExternalId) !in s.db.byExternal
    ensures var w := WorkOf(s, cmd);
            Reached(With(s, p, SubmissionAt(cmd, [InsertRow(w.txn)], ReadingClaim(w, Ok(None))), 1))
  {
    hide Reached, Holdings, Covered, Disjoint, Free, SubmissionFootprint, AfterReadReference, NewTransaction,
         LookupWallet, MaySubmit, WorkOf;
    var w := WorkOf(s, cmd);
    ComesToReference(s, p, cmd);
    ReadsNone(s, p, cmd);
    Holds(s, cmd, SubmissionAt(cmd, [InsertRow(w.txn)], ReadingClaim(w, Ok(None))));
    Acts(s, p, SubmissionAt(cmd, [InsertRow(w.txn)], ReadingReference(w)), 1, ReadReferenceStep,
         SubmissionFootprint(s, cmd));
  }

  // ----- A decision -----

  /** The process about to commit what it has decided. */
  function DecidedAt(cmd: SubmitWagerCommand, w: Work, settled: Settled): Proc {
    Proc(Submission(cmd, None), 1, 0, false, [InsertRow(w.txn)] + Statements(settled.effect), [],
         Writing(w, Ok(None), false, settled, 1))
  }

  lemma DecidesNext(db: Db, cmd: SubmitWagerCommand, w: Work, settled: Settled)
    requires Settle(w.wall, w.txn, 0, Ok(None), false, w.env) == Ok(settled) && w.attempts == 0
    ensures var next := AfterReadClaim(db, SubmissionAt(cmd, [InsertRow(w.txn)], ReadingClaim(w, Ok(None))), 1);
            IsWriting(next) && next.phase == Writing(w, Ok(None), false, settled, 1) && next.op == Submission(cmd, None)
              && Written(next) == DecidedAt(cmd, w, settled)
  {
    hide Settle, Statements;
    assert Statements(settled.effect) + [] == Statements(settled.effect);
  }

  /** From the claim read to the point of commit, in any later state in which the process still stands there. */
  lemma ComesToCommit(s: System, t: System, p: ProcId, cmd: SubmitWagerCommand, drawn: nat, settled: Settled)
    requires NewTransaction(LookupWallet(s.db, cmd.walletId), cmd, EnvOf(s)).Ok?
    requires var w := WorkOf(s, cmd);
             && Reached(With(t, p, SubmissionAt(cmd, [InsertRow(w.txn)], ReadingClaim(w, Ok(None))), drawn))
             && Free(t, p, SubmissionFootprint(s, cmd))
                && Settle(w.wall, w.txn, 0, Ok(None), false, w.env) == Ok(settled)
    ensures Reached(With(t, p, DecidedAt(cmd, WorkOf(s, cmd), settled), drawn))
    ensures Free(t, p, SubmissionFootprint(s, cmd))
  {
    hide Reached, Holdings, Covered, Disjoint, Free, SubmissionFootprint, AfterReadClaim, NewTransaction, LookupWallet,
         DecidedAt, Settle, Written;
    var w := WorkOf(s, cmd);
    var pr := SubmissionAt(cmd, [InsertRow(w.txn)], ReadingClaim(w, Ok(None)));
    DecidesNext(t.db, cmd, w, settled);
    var next := AfterReadClaim(t.db, pr, 1);
    Holds(s, cmd, next);
    Acts(t, p, pr, drawn, ReadClaimStep(1), SubmissionFootprint(s, cmd));
    Writes(t, p, next, drawn, SubmissionFootprint(s, cmd));
  }

  /** What the commit of a decided submission leaves. */
  lemma CommitsDecision(t: System, p: ProcId, cmd: SubmitWagerCommand, w: Work, drawn: nat, settled: Settled)
    requires Reached(With(t, p, DecidedAt(cmd, w, settled), drawn))
    ensures Reached(Ended(t, p, DecidedAt(cmd, w, settled), drawn, ApplyEffect(t.db, settled.effect)))
    ensures Enabled(With(t, p, DecidedAt(cmd, w, settled), drawn), CommitStep(p, false))
    ensures Do(With(t, p, DecidedAt(cmd, w, settled), drawn), CommitStep(p, false)) ==
            Ended(t, p, DecidedAt(cmd, w, settled), drawn, ApplyEffect(t.db, settled.effect))
  {
    hide Reached, Ended, ApplyEffect, ApplyAll, Statements, Inv, ProcOk, SerialFresh, Exclusive, FutureIsFresh, Landed;
    var pr := DecidedAt(cmd, w, settled);
    Commits(t, p, pr, drawn);
    ReachedIsSafe(With(t, p, pr, drawn));
    SafeWork(With(t, p, pr, drawn), p);
    WritingCommits(t.db, pr);
  }

  lemma SafeWork(s: System, p: ProcId)
    requires SysOk(s) && p in s.procs && s.procs[p].phase.Writing?
    ensures Inv(s.db) && ProcOk(s.db, s.procs[p]) && SerialFresh(s.db, s.procs[p].phase.work.env.serial)
  {
    hide Inv, ProcOk, Exclusive, SerialFresh, FutureIsFresh;
    assert ProcOk(s.db, s.procs[p]);
    LocalSteps.EnvOfWork(s.db, s.procs[p]);
  }

  // ----- A recovery pass -----

  /** A waiting row whose reference is still not there, on a wallet that can be read. */
  predicate MayRecover(s: System, p: ProcId, id: TransactionId) {
    && p !in s.procs && s.clock != 0 && id != 0 && id in s.db.rows
    && var t := s.db.rows[id].txn;
       && t.id == id && t.state == PendingReference && RehydrateTransaction(t).Ok? && NeedsReference(t)
       && (t.providerId, t.referenceExternalId) !in s.db.byExternal
       && t.walletId in s.db.wallets && RehydrateWallet(s.db.wallets[t.walletId]).Ok?
  }

  function RecoveryWork(s: System, id: TransactionId): Work
    requires id in s.db.rows && s.db.rows[id].txn.walletId in s.db.wallets
  {
    Work(s.db.wallets[s.db.rows[id].txn.walletId], s.db.rows[id].txn, s.db.rows[id].attempts, EnvOf(s))
  }

  function RecoveryAt(id: TransactionId, phase: Phase): Proc {
    Proc(Recovery(id), 1, 0, false, [], [], phase)
  }

  function RecoveryFootprint(s: System, id: TransactionId): Footprint
    requires id in s.db.rows
  {
    NOTHING_HELD.(wallets := {s.db.rows[id].txn.walletId}, rows := {id})
  }

  lemma RecoverySteps(s: System, p: ProcId, id: TransactionId)
    requires MayRecover(s, p, id)
    ensures AfterLockRow(s.db, RecoveryAt(id, LockingRow)) == RecoveryAt(id, LockingRowWallet(s.db.rows[id]))
    ensures AfterLockRowWallet(s.db, RecoveryAt(id, LockingRowWallet(s.db.rows[id])), EnvOf(s)) ==
              RecoveryAt(id, ReadingReference(RecoveryWork(s, id)))
    ensures AfterReadReference(s.db, RecoveryAt(id, ReadingReference(RecoveryWork(s, id)))) ==
              RecoveryAt(id, ReadingClaim(RecoveryWork(s, id), Ok(None)))
  {
    RunNothing(s.db);
  }

  lemma RecoveryHolds(s: System, p: ProcId, id: TransactionId)
    requires MayRecover(s, p, id)
    ensures Covered(Holdings(RecoveryAt(id, LockingRowWallet(s.db.rows[id]))), RecoveryFootprint(s, id))
    ensures Covered(Holdings(RecoveryAt(id, ReadingReference(RecoveryWork(s, id)))), RecoveryFootprint(s, id))
    ensures Covered(Holdings(RecoveryAt(id, ReadingClaim(RecoveryWork(s, id), Ok(None)))), RecoveryFootprint(s, id))
    ensures forall e :: Covered(Holdings(RecoveryAt(id, Finished(e))), RecoveryFootprint(s, id))
  {
  }

  /** A recovery pass up to its claim read. */
  lemma RecoveryComesToClaim(s: System, p: ProcId, id: TransactionId)
    requires Reached(s) && MayRecover(s, p, id) && Free(s, p, RecoveryFootprint(s, id))
    ensures Reached(With(s, p, RecoveryAt(id, ReadingClaim(RecoveryWork(s, id), Ok(None))), 1))
  {
    hide Reached, Holdings, Covered, Disjoint, Free, AfterLockRow, AfterLockRowWallet, AfterReadReference,
         RehydrateWallet, RehydrateTransaction;
    var f := RecoveryFootprint(s, id);
    var row, w := s.db.rows[id], RecoveryWork(s, id);
    RecoverySteps(s, p, id);
    RecoveryHolds(s, p, id);
    Begins(s, p, Recovery(id));
    Acts(s, p, RecoveryAt(id, LockingRow), 0, LockRowStep, f);
    Acts(s, p, RecoveryAt(id, LockingRowWallet(row)), 0, LockRowWalletStep("-", 0), f);
    Acts(s, p, RecoveryAt(id, ReadingReference(w)), 1, ReadReferenceStep, f);
  }
}
