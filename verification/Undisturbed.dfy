/** A process that nobody holds up comes, statement by statement, to exactly the answer and the tables of its whole
    operation: the interleaved engine does everything the use cases promise, and nothing less
    (internal/application/service.go:98-332). */
module Undisturbed {
  import opened Results
  import opened Wager
  import opened Wallets
  import opened AppErrors
  import opened Commands
  import opened Tables
  import opened Settlement
  import opened Operations
  import opened Invariants
  import opened StatementRuns
  import opened OperationSafety
  import opened Interleaving
  import opened Noninterference
  import opened Commitment
  import opened SystemSafety
  import LocalSteps

  // ----- Where an operation comes to -----

  /** The answer a caller gets and the tables then. */
  datatype End = End(answer: Answer, db: Db)

  function Recorded(db: Db, op: Op, completedAt: Time): Db {
    if op.Submission? && op.delivery.Some? then CompletedInbox(db, op.delivery.value, completedAt) else db
  }

  function Delivered(db: Db, op: Op, o: Outcome, completedAt: Time): End {
    match o
    case Refused(e) => End(Failure(e), db)
    case Answered(result) => End(Success(result), Recorded(db, op, completedAt))
    case Settles(s) => End(Success(s.result), Recorded(ApplyEffect(db, s.effect), op, completedAt))
  }

  /** The whole operation in one piece. */
  function Whole(db: Db, op: Op, env: Env, completedAt: Time): End {
    match op
    case Submission(cmd, None) => Delivered(db, op, Submit(db, cmd, env), completedAt)
    case Submission(cmd, Some(d)) =>
      var o := SubmitFromInbox(db, cmd, d, env);
      if o.Duplicate? then End(DuplicateDelivery, db)
      else End(Delivered(db, op, o.outcome, completedAt).answer, AfterInbox(db, o, d, completedAt))
    case Recovery(id) => Delivered(db, op, Resolve(db, id, env), completedAt)
    case OpenAccount(open, walletId) =>
      match OpenWallet(db, open, walletId, env)
      case Err(e) => End(Failure(e), db)
      case Ok(o) => End(AccountOpened, ApplyOpened(db, o))
  }

  function OutcomeOf(r: Result<Settled, AppError>): Outcome {
    match r
    case Ok(s) => Settles(s)
    case Err(e) => Refused(e)
  }

  function ExternalLookup(db: Db, cmd: SubmitWagerCommand, env: Env): Outcome {
    match LookupExternal(db, (cmd.providerId, cmd.externalId))
    case Err(e) => Refused(e)
    case Ok(Some(found)) => ExternalAnswer(found, cmd)
    case Ok(None) => SubmitFresh(db, cmd, env)
  }

  /** Where a process comes to from the point it has reached. */
  function Rest(db: Db, pr: Proc, env: Env, completedAt: Time): End {
    match pr.phase
    case LookingUpKey =>
      if pr.op.Submission? then Delivered(db, pr.op, SubmitWithinTx(db, pr.op.cmd, env), completedAt)
      else End(GaveUp, db)
    case LookingUpExternal =>
      if pr.op.Submission? then Delivered(db, pr.op, ExternalLookup(db, pr.op.cmd, env), completedAt)
      else End(GaveUp, db)
    case LockingWallet =>
      if pr.op.Submission? then Delivered(db, pr.op, SubmitFresh(db, pr.op.cmd, env), completedAt)
      else End(GaveUp, db)
    case Inserting(w) =>
      Delivered(db, pr.op, SettleIn(Apply(db, InsertRow(w.txn)), w.wall, w.txn, w.attempts, env), completedAt)
    case ReadingReference(w) =>
      Delivered(db, pr.op, SettleIn(View(db, pr), w.wall, w.txn, w.attempts, env), completedAt)
    case ReadingClaim(w, ref) =>
      Delivered(db, pr.op, OutcomeOf(Settle(w.wall, w.txn, w.attempts, ref, ClaimRead(View(db, pr), ref), env)),
                completedAt)
    case Writing(_, _, _, settled, _) => End(Success(settled.result), ApplyAll(db, pr.done + pr.todo))
    case Completing(result, _) => End(Success(result), ApplyAll(db, pr.done + pr.todo))
    case WritingAccount(_, _) => End(AccountOpened, ApplyAll(db, pr.done + pr.todo))
    case Finished(answer) => End(answer, db)
    case _ => Whole(db, pr.op, env, completedAt)
  }

  // ----- One process alone -----

  /** Nobody else holds anything. */
  predicate Quiet(s: System, p: ProcId) {
    forall q | q in s.procs && q != p :: Holdings(s.procs[q]) == NOTHING_HELD
  }

  /** The surroundings are those the process has drawn or will draw. */
  predicate Draws(s: System, pr: Proc, env: Env) {
    match pr.phase
    case Inserting(w) => w.env == env
    case ReadingReference(w) => w.env == env
    case ReadingClaim(w, _) => w.env == env
    case InsertingAccount(openedAt) => env.serial == s.nextSerial && env.now == openedAt
    case Writing(_, _, _, _, _) => true
    case Completing(_, _) => true
    case WritingAccount(_, _) => true
    case Finished(_) => true
    case _ => env.serial == s.nextSerial && env.now == s.clock
  }

  /** What its own lookups have found is still so. */
  predicate StillFree(db: Db, pr: Proc) {
    && (pr.phase.LookingUpExternal? || pr.phase.LockingWallet? || pr.phase.Inserting? ==>
          pr.op.Submission? && (pr.op.cmd.providerId, pr.op.cmd.idempotencyKey) !in db.byKey)
    && (pr.phase.LockingWallet? || pr.phase.Inserting? ==>
          (pr.op.cmd.providerId, pr.op.cmd.externalId) !in db.byExternal)
  }

  /** The next statement of a process. */
  function NextStep(p: ProcId, pr: Proc, env: Env, completedAt: Time): Step
    requires !pr.phase.Finished?
  {
    match pr.phase
    case BeginningInbox => Local(p, BeginInboxStep)
    case LookingUpKey => Local(p, LookupKeyStep(completedAt))
    case LookingUpExternal => Local(p, LookupExternalStep(completedAt))
    case LockingWallet => Local(p, LockWalletStep(env.correlation, env.hash))
    case Inserting(_) => Local(p, InsertStep)
    case LockingRow => Local(p, LockRowStep)
    case LockingRowWallet(_) => Local(p, LockRowWalletStep(env.correlation, env.hash))
    case ReadingReference(_) => Local(p, ReadReferenceStep)
    case ReadingClaim(_, _) => Local(p, ReadClaimStep(completedAt))
    case InsertingAccount(_) => Local(p, InsertAccountStep(env.correlation, env.hash))
    case _ => if pr.todo == [] then CommitStep(p, false) else Local(p, WriteStep)
  }

  ghost predicate Alone(s: System, p: ProcId, env: Env, completedAt: Time) {
    && SysOk(s) && p in s.procs && Quiet(s, p) && EnvOk(env) && completedAt != 0
    && Draws(s, s.procs[p], env) && StillFree(s.db, s.procs[p])
    && (s.procs[p].op.OpenAccount? && s.procs[p].phase.InsertingAccount? ==>
          FreshWalletId(s, p, s.procs[p].op.walletId))
  }

  /** How many statements a process can still have before it. */
  function Left(pr: Proc): nat {
    match pr.phase
    case BeginningInbox => 9
    case LookingUpKey => 8
    case LookingUpExternal => 7
    case LockingWallet => 6
    case Inserting(_) => 5
    case LockingRow => 6
    case LockingRowWallet(_) => 5
    case ReadingReference(_) => 4
    case ReadingClaim(_, _) => 3
    case InsertingAccount(_) => 3
    case Finished(_) => 0
    case _ => 1
  }

  // ----- Statement by statement -----

  lemma NothingBlocks(s: System, p: ProcId, a: Action)
    requires p in s.procs && PhaseFits(s.procs[p], a) && Quiet(s, p)
    requires a.InsertAccountStep? ==> FreshWalletId(s, p, s.procs[p].op.walletId)
    ensures LocalEnabled(s, p, a)
  {
    hide Holdings, AfterAction, FreshWalletId;
    var next := AfterAction(s, s.procs[p], a);
    forall q | q in s.procs && q != p ensures Disjoint(Holdings(next), Holdings(s.procs[q])) {
      NothingIsDisjoint(Holdings(next));
    }
  }

  lemma BeginsAlike(db: Db, pr: Proc, env: Env, t: Time)
    requires ProcOk(db, pr) && pr.phase.BeginningInbox?
    ensures pr.op.Submission? && pr.op.delivery.Some?
    ensures var next := AfterBeginInbox(db, pr);
            && Rest(db, next, env, t) == Rest(db, pr, env, t) && (next.phase.Finished? || next.phase.LookingUpKey?)
  {
    LocalSteps.OpSurvives(db, pr);
    LocalSteps.ValidatedCommand(pr.op);
    hide OpOk, Validate, ValidateDelivery, SubmitWithinTx, ApplyEffect;
  }

  lemma FoundAlike(db: Db, pr: Proc, o: Outcome, env: Env, t: Time)
    requires OpOk(pr.op) && Begun(db, pr) && !o.Settles?
    ensures var next := FoundRow(pr, o, t);
            Rest(db, next, env, t) == Delivered(db, pr.op, o, t) && (next.phase.Finished? || next.phase.Completing?)
  {
    hide OpOk, ApplyEffect, ApplyAll, Whole;
    if o.Answered? && pr.op.delivery.Some? {
      var d := pr.op.delivery.value;
      var next := FoundRow(pr, o, t);
      DeliveryRuns(db, InboxKeyOf(d), d.digest, d.receivedAt, [], t);
      assert [BeginInbox(InboxKeyOf(d), d.digest, d.receivedAt)] + [] + [CompleteInbox(InboxKeyOf(d), t)] ==
             next.done + next.todo;
      RunNothing(db);
    }
  }

  lemma LookupPhases(db: Db, pr: Proc)
    requires ProcOk(db, pr) && (pr.phase.LookingUpKey? || pr.phase.LookingUpExternal?)
    ensures OpOk(pr.op) && pr.op.Submission? && Begun(db, pr)
  {
    hide OpOk;
  }

  lemma KeyLookupIs(db: Db, cmd: SubmitWagerCommand, env: Env)
    requires Inv(db)
    ensures var k := (cmd.providerId, cmd.idempotencyKey);
            && LookupKey(db, k) == (if k in db.byKey && db.byKey[k] in db.rows then Ok(Some(db.rows[db.byKey[k]].txn))
                                    else Ok(None))
            && (k in db.byKey ==> db.byKey[k] in db.rows)
            && SubmitWithinTx(db, cmd, env) == (if k in db.byKey && db.byKey[k] in db.rows
                                                then ReplayOrConflict(db.rows[db.byKey[k]].txn, cmd)
                                                else ExternalLookup(db, cmd, env))
  {
    hide Inv, ReplayOrConflict, ExternalAnswer, SubmitFresh, LookupKey, LookupExternal;
    LookupsAreExact(db, cmd);
  }

  lemma ExternalLookupIs(db: Db, cmd: SubmitWagerCommand, env: Env)
    requires Inv(db)
    ensures var x := (cmd.providerId, cmd.externalId);
            && LookupExternal(db, x) == (if x in db.byExternal && db.byExternal[x] in db.rows
                                         then Ok(Some(db.rows[db.byExternal[x]].txn)) else Ok(None))
            && (x in db.byExternal ==> db.byExternal[x] in db.rows)
            && ExternalLookup(db, cmd, env) == (if x in db.byExternal && db.byExternal[x] in db.rows
                                                then ExternalAnswer(db.rows[db.byExternal[x]].txn, cmd)
                                                else SubmitFresh(db, cmd, env))
  {
    hide Inv, ReplayOrConflict, ExternalAnswer, SubmitFresh, LookupKey, LookupExternal;
    LookupsAreExact(db, cmd);
  }

  lemma KeyLookupAlike(db: Db, pr: Proc, env: Env, t: Time)
    requires Inv(db) && ProcOk(db, pr) && pr.phase.LookingUpKey?
    ensures pr.op.Submission?
    ensures var next := AfterLookupKey(db, pr, t);
            && Rest(db, next, env, t) == Rest(db, pr, env, t) && StillFree(db, next)
            && (next.phase.Finished? || next.phase.Completing? || next.phase.LookingUpExternal?)
  {
    hide Inv, OpOk, ProcOk, Begun, LookupKey, ReplayOrConflict, FoundRow, SubmitWithinTx, ExternalLookup, Delivered,
         Whole, ApplyAll;
    LookupPhases(db, pr);
    KeyLookupIs(db, pr.op.cmd, env);
    var k := (pr.op.cmd.providerId, pr.op.cmd.idempotencyKey);
    if k in db.byKey {
      ReplaysDoNotSettle(db.rows[db.byKey[k]].txn, pr.op.cmd);
      FoundAlike(db, pr, ReplayOrConflict(db.rows[db.byKey[k]].txn, pr.op.cmd), env, t);
    }
  }

  lemma ReplaysDoNotSettle(found: WagerTransaction, cmd: SubmitWagerCommand)
    ensures !ReplayOrConflict(found, cmd).Settles? && !ExternalAnswer(found, cmd).Settles?
  {
  }

  lemma ExternalLookupAlike(db: Db, pr: Proc, env: Env, t: Time)
    requires Inv(db) && ProcOk(db, pr) && pr.phase.LookingUpExternal? && StillFree(db, pr)
    ensures pr.op.Submission?
    ensures var next := AfterLookupExternal(db, pr, t);
            && Rest(db, next, env, t) == Rest(db, pr, env, t) && StillFree(db, next)
            && (next.phase.Finished? || next.phase.Completing? || next.phase.LockingWallet?)
  {
    hide Inv, OpOk, ProcOk, Begun, LookupExternal, ExternalAnswer, FoundRow, SubmitFresh, ExternalLookup, Delivered,
         Whole, ApplyAll;
    LookupPhases(db, pr);
    ExternalLookupIs(db, pr.op.cmd, env);
    var x := (pr.op.cmd.providerId, pr.op.cmd.externalId);
    if x in db.byExternal {
      ReplaysDoNotSettle(db.rows[db.byExternal[x]].txn, pr.op.cmd);
      FoundAlike(db, pr, ExternalAnswer(db.rows[db.byExternal[x]].txn, pr.op.cmd), env, t);
    }
  }

  lemma LockAlike(db: Db, pr: Proc, env: Env, t: Time)
    requires ProcOk(db, pr) && pr.phase.LockingWallet? && StillFree(db, pr)
    ensures var next := AfterLockWallet(db, pr, env);
            && Rest(db, next, env, t) == Rest(db, pr, env, t) && StillFree(db, next)
            && (next.phase.Finished? || (next.phase.Inserting? && next.phase.work.env == env))
  {
    hide NewTransaction, RehydrateWallet, OpOk, SettleIn, Whole, Apply, ApplyEffect;
    var wall := LookupWallet(db, pr.op.cmd.walletId);
    if NewTransaction(wall, pr.op.cmd, env).Ok? {
      LocalSteps.NewTransactionFacts(wall, pr.op.cmd, env);
    }
  }

  lemma InsertingParts(db: Db, pr: Proc)
    requires ProcOk(db, pr) && pr.phase.Inserting?
    ensures var w := pr.phase.work;
            && pr.op.Submission? && pr.done == InboxPrefix(pr.op) && pr.todo == []
            && KeyOf(w.txn) == (pr.op.cmd.providerId, pr.op.cmd.idempotencyKey)
            && ExternalOf(w.txn) == (pr.op.cmd.providerId, pr.op.cmd.externalId)
  {
    LocalSteps.OpSurvives(db, pr);
    hide OpOk, NewTransaction, RehydrateWallet, InboxPrefix;
    var w := pr.phase.work;
    LocalSteps.NewTransactionFacts(Ok(Some(w.wall)), pr.op.cmd, w.env);
  }

  lemma InsertAlike(db: Db, pr: Proc, env: Env, t: Time)
    requires ProcOk(db, pr) && pr.phase.Inserting? && StillFree(db, pr)
    ensures var next := AfterInsert(db, pr);
            && Rest(db, next, env, t) == Rest(db, pr, env, t)
            && next.phase.ReadingReference? && next.phase.work == pr.phase.work
  {
    hide ProcOk, SettleIn, Whole, Apply, ApplyEffect, ApplyAll, InboxPrefix, KeyOf, ExternalOf, Delivered;
    var w, next := pr.phase.work, AfterInsert(db, pr);
    InsertingParts(db, pr);
    assert next.done == WorkPrefix(pr.op, w);
    LocalSteps.OwnViewIsInsert(db, pr.op, w);
    SettlesAlikeOn(View(db, next), Apply(db, InsertRow(w.txn)), w, env) by {
      LocalSteps.InsertIsApart(db, w.txn);
    }
  }

  lemma SettlesAlikeOn(a: Db, b: Db, w: Work, env: Env)
    requires a.rows == b.rows && a.byExternal == b.byExternal && a.claims == b.claims
    ensures SettleIn(a, w.wall, w.txn, w.attempts, env) == SettleIn(b, w.wall, w.txn, w.attempts, env)
  {
    hide Settle;
    LocalSteps.LookupReads(a, b, w.txn);
    LocalSteps.ClaimReads(a, b, LoadReference(a, w.txn));
  }

  lemma RowAlike(db: Db, pr: Proc, env: Env, t: Time)
    requires Inv(db) && ProcOk(db, pr) && pr.phase.LockingRow?
    ensures pr.op.Recovery?
    ensures var next := AfterLockRow(db, pr);
            && Rest(db, next, env, t) == Rest(db, pr, env, t) && (next.phase.Finished? || next.phase.LockingRowWallet?)
  {
    hide Inv, OpOk, ProcOk, SettleIn, Rehydrate, ApplyEffect, LookupWallet, ResultOf, ApplyAll;
    RecoveryPhases(db, pr);
  }

  lemma RecoveryPhases(db: Db, pr: Proc)
    requires ProcOk(db, pr) && (pr.phase.LockingRow? || pr.phase.LockingRowWallet?)
    ensures pr.op.Recovery? && pr.op.id != 0 && pr.done == [] && pr.todo == []
    ensures pr.phase.LockingRowWallet? ==>
              pr.op.id in db.rows && db.rows[pr.op.id] == pr.phase.row && pr.phase.row.txn.state == PendingReference
  {
    LocalSteps.OpSurvives(db, pr);
    RecoveryNamesARow(pr.op);
    hide OpOk;
  }

  lemma RecoveryNamesARow(op: Op)
    requires OpOk(op) && op.Recovery?
    ensures op.id != 0
  {
  }

  lemma RowWalletAlike(db: Db, pr: Proc, env: Env, t: Time)
    requires Inv(db) && ProcOk(db, pr) && pr.phase.LockingRowWallet?
    ensures var next := AfterLockRowWallet(db, pr, env);
            && Rest(db, next, env, t) == Rest(db, pr, env, t)
            && (next.phase.Finished? || (next.phase.ReadingReference? && next.phase.work.env == env))
  {
    hide Inv, OpOk, ProcOk, RowOk, Rehydrate, LookupWallet, ApplyEffect, SettleIn, ResultOf, ApplyAll;
    RecoveryPhases(db, pr);
    StoredRowRehydrates(db, pr.op.id);
    LocalSteps.RunNone(db);
  }

  lemma ReferenceAlike(db: Db, pr: Proc, env: Env, t: Time)
    requires pr.phase.ReadingReference?
    ensures var next := AfterReadReference(db, pr);
            && Rest(db, next, env, t) == Rest(db, pr, env, t)
            && next.phase.ReadingClaim? && next.phase.work == pr.phase.work
  {
    hide Settle, ApplyAll, ApplyEffect, LoadReference, Delivered;
  }

  lemma ClaimAlike(db: Db, pr: Proc, env: Env, t: Time)
    requires Inv(db) && ProcOk(db, pr) && pr.phase.ReadingClaim? && pr.phase.work.env == env && t != 0
    ensures var next := AfterReadClaim(db, pr, t);
            && Rest(db, next, env, t) == Rest(db, pr, env, t) && (next.phase.Finished? || next.phase.Writing?)
  {
    hide Inv, OpOk, InPlace, ReferenceKnown, ApplyAll, WorkPrefix, Settle, Statements, CompletionOf, ShapeOk,
         ApplyEffect, ClaimRead;
    LocalSteps.OpSurvives(db, pr);
    var w, ref := pr.phase.work, pr.phase.ref;
    var claimRead := ClaimRead(View(db, pr), ref);
    SettleIsShaped(w.wall, w.txn, w.attempts, ref, claimRead, w.env);
    if Settle(w.wall, w.txn, w.attempts, ref, claimRead, w.env).Ok? {
      var next, s := AfterReadClaim(db, pr, t), Settle(w.wall, w.txn, w.attempts, ref, claimRead, w.env).value;
      CommitRuns(db, pr.op, w, s, t);
      assert next.done + next.todo == WorkPrefix(pr.op, w) + Statements(s.effect) + CompletionOf(pr.op, t);
    }
  }

  lemma AccountAlike(db: Db, pr: Proc, env: Env, t: Time)
    requires ProcOk(db, pr) && pr.phase.InsertingAccount? && EnvOk(env)
    requires pr.op.OpenAccount? && pr.op.walletId !in db.wallets && env.serial !in db.rows
    ensures var next := AfterInsertAccount(db, pr, env);
            && Rest(db, next, env, t) == Rest(db, pr, env, t) && (next.phase.Finished? || next.phase.WritingAccount?)
  {
    hide OpenWallet, OpenStatements, ApplyOpened, ApplyAll, AccountReady, ProcOk, EnvOk;
    var r := OpenWallet(db, pr.op.open, pr.op.walletId, env);
    if r.Ok? {
      var next := AfterInsertAccount(db, pr, env);
      assert next.done + next.todo == OpenStatements(r.value);
      AccountIsReady(db, pr, env);
      OpenRuns(db, r.value, env);
    }
  }

  lemma AccountIsReady(db: Db, pr: Proc, env: Env)
    requires ProcOk(db, pr) && pr.phase.InsertingAccount? && EnvOk(env)
    requires pr.op.OpenAccount? && pr.op.walletId !in db.wallets && env.serial !in db.rows
    requires OpenWallet(db, pr.op.open, pr.op.walletId, env).Ok?
    ensures AccountReady(db, OpenWallet(db, pr.op.open, pr.op.walletId, env).value, env)
  {
    hide OpenWallet, OpenStatements, AccountReady, OpOk, EnvOk;
    LocalSteps.InsertAccountIsOk(db, pr, env);
  }

  /** What the process reads and finds when it takes its next statement alone. */
  predicate Advances(s: System, pr: Proc, next: Proc, env: Env) {
    && StillFree(s.db, next)
    && (next.phase.LookingUpKey? || next.phase.LookingUpExternal? || next.phase.LockingWallet?
        || next.phase.LockingRow? || next.phase.LockingRowWallet? || next.phase.BeginningInbox? ==>
          pr.phase.LookingUpKey? || pr.phase.LookingUpExternal? || pr.phase.BeginningInbox? || pr.phase.LockingRow?)
    && (next.phase.Inserting? || next.phase.ReadingReference? || next.phase.ReadingClaim? ==>
          next.phase.work.env == env)
    && !next.phase.InsertingAccount?
    && (Left(next) < Left(pr) || (Left(next) == Left(pr) && |next.todo| < |pr.todo|))
  }

  lemma ActsAlike(s: System, pr: Proc, env: Env, t: Time)
    requires Inv(s.db) && ProcOk(s.db, pr) && s.nextSerial !in s.db.rows && EnvOk(env) && t != 0
    requires Draws(s, pr, env) && StillFree(s.db, pr) && !pr.phase.Finished?
    requires pr.phase.InsertingAccount? ==> pr.op.OpenAccount? && pr.op.walletId !in s.db.wallets
    requires NextStep(0, pr, env, t).Local?
    ensures var a := NextStep(0, pr, env, t).action;
            && PhaseFits(pr, a)
            && var next := AfterAction(s, pr, a);
               Rest(s.db, next, env, t) == Rest(s.db, pr, env, t) && Advances(s, pr, next, env)
  {
    hide Inv, ProcOk, Rest, EnvOk, AfterBeginInbox, AfterLookupKey, AfterLookupExternal, AfterLockWallet, AfterInsert,
         AfterLockRow, AfterLockRowWallet, AfterReadReference, AfterReadClaim, AfterInsertAccount;
    PhaseShapes(s.db, pr);
    CorrelationIsThere(env);
    match pr.phase
    case BeginningInbox => BeginsAlike(s.db, pr, env, t);
    case LookingUpKey => KeyLookupAlike(s.db, pr, env, t);
    case LookingUpExternal => ExternalLookupAlike(s.db, pr, env, t);
    case LockingWallet => LockAlike(s.db, pr, env, t);
    case Inserting(_) => InsertAlike(s.db, pr, env, t);
    case LockingRow => RowAlike(s.db, pr, env, t);
    case LockingRowWallet(_) => RowWalletAlike(s.db, pr, env, t);
    case ReadingReference(_) => ReferenceAlike(s.db, pr, env, t);
    case ReadingClaim(_, _) => ClaimAlike(s.db, pr, env, t);
    case InsertingAccount(_) => AccountAlike(s.db, pr, env, t);
    case _ => WriteAlike(s.db, pr, env, t);
  }

  lemma CorrelationIsThere(env: Env)
    requires EnvOk(env)
    ensures env.correlation != ""
  {
  }

  /** One statement alone: it is possible, it leaves the end in sight as it was, and the process stays alone. */
  lemma StepsAlone(s: System, p: ProcId, env: Env, t: Time)
    requires Alone(s, p, env, t) && !s.procs[p].phase.Finished?
    ensures var step := NextStep(p, s.procs[p], env, t);
            && Enabled(s, step) && p in Do(s, step).procs && Alone(Do(s, step), p, env, t)
            && Rest(Do(s, step).db, Do(s, step).procs[p], env, t) == Rest(s.db, s.procs[p], env, t)
            && (Left(Do(s, step).procs[p]) < Left(s.procs[p])
                || (Left(Do(s, step).procs[p]) == Left(s.procs[p])
                    && |Do(s, step).procs[p].todo| < |s.procs[p].todo|))
  {
    hide Alone, Rest, NextStep, Left, Enabled, Do;
    AloneIsThere(s, p, env, t);
    if NextStep(p, s.procs[p], env, t).Local? {
      StatementAlone(s, p, env, t);
    } else {
      CommitAlone(s, p, env, t);
    }
  }

  lemma StatementAlone(s: System, p: ProcId, env: Env, t: Time)
    requires Alone(s, p, env, t) && !s.procs[p].phase.Finished? && NextStep(p, s.procs[p], env, t).Local?
    ensures var step := NextStep(p, s.procs[p], env, t);
            && Enabled(s, step) && p in Do(s, step).procs && Alone(Do(s, step), p, env, t)
            && Rest(Do(s, step).db, Do(s, step).procs[p], env, t) == Rest(s.db, s.procs[p], env, t)
            && (Left(Do(s, step).procs[p]) < Left(s.procs[p])
                || (Left(Do(s, step).procs[p]) == Left(s.procs[p])
                    && |Do(s, step).procs[p].todo| < |s.procs[p].todo|))
  {
    hide SysOk, Rest, Holdings, FreshWalletId, AfterAction, Advances, StillFree, Draws, PhaseFits, Left, LocalEnabled,
         EnvOk, ProcOk, Inv, Grows;
    var pr, step := s.procs[p], NextStep(p, s.procs[p], env, t);
    SysParts(s, p);
    assert step == Local(p, NextStep(0, pr, env, t).action);
    OpeningIsFresh(s, p);
    ActsAlike(s, pr, env, t);
    NothingBlocks(s, p, step.action);
    StepKeeps(s, step);
    AdvancesAlone(s, p, pr, AfterAction(s, pr, step.action), step.action, env);
  }

  lemma CommitAlone(s: System, p: ProcId, env: Env, t: Time)
    requires Alone(s, p, env, t) && !s.procs[p].phase.Finished? && !NextStep(p, s.procs[p], env, t).Local?
    ensures var step := NextStep(p, s.procs[p], env, t);
            && Enabled(s, step) && p in Do(s, step).procs && Alone(Do(s, step), p, env, t)
            && Rest(Do(s, step).db, Do(s, step).procs[p], env, t) == Rest(s.db, s.procs[p], env, t)
            && Left(Do(s, step).procs[p]) < Left(s.procs[p])
  {
    hide SysOk, Rest, Holdings, FreshWalletId, ApplyAll, StillFree, Draws, Left, CommitEntry, CommitAnswer, EnvOk,
         Grows;
    var pr, step := s.procs[p], NextStep(p, s.procs[p], env, t);
    CommitAlike(s.db, pr, env, t);
    StepKeeps(s, step);
    EndsAlone(Do(s, step), Do(s, step).procs[p], env);
    EndIsLess(pr);
  }

  lemma OpeningIsFresh(s: System, p: ProcId)
    requires p in s.procs && ProcOk(s.db, s.procs[p])
    requires s.procs[p].op.OpenAccount? && s.procs[p].phase.InsertingAccount? ==>
               FreshWalletId(s, p, s.procs[p].op.walletId)
    ensures s.procs[p].phase.InsertingAccount? ==>
              s.procs[p].op.OpenAccount? && s.procs[p].op.walletId !in s.db.wallets
  {
    hide ProcOk, FreshWalletId;
    if s.procs[p].phase.InsertingAccount? {
      PhaseShapes(s.db, s.procs[p]);
      FreshIsNew(s, p, s.procs[p].op.walletId);
    }
  }

  lemma FreshIsNew(s: System, p: ProcId, id: WalletId)
    requires FreshWalletId(s, p, id)
    ensures id !in s.db.wallets
  {
  }

  lemma EndIsLess(pr: Proc)
    requires !pr.phase.Finished?
    ensures forall a :: Left(Finish(pr, a)) < Left(pr)
  {
  }

  lemma AdvancesAlone(s: System, p: ProcId, pr: Proc, next: Proc, a: Action, env: Env)
    requires Advances(s, pr, next, env) && PhaseFits(pr, a) && next == AfterAction(s, pr, a) && Draws(s, pr, env)
    ensures StillFree(s.db, next)
    ensures forall u: System :: u.nextSerial == s.nextSerial + SerialsDrawn(a) && u.clock == s.clock ==>
                                  Draws(u, next, env)
    ensures !next.phase.InsertingAccount?
    ensures Left(next) < Left(pr) || (Left(next) == Left(pr) && |next.todo| < |pr.todo|)
  {
    hide AfterAction, StillFree, Left;
  }

  lemma EndsAlone(s: System, pr: Proc, env: Env)
    requires pr.phase.Finished?
    ensures Draws(s, pr, env) && StillFree(s.db, pr)
  {
  }

  lemma SysParts(s: System, p: ProcId)
    requires SysOk(s) && p in s.procs
    ensures Inv(s.db) && ProcOk(s.db, s.procs[p]) && SerialFresh(s.db, s.nextSerial) && s.nextSerial !in s.db.rows
  {
    hide Inv, ProcOk, Exclusive;
  }

  lemma PhaseShapes(db: Db, pr: Proc)
    requires ProcOk(db, pr) && !pr.phase.Finished?
    ensures pr.phase.LookingUpKey? || pr.phase.LookingUpExternal? || pr.phase.LockingWallet? ==> pr.op.Submission?
    ensures pr.phase.BeginningInbox? ==> pr.op.Submission? && pr.op.delivery.Some?
    ensures pr.phase.LockingRow? || pr.phase.LockingRowWallet? ==> pr.op.Recovery?
    ensures pr.phase.InsertingAccount? ==> pr.op.OpenAccount?
  {
    hide OpOk, Settle, NewTransaction;
  }

  lemma WriteAlike(db: Db, pr: Proc, env: Env, t: Time)
    requires pr.phase.Writing? || pr.phase.Completing? || pr.phase.WritingAccount?
    requires pr.todo != []
    ensures var next := AfterWrite(pr);
            && Rest(db, next, env, t) == Rest(db, pr, env, t) && next.phase == pr.phase && |next.todo| < |pr.todo|
  {
    hide ApplyAll;
    assert AfterWrite(pr).done + AfterWrite(pr).todo == pr.done + pr.todo;
  }

  lemma CommitAlike(db: Db, pr: Proc, env: Env, t: Time)
    requires (pr.phase.Writing? || pr.phase.Completing? || pr.phase.WritingAccount?) && pr.todo == []
    ensures Rest(ApplyAll(db, pr.done), Finish(pr, CommitAnswer(pr)), env, t) == Rest(db, pr, env, t)
  {
    hide ApplyAll;
    assert pr.done + [] == pr.done;
  }

  // ----- To the end -----

  /** Consecutive states differ by the process's own next statement. */
  ghost predicate RunsAlone(trace: seq<System>, p: ProcId, env: Env, t: Time) {
    forall i | 0 <= i < |trace| - 1 ::
      && p in trace[i].procs && !trace[i].procs[p].phase.Finished?
      && Enabled(trace[i], NextStep(p, trace[i].procs[p], env, t))
      && trace[i + 1] == Do(trace[i], NextStep(p, trace[i].procs[p], env, t))
  }

  lemma RunsToTheEnd(s: System, p: ProcId, env: Env, t: Time) returns (trace: seq<System>)
    requires Alone(s, p, env, t)
    ensures trace != [] && trace[0] == s && RunsAlone(trace, p, env, t)
    ensures var last := trace[|trace| - 1];
            && p in last.procs && last.procs[p].phase.Finished?
            && End(last.procs[p].phase.answer, last.db) == Rest(s.db, s.procs[p], env, t)
    decreases Left(s.procs[p]), |s.procs[p].todo|
  {
    hide Alone, Enabled, Do, NextStep, Left, Whole, Delivered;
    assert p in s.procs by { AloneIsThere(s, p, env, t); }
    if s.procs[p].phase.Finished? {
      trace := [s];
    } else {
      StepsAlone(s, p, env, t);
      var next := Do(s, NextStep(p, s.procs[p], env, t));
      var rest := RunsToTheEnd(next, p, env, t);
      trace := [s] + rest;
      forall i | 0 <= i < |trace| - 1
        ensures p in trace[i].procs && !trace[i].procs[p].phase.Finished?
                && Enabled(trace[i], NextStep(p, trace[i].procs[p], env, t))
                && trace[i + 1] == Do(trace[i], NextStep(p, trace[i].procs[p], env, t))
      {
        if i > 0 {
          assert trace[i] == rest[i - 1] && trace[i + 1] == rest[i];
        }
      }
    }
  }

  lemma AloneIsThere(s: System, p: ProcId, env: Env, t: Time)
    requires Alone(s, p, env, t)
    ensures p in s.procs
  {
  }

  lemma StartsAlone(s: System, p: ProcId, op: Op, env: Env, t: Time)
    requires SysOk(s) && Enabled(s, Start(p, op)) && Quiet(s, p)
    requires env.serial == s.nextSerial && env.now == s.clock && EnvOk(env) && t != 0
    requires op.OpenAccount? ==> FreshWalletId(s, p, op.walletId)
    ensures Alone(Do(s, Start(p, op)), p, env, t)
    ensures Rest(s.db, Started(op, s.clock), env, t) == Whole(s.db, op, env, t)
  {
    hide SysOk, Holdings, Grows, Started, Rest, Draws, StillFree, FreshWalletId, EnvOk, Whole;
    StepKeeps(s, Start(p, op));
    StartedAlike(s.db, op, env, t);
    StartDraws(s, op, env);
    if op.OpenAccount? {
      StaysFresh(s, p, op);
    }
  }

  lemma StartDraws(s: System, op: Op, env: Env)
    requires env.serial == s.nextSerial && env.now == s.clock
    ensures var pr := Started(op, s.clock);
            && pr.op == op && StillFree(s.db, pr)
            && forall u: System :: u.nextSerial == s.nextSerial && u.clock == s.clock ==> Draws(u, pr, env)
  {
    hide Precheck;
  }

  lemma StaysFresh(s: System, p: ProcId, op: Op)
    requires Enabled(s, Start(p, op)) && op.OpenAccount? && FreshWalletId(s, p, op.walletId)
    ensures FreshWalletId(Do(s, Start(p, op)), p, op.walletId)
  {
    hide Started;
  }

  lemma StartedAlike(db: Db, op: Op, env: Env, t: Time)
    ensures Rest(db, Started(op, env.now), env, t) == Whole(db, op, env, t)
  {
    hide Validate, ValidateDelivery, SubmitWithinTx, ApplyEffect, SettleIn, ApplyOpened;
  }

  /** Whatever the operation, whatever state a run has reached in which nobody holds anything, and whatever its
      surroundings: a process started there, with no error of the store, runs its statements to an end, and its answer
      and the tables are those of the whole operation. */
  lemma WholeOperationsRunAlone(s: System, p: ProcId, op: Op, env: Env, t: Time) returns (trace: seq<System>)
    requires SysOk(s) && Enabled(s, Start(p, op)) && Quiet(s, p)
    requires env.serial == s.nextSerial && env.now == s.clock && EnvOk(env) && t != 0
    requires op.OpenAccount? ==> FreshWalletId(s, p, op.walletId)
    ensures trace != [] && trace[0] == Do(s, Start(p, op)) && RunsAlone(trace, p, env, t)
    ensures var last := trace[|trace| - 1];
            && p in last.procs && last.procs[p].phase.Finished?
            && End(last.procs[p].phase.answer, last.db) == Whole(s.db, op, env, t)
  {
    hide Alone, RunsAlone, Rest, SysOk, Quiet, Whole, FreshWalletId;
    StartsAlone(s, p, op, env, t);
    trace := RunsToTheEnd(Do(s, Start(p, op)), p, env, t);
  }
}
