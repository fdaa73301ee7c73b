/** Exactly which runs leave the same tables as their serial run, rows and events included. */
module SerialExactness {
  import opened Results
  import opened Wager
  import opened Wallets
  import opened Commands
  import opened Resolution
  import opened Tables
  import opened Settlement
  import opened Operations
  import opened Invariants
  import opened SettlementSafety
  import opened StatementRuns
  import opened OperationSafety
  import opened Interleaving
  import opened Noninterference
  import opened Commitment
  import opened SystemSafety
  import opened SerialDecision
  import opened Serializability
  import opened SerialRuns
  import LocalSteps

  // ----- One decision -----

  /** Two effects of one operation that leave different rows. */
  predicate RowsDiffer(a: Effect, b: Effect) {
    a.row.txn.id == b.row.txn.id && a.row != b.row
  }

  lemma RefusalKeepsItsCode(wall: Wallet, t: WagerTransaction, attempts: nat, ref: Option<WagerTransaction>,
                            claimRead: bool, env: Env)
    requires Decidable(wall, t, env) && PlanOperation(t, ref, claimRead).Ok?
    requires var plan := PlanOperation(t, ref, claimRead).value;
             !plan.pending && plan.failure != NoFailure && plan.failure != PermanentInfrastructure
    ensures var r := Settle(wall, t, attempts, Ok(ref), claimRead, env);
            && r.Ok? && r.value.effect.row.txn.id == t.id && r.value.effect.row.txn.state == Rejected
            && r.value.effect.row.txn.failureCode == PlanOperation(t, ref, claimRead).value.failure
  {
    hide Settle, PlanOperation, Quiet;
    var plan := PlanOperation(t, ref, claimRead).value;
    SettleUnfolds(wall, t, attempts, ref, claimRead, env);
    RejectIsQuiet(wall, t, plan.referenceId, plan.failure, env);
    RejectedCode(wall, t, plan.referenceId, plan.failure, env);
  }

  lemma RejectedCode(wall: Wallet, t: WagerTransaction, reference: TransactionId, code: FailureCode, env: Env)
    requires Reject(wall, t, reference, code, env).Ok?
    ensures var row := Reject(wall, t, reference, code, env).value.effect.row;
            row.txn.id == t.id && row.txn.state == Rejected && row.txn.failureCode == code
  {
  }

  /** A wait ends waiting, or rejected for a missing reference. */
  lemma WaitKeepsItsCode(wall: Wallet, t: WagerTransaction, attempts: nat, claimRead: bool, env: Env, s: Settled)
    requires PlanOperation(t, None, claimRead) == Ok(PENDING) && (t.state == Pending || t.state == PendingReference)
    requires Settle(wall, t, attempts, Ok(None), claimRead, env) == Ok(s)
    ensures s.effect.row.txn.id == t.id
    ensures s.effect.row.txn.state == PendingReference
            || (s.effect.row.txn.state == Rejected && s.effect.row.txn.failureCode == ReferenceNotFound)
  {
    hide Settle, PlanOperation, Reject;
    SettleUnfolds(wall, t, attempts, None, claimRead, env);
    if t.state == PendingReference && env.now >= t.referenceDeadline {
      RejectedCode(wall, t, 0, ReferenceNotFound, env);
    }
  }

  /** Settled again on the tables it commits to, an operation has the same effect if and only if it was not
      overtaken. */
  lemma SettlesTheSame(c: Db, view: Db, w: Work, ref: Option<WagerTransaction>, claimRead: bool, settled: Settled)
    requires ReadsThere(c, view, w) && DecidedHere(c, w, ref, claimRead, settled)
    ensures SettleIn(view, w.wall, w.txn, w.attempts, w.env).Settles?
    ensures !Overtaken(c, w.txn, ref) ==> SettleIn(view, w.wall, w.txn, w.attempts, w.env) == Settles(settled)
    ensures Overtaken(c, w.txn, ref) ==>
              RowsDiffer(settled.effect, SettleIn(view, w.wall, w.txn, w.attempts, w.env).settled.effect)
  {
    hide Inv, ReferenceKnown, Settle, SettleReady, ReadThere, LoadReference, ClaimRead, Decidable, ExternalOf,
         PlanOperation, Overtaken;
    var refS := LoadReference(view, w.txn);
    var claimS := ClaimRead(view, refS);
    DecidableIsSubmittable(w.wall, w.txn, w.env);
    DecidesTheSameUnlessOvertaken(c, w.txn, ref, claimRead, refS.value, claimS);
    if Overtaken(c, w.txn, ref) {
      assert ref.None? by { OvertakenReadNothing(c, w.txn, ref); }
      RefusalKeepsItsCode(w.wall, w.txn, w.attempts, refS.value, claimS, w.env);
      WaitKeepsItsCode(w.wall, w.txn, w.attempts, claimRead, w.env, settled);
    } else {
      PlansDecide(w.wall, w.txn, w.attempts, ref, claimRead, refS.value, claimS, w.env);
    }
  }

  lemma OvertakenReadNothing(c: Db, t: WagerTransaction, ref: Option<WagerTransaction>)
    requires Overtaken(c, t, ref)
    ensures ref.None? && NeedsReference(t) && (t.providerId, t.referenceExternalId) in c.byExternal
  {
  }

  // ----- One commit -----

  /** The whole operation of a transaction in progress, on the tables it is about to commit to, is its decision once
      more. */
  lemma SubmissionAgain(c: Db, op: Op, w: Work)
    requires Inv(c) && SerialFresh(c, w.env.serial) && OpOk(op) && op.Submission? && InPlace(c, op, w)
    ensures SubmitWithinTx(c, op.cmd, w.env) == SettleIn(Apply(c, InsertRow(w.txn)), w.wall, w.txn, w.attempts, w.env)
    ensures ReadsThere(c, Apply(c, InsertRow(w.txn)), w)
  {
    LocalSteps.ValidatedCommand(op);
    AlikeItself(c);
    SubmissionIsThereToo(c, c, op, w);
    hide Inv, OpOk, InPlace, SerialFresh, SubmitWithinTx, SubmitFresh, NewTransaction, Validate, LookupWallet, Apply,
         SettleIn, ReadsThere, Alike;
    SubmitWithinTxUnfolds(c, op.cmd, w.env);
    SubmitFreshIsSettle(c, op.cmd, w.env);
    FreshReadsThere(c, op.cmd, w);
  }

  lemma RecoveryAgain(c: Db, op: Op, w: Work)
    requires Inv(c) && SerialFresh(c, w.env.serial) && op.Recovery? && InPlace(c, op, w)
    ensures Resolve(c, op.id, w.env) == SettleIn(c, w.wall, w.txn, w.attempts, w.env)
    ensures ReadsThere(c, c, w)
  {
    hide Inv, InPlace, SerialFresh, Resolve, LookupWallet, RehydrateWallet, SettleIn, ReadsThere, KeyOf, ExternalOf;
    RecoveryHere(c, op, w);
    ResolveUnfolds(c, op.id, w.env);
    WaitingReadsThere(c, w);
  }

  lemma KeyIsOwn(c: Db, op: Op, w: Work)
    requires Inv(c) && InPlace(c, op, w)
    ensures ExternalOf(w.txn) in c.byExternal ==> c.byExternal[ExternalOf(w.txn)] == w.txn.id
  {
    hide Inv, RehydrateWallet, NewTransaction;
    if op.Recovery? {
      StoredKeyIsIndexed(c, w.txn.id);
    }
  }

  lemma RowsShow(c: Db, a: Effect, b: Effect)
    requires RowsDiffer(a, b)
    ensures ApplyEffect(c, a).rows != ApplyEffect(c, b).rows
  {
    hide ApplyEffect;
    AppliedParts(c, a);
    AppliedParts(c, b);
    assert ApplyEffect(c, a).rows[a.row.txn.id] == a.row && ApplyEffect(c, b).rows[a.row.txn.id] == b.row;
  }

  lemma InboxKeepsRows(a: Db, d: InboxDelivery, completedAt: Time)
    ensures CompletedInbox(a, d, completedAt).rows == a.rows
  {
  }

  predicate OvertakenProc(db: Db, pr: Proc) {
    pr.phase.Writing? && pr.phase.ref.Ok? && Overtaken(db, pr.phase.work.txn, pr.phase.ref.value)
  }

  /** Equal tables, unless overtaken: then even the rows differ. */
  predicate Compared(here: Db, there: Db, overtaken: bool) {
    if overtaken then here.rows != there.rows else here == there
  }

  lemma WritingExactly(c: Db, pr: Proc, spare: nat)
    requires Inv(c) && ProcOk(c, pr) && pr.phase.Writing? && pr.todo == [] && SerialFresh(c, pr.phase.work.env.serial)
    ensures Compared(ApplyAll(c, pr.done), Replayed(c, CommitEntry(pr, spare)), OvertakenProc(c, pr))
  {
    hide Inv, InPlace, ReferenceKnown, SerialFresh, Settle, ApplyEffect, ApplyAll, OpOk, Wrote, InboxFree,
         SubmitWithinTx, Resolve, SettleIn, ReadsThere, DecidedHere, Overtaken, ExternalOf, RowsDiffer, CompletedInbox,
         Apply, SubmitFromInbox, Landed;
    WritingCommits(c, pr);
    var w := pr.phase.work;
    InPlaceInbox(c, pr.op, w);
    WorkIsDecidable(c, pr.op, w, pr.phase.ref, pr.phase.claimRead);
    KeyIsOwn(c, pr.op, w);
    DecidedFromParts(c, w, pr.phase.ref, pr.phase.claimRead, pr.phase.settled);
    var ref := pr.phase.ref.value;
    if pr.op.Recovery? {
      RecoveryAgain(c, pr.op, w);
      SettlesTheSame(c, c, w, ref, pr.phase.claimRead, pr.phase.settled);
      OutcomeShows(c, SettleIn(c, w.wall, w.txn, w.attempts, w.env), pr.phase.settled);
    } else {
      var view := Apply(c, InsertRow(w.txn));
      SubmissionAgain(c, pr.op, w);
      SettlesTheSame(c, view, w, ref, pr.phase.claimRead, pr.phase.settled);
      OutcomeShows(c, SettleIn(view, w.wall, w.txn, w.attempts, w.env), pr.phase.settled);
      SubmitUnfolds(c, pr.op, w.env);
      if pr.op.delivery.Some? {
        InboxUnfolds(c, pr.op, w.env);
        InboxKeepsRows(ApplyEffect(c, pr.phase.settled.effect), pr.op.delivery.value, pr.phase.completedAt);
        InboxKeepsRows(After(c, SettleIn(view, w.wall, w.txn, w.attempts, w.env)), pr.op.delivery.value,
                       pr.phase.completedAt);
      }
    }
  }

  lemma OutcomeShows(c: Db, o: Outcome, settled: Settled)
    requires o.Settles? && (o == Settles(settled) || RowsDiffer(settled.effect, o.settled.effect))
    ensures o == Settles(settled) ==> ApplyEffect(c, settled.effect) == After(c, o)
    ensures RowsDiffer(settled.effect, o.settled.effect) ==> ApplyEffect(c, settled.effect).rows != After(c, o).rows
  {
    hide ApplyEffect;
    if RowsDiffer(settled.effect, o.settled.effect) {
      RowsShow(c, settled.effect, o.settled.effect);
    }
  }

  lemma CompletingExactly(c: Db, pr: Proc, spare: nat)
    requires Inv(c) && ProcOk(c, pr) && pr.phase.Completing? && pr.todo == []
    ensures ApplyAll(c, pr.done) == Replayed(c, CommitEntry(pr, spare))
  {
    hide Inv, Alike, ApplyAll, OpOk, InboxFree, SubmitWithinTx, SubmitFromInbox, AnsweredBy, CompletedInbox,
         InboxPrefix, CompletionOf, Landed;
    CompletingCommits(c, pr);
    AlikeItself(c);
    AnsweredThere(c, c, pr.op.cmd, pr.phase.result, Env(spare, 1, "-", 0));
    InboxUnfolds(c, pr.op, Env(spare, 1, "-", 0));
  }

  lemma AccountExactly(c: Db, pr: Proc, spare: nat)
    requires Inv(c) && ProcOk(c, pr) && pr.phase.WritingAccount? && pr.todo == [] && SerialFresh(c, pr.phase.env.serial)
    ensures ApplyAll(c, pr.done) == Replayed(c, CommitEntry(pr, spare))
  {
    hide Inv, SerialFresh, ApplyAll, OpOk, AccountReady, ApplyOpened, OpenWallet, OpenStatements, Landed;
    AccountCommits(c, pr);
    OpensThere(c, pr, pr.phase.account, pr.phase.env);
  }

  /** A commit does what its whole operation would do at that moment, exactly unless it was overtaken. */
  lemma CommitsAsReplayed(c: Db, pr: Proc, spare: nat)
    requires Inv(c) && ProcOk(c, pr) && ReadyToCommit(pr)
    requires SerialOf(pr) != 0 ==> SerialFresh(c, SerialOf(pr))
    ensures Compared(ApplyAll(c, pr.done), Replayed(c, CommitEntry(pr, spare)), OvertakenProc(c, pr))
  {
    hide Inv, SerialFresh, ApplyAll, ProcOk, Replayed, CommitEntry, Overtaken;
    if pr.phase.Writing? {
      LocalSteps.EnvOfWork(c, pr);
      WritingExactly(c, pr, spare);
    } else if pr.phase.Completing? {
      CompletingExactly(c, pr, spare);
    } else {
      EnvOfAccount(c, pr);
      AccountExactly(c, pr, spare);
    }
  }

  // ----- Runs -----

  predicate OvertakenCommit(s: System, step: Step) {
    step.CommitStep? && step.p in s.procs && OvertakenProc(s.db, s.procs[step.p])
  }

  lemma StepsAsReplayed(s: System, step: Step)
    requires SysOk(s) && Enabled(s, step) && s.db == Serial(s.log)
    ensures Compared(Do(s, step).db, Serial(Do(s, step).log), OvertakenCommit(s, step))
  {
    hide Inv, Serial, LocalEnabled, LeaseEnabled, ReadyToCommit, CommitEntry, LeaseReferences, ProcOk, ApplyAll,
         Replayed, OvertakenProc, Exclusive, SerialFresh, SerialOf, FutureIsFresh, CommitAnswer, AfterAction, Started;
    match step
    case CommitStep(p, _) =>
      CommitsAsReplayed(s.db, s.procs[p], s.nextSerial);
      SerialOfAppend(s.log, CommitEntry(s.procs[p], s.nextSerial));
    case LeaseStep(picked, lease) =>
      SerialOfAppend(s.log, LeaseEntry(picked, s.clock, lease));
      ReplayedLease(s.db, picked, s.clock, lease);
    case Start(_, _) =>
    case Local(_, _) =>
    case StopStep(_) =>
    case TickStep(_) =>
  }

  lemma ReplayedLease(db: Db, picked: seq<TransactionId>, now: Time, lease: nat)
    ensures Replayed(db, LeaseEntry(picked, now, lease)) == LeaseReferences(db, picked, now, lease)
  {
  }

  /** Step i of the run is the commit of an operation that read its reference as absent although a row under its
      identity, necessarily on another wallet, has been committed since. */
  ghost predicate OvertakenAt(trace: seq<System>, i: nat)
    requires i < |trace| - 1
  {
    exists step :: Enabled(trace[i], step) && trace[i + 1] == Do(trace[i], step) && OvertakenCommit(trace[i], step)
  }

  ghost predicate AsReplayed(s: System) {
    s.db == Serial(s.log)
  }

  ghost predicate RowsAsReplayed(s: System) {
    s.db.rows == Serial(s.log).rows
  }

  lemma AdvancesAsReplayed(trace: seq<System>, i: nat)
    requires Run(trace) && i < |trace| - 1 && AsReplayed(trace[i])
    ensures OvertakenAt(trace, i) ==> !RowsAsReplayed(trace[i + 1])
    ensures !OvertakenAt(trace, i) ==> AsReplayed(trace[i + 1])
  {
    hide SysOk, Enabled, Do, Serial, OvertakenCommit;
    RunsAreSafe(trace, i);
    assert Next(trace[i], trace[i + 1]);
    if OvertakenAt(trace, i) {
      var step :| Enabled(trace[i], step) && trace[i + 1] == Do(trace[i], step) && OvertakenCommit(trace[i], step);
      StepsAsReplayed(trace[i], step);
    } else {
      var step :| Enabled(trace[i], step) && trace[i + 1] == Do(trace[i], step);
      StepsAsReplayed(trace[i], step);
    }
  }

  lemma {:induction false} UnovertakenRuns(trace: seq<System>, i: nat)
    requires Run(trace) && i < |trace| && forall k | 0 <= k < i :: !OvertakenAt(trace, k)
    ensures AsReplayed(trace[i])
  {
    hide OvertakenAt;
    if i > 0 {
      UnovertakenRuns(trace, i - 1);
      AdvancesAsReplayed(trace, i - 1);
    } else {
      hide Run;
      StartsAsReplayed(trace);
    }
  }

  lemma StartsAsReplayed(trace: seq<System>)
    requires Run(trace)
    ensures AsReplayed(trace[0])
  {
  }

  /** The first overtaken commit of a run that has one. */
  lemma {:induction false} FirstOvertaken(trace: seq<System>, i: nat) returns (k: nat)
    requires i < |trace| - 1 && OvertakenAt(trace, i)
    ensures k <= i && OvertakenAt(trace, k) && forall j | 0 <= j < k :: !OvertakenAt(trace, j)
  {
    hide OvertakenAt;
    k := i;
    if j: nat :| j < i && OvertakenAt(trace, j) {
      k := FirstOvertaken(trace, j);
    }
  }

  /** The exact condition: the rows equal those of the serial run at every point of a run if and only if no operation
      was overtaken, and then so do all other tables, the events included. */
  lemma RowsAreSerialExactlyWhen(trace: seq<System>)
    requires Run(trace)
    ensures (forall i | 0 <= i < |trace| :: RowsAsReplayed(trace[i])) <==>
              (forall i | 0 <= i < |trace| - 1 :: !OvertakenAt(trace, i))
    ensures (forall i | 0 <= i < |trace| :: RowsAsReplayed(trace[i])) ==>
              (forall i | 0 <= i < |trace| :: AsReplayed(trace[i]))
  {
    hide Run, OvertakenAt, RowsAsReplayed;
    if i: nat :| i < |trace| - 1 && OvertakenAt(trace, i) {
      var k := FirstOvertaken(trace, i);
      UnovertakenRuns(trace, k);
      AdvancesAsReplayed(trace, k);
      assert !RowsAsReplayed(trace[k + 1]);
    } else {
      forall i | 0 <= i < |trace| ensures RowsAsReplayed(trace[i]) && AsReplayed(trace[i]) {
        UnovertakenRuns(trace, i);
        AllTables(trace[i]);
      }
    }
  }

  lemma AllTables(s: System)
    requires AsReplayed(s)
    ensures RowsAsReplayed(s)
  {
  }

  // ----- References that stay on their wallet -----

  /** The stored operation names a stored reference on another wallet. */
  predicate CrossesWallets(db: Db, id: TransactionId)
    requires id in db.rows
  {
    var t := db.rows[id].txn;
    var key := (t.providerId, t.referenceExternalId);
    NeedsReference(t) && key in db.byExternal && db.byExternal[key] in db.rows
      && db.rows[db.byExternal[key]].txn.walletId != t.walletId
  }

  lemma CommittedRow(db: Db, pr: Proc)
    requires Inv(db) && ProcOk(db, pr) && pr.phase.Writing? && pr.todo == []
    requires SerialFresh(db, pr.phase.work.env.serial)
    ensures var t, after := pr.phase.work.txn, ApplyAll(db, pr.done);
            Grows(db, after) && t.id in after.rows && SameCommand(t, after.rows[t.id].txn)
  {
    hide Inv, ProcOk, SerialFresh, ApplyAll, ApplyEffect, Grows, Within, AnswerOk, SameCommand;
    WritingCommits(db, pr);
    SettledShape(db, pr);
    ShapedRow(pr.phase.work, pr.phase.settled);
    AppliedParts(db, pr.phase.settled.effect);
  }

  lemma ShapedRow(w: Work, settled: Settled)
    requires ShapeOk(w.wall, w.txn, w.env, settled)
    ensures settled.effect.row.txn.id == w.txn.id && SameCommand(w.txn, settled.effect.row.txn)
  {
  }

  lemma OvertakenIsForeign(db: Db, pr: Proc)
    requires ProcOk(db, pr) && OvertakenProc(db, pr)
    ensures var t := pr.phase.work.txn;
            var key := (t.providerId, t.referenceExternalId);
            NeedsReference(t) && key in db.byExternal && db.byExternal[key] in db.rows
              && db.rows[db.byExternal[key]].txn.walletId != t.walletId
  {
    hide OpOk, InPlace, Settle, Statements, ReferenceRead;
  }

  lemma CrossingSurvives(a: Db, b: Db, t: WagerTransaction, id: TransactionId)
    requires Grows(a, b) && id in b.rows && SameCommand(t, b.rows[id].txn)
    requires var key := (t.providerId, t.referenceExternalId);
             NeedsReference(t) && key in a.byExternal && a.byExternal[key] in a.rows
               && a.rows[a.byExternal[key]].txn.walletId != t.walletId
    ensures CrossesWallets(b, id)
  {
    var other := a.byExternal[(t.providerId, t.referenceExternalId)];
    assert SameCommand(a.rows[other].txn, b.rows[other].txn);
  }

  lemma CommitOfOvertaken(s: System, step: Step)
    requires SysOk(s) && Enabled(s, step) && OvertakenCommit(s, step)
    ensures Inv(s.db) && ProcOk(s.db, s.procs[step.p]) && s.procs[step.p].phase.Writing? && s.procs[step.p].todo == []
    ensures SerialFresh(s.db, s.procs[step.p].phase.work.env.serial)
    ensures Do(s, step).db == ApplyAll(s.db, s.procs[step.p].done)
  {
    hide Inv, ProcOk, Exclusive, SerialFresh, Overtaken, ApplyAll, FutureIsFresh, CommitEntry, CommitAnswer;
    SafeProcess(s, step.p);
    LocalSteps.EnvOfWork(s.db, s.procs[step.p]);
  }

  lemma SafeProcess(s: System, p: ProcId)
    requires SysOk(s) && p in s.procs
    ensures ProcOk(s.db, s.procs[p])
  {
    hide Inv, ProcOk, Exclusive, SerialsOk;
  }

  /** An overtaken commit leaves a stored operation whose stored reference is on another wallet, for good. */
  lemma OvertakenCrosses(trace: seq<System>, i: nat, j: nat) returns (id: TransactionId)
    requires Run(trace) && i < j < |trace| && OvertakenAt(trace, i)
    ensures id in trace[j].db.rows && CrossesWallets(trace[j].db, id)
  {
    hide SysOk, Enabled, Do, OvertakenCommit, Inv, ProcOk, OvertakenProc, Grows, SerialFresh, CrossesWallets, Run,
         SameCommand, ApplyAll;
    var s := trace[i];
    var step :| Enabled(s, step) && trace[i + 1] == Do(s, step) && OvertakenCommit(s, step);
    RunsAreSafe(trace, i);
    OvertakenProcOf(s, step);
    CommitOfOvertaken(s, step);
    var pr := s.procs[step.p];
    OvertakenIsForeign(s.db, pr);
    CommittedRow(s.db, pr);
    id := pr.phase.work.txn.id;
    RunsOnlyGrow(trace, i + 1, j);
    GrowthComposes(s.db, trace[i + 1].db, trace[j].db);
    SameCommandGrows(trace[i + 1].db, trace[j].db, pr.phase.work.txn, id);
    CrossingSurvives(s.db, trace[j].db, pr.phase.work.txn, id);
  }

  lemma OvertakenProcOf(s: System, step: Step)
    requires OvertakenCommit(s, step)
    ensures step.CommitStep? && step.p in s.procs && OvertakenProc(s.db, s.procs[step.p])
  {
  }

  lemma SameCommandGrows(a: Db, b: Db, t: WagerTransaction, id: TransactionId)
    requires Grows(a, b) && id in a.rows && SameCommand(t, a.rows[id].txn)
    ensures id in b.rows && SameCommand(t, b.rows[id].txn)
  {
  }

  /** In particular: if no stored operation names a reference on another wallet, all tables of the run, rows and events
      included, are those of its serial run. */
  lemma WithinWalletsRunsAreSerial(trace: seq<System>, i: nat)
    requires Run(trace) && i < |trace|
    requires forall id | id in trace[i].db.rows :: !CrossesWallets(trace[i].db, id)
    ensures trace[i].db == Serial(trace[i].log)
  {
    hide Run, OvertakenAt, CrossesWallets;
    forall k | 0 <= k < i ensures !OvertakenAt(trace, k) {
      if OvertakenAt(trace, k) {
        var id := OvertakenCrosses(trace, k, i);
        assert false;
      }
    }
    UnovertakenRuns(trace, i);
  }
}
