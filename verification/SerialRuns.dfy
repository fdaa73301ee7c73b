/** The serial run of the log follows every run of the interleaved system. */
module SerialRuns {
  import opened Results
  import opened Wager
  import opened Wallets
  import opened AppErrors
  import opened Commands
  import opened Resolution
  import opened Tables
  import opened Settlement
  import opened Operations
  import opened Invariants
  import opened EffectSafety
  import opened SettlementSafety
  import opened StatementRuns
  import opened OperationSafety
  import opened OpeningSafety
  import opened Interleaving
  import opened Noninterference
  import opened Commitment
  import opened SystemSafety
  import opened SerialDecision
  import opened Serializability
  import LocalSteps

  // ----- What the serial run reads -----

  lemma SubmissionReadsThere(s: Db, t: WagerTransaction, env: Env)
    requires Inv(s) && Settleable(s, t, env) && t.state == Pending
    ensures var mine := Apply(s, InsertRow(t));
            var ref := LoadReference(mine, t);
            ref.Ok? && ReadThere(s, t, ref.value, ClaimRead(mine, ref))
  {
    hide Inv, IndexOk;
    IndexesOf(s);
    var key := (t.providerId, t.referenceExternalId);
    IndexedRow(s, s.byExternal, ExternalOf, key);
    if key == ExternalOf(t) {
      assert Rehydrate(Row(t, 0, 0, 0)) == Ok(t);
    }
  }

  lemma RecoveryReadsThere(s: Db, t: WagerTransaction)
    requires Inv(s) && t.id in s.rows && s.rows[t.id].txn == t && t.origin == External
    ensures var ref := LoadReference(s, t);
            ref.Ok? && ReadThere(s, t, ref.value, ClaimRead(s, ref))
  {
    hide Inv, IndexOk;
    IndexesOf(s);
    var key := (t.providerId, t.referenceExternalId);
    IndexedRow(s, s.byExternal, ExternalOf, key);
    StoredKeyIsIndexed(s, t.id);
  }

  /** One step of the serial run that follows a commit: still alike, still good, and no other identity used up. */
  ghost predicate Follows(c: Db, s: Db, after: Db, serial: nat) {
    Inv(after) && Alike(c, after) && forall n :: SerialFresh(s, n) && n != serial ==> SerialFresh(after, n)
  }

  function Everything(db: Db, t: WagerTransaction): Footprint {
    NOTHING_HELD.(wallets := {t.walletId}, rows := {t.id}, keys := {KeyOf(t)}, externals := {ExternalOf(t)})
  }

  /** A decision of the serial run lands in its tables. */
  lemma LandsThere(s: Db, wall: Wallet, t: WagerTransaction, attempts: nat, ref: Option<WagerTransaction>,
                   claimRead: bool, env: Env, settled: Settled)
    requires SettleReady(s, wall, t, ref, claimRead, env)
             && Settle(wall, t, attempts, Ok(ref), claimRead, env) == Ok(settled)
    ensures Inv(ApplyEffect(s, settled.effect)) && Grows(s, ApplyEffect(s, settled.effect))
    ensures forall n :: SerialFresh(s, n) && n != env.serial ==> SerialFresh(ApplyEffect(s, settled.effect), n)
  {
    ReadyParts(s, wall, t, ref, claimRead, env);
    hide SettleReady, Inv, EffectOk, ShapeOk, Settle, SerialFresh, ApplyEffect, Grows, Within;
    SettleIsSafe(s, wall, t, attempts, ref, claimRead, env);
    SettledEffectPreserves(s, wall, t, attempts, ref, claimRead, env);
    SettleIsShaped(wall, t, attempts, Ok(ref), claimRead, env);
    ShapeParts(wall, t, env, settled);
    EffectLands(s, settled.effect, env.serial, Everything(s, settled.effect.row.txn));
    forall n | SerialFresh(s, n) && n != env.serial ensures SerialFresh(ApplyEffect(s, settled.effect), n) {
      EffectUses(s, settled.effect, env.serial, n);
    }
  }

  lemma ReadyParts(s: Db, wall: Wallet, t: WagerTransaction, ref: Option<WagerTransaction>, claimRead: bool, env: Env)
    requires SettleReady(s, wall, t, ref, claimRead, env)
    ensures Inv(s) && (t.id in s.rows || t.id == env.serial)
  {
  }

  lemma ShapeParts(wall: Wallet, t: WagerTransaction, env: Env, settled: Settled)
    requires ShapeOk(wall, t, env, settled)
    ensures settled.effect.row.txn.id == t.id
            && (settled.effect.transfer.Some? ==> settled.effect.transfer.value.entry.id == env.serial)
  {
  }

  /** The tables the serial run reads: its own, or those with the submission's uncommitted row. */
  ghost predicate ReadsThere(s: Db, view: Db, w: Work) {
    var ref := LoadReference(view, w.txn);
    && ref.Ok? && ReadThere(s, w.txn, ref.value, ClaimRead(view, ref))
    && SettleReady(s, w.wall, w.txn, ref.value, ClaimRead(view, ref), w.env)
  }

  ghost predicate DecidedHere(c: Db, w: Work, ref: Option<WagerTransaction>, claimRead: bool, settled: Settled) {
    && Decidable(w.wall, w.txn, w.env) && ReferenceKnown(c, w.txn, Ok(ref), claimRead)
    && (ExternalOf(w.txn) in c.byExternal ==> c.byExternal[ExternalOf(w.txn)] == w.txn.id)
    && Settle(w.wall, w.txn, w.attempts, Ok(ref), claimRead, w.env) == Ok(settled)
  }

  lemma SerialSettles(c: Db, s: Db, view: Db, w: Work, ref: Option<WagerTransaction>, claimRead: bool, settled: Settled)
    requires Alike(c, s) && ReadsThere(s, view, w) && DecidedHere(c, w, ref, claimRead, settled)
    ensures SettleIn(view, w.wall, w.txn, w.attempts, w.env).Settles?
    ensures Follows(ApplyEffect(c, settled.effect), s, After(s, SettleIn(view, w.wall, w.txn, w.attempts, w.env)),
                    w.env.serial)
  {
    hide Inv, Alike, SerialFresh, ReferenceKnown, Settle, ApplyEffect, SettleReady, ReadThere, EndsApart, Hopeless,
         Grows, LoadReference, ClaimRead, Decidable, ExternalOf;
    var refS := LoadReference(view, w.txn);
    var claimS := ClaimRead(view, refS);
    SettlesAlike(c, s, w.wall, w.txn, w.attempts, ref, claimRead, refS.value, claimS, w.env, settled);
    var there := Settle(w.wall, w.txn, w.attempts, Ok(refS.value), claimS, w.env).value;
    LandsThere(s, w.wall, w.txn, w.attempts, refS.value, claimS, w.env, there);
    if there == settled {
      SameEffectAlike(c, s, settled.effect);
    } else {
      ApartEffectsAlike(c, s, w.txn, settled.effect, there.effect);
    }
  }

  // ----- Submissions -----

  lemma SubmissionIsThereToo(c: Db, s: Db, op: Op, w: Work)
    requires Alike(c, s) && InPlace(c, op, w) && op.Submission?
    ensures LookupWallet(s, op.cmd.walletId) == Ok(Some(w.wall)) && op.cmd.walletId in s.wallets
            && s.wallets[op.cmd.walletId] == w.wall
    ensures NewTransaction(LookupWallet(s, op.cmd.walletId), op.cmd, w.env) == Ok(w.txn)
    ensures (op.cmd.providerId, op.cmd.idempotencyKey) !in s.byKey
    ensures (op.cmd.providerId, op.cmd.externalId) !in s.byExternal
    ensures KeyOf(w.txn) !in c.byKey && ExternalOf(w.txn) !in c.byExternal && EnvOk(w.env) && w.attempts == 0
    ensures w.txn.state == Pending && w.txn.id == w.env.serial
  {
    hide RowsAlike, RehydrateWallet;
    NewTransactionIsOfCommand(w, op.cmd);
    LocalSteps.NewTransactionFacts(Ok(Some(w.wall)), op.cmd, w.env);
  }

  lemma SerialSubmission(c: Db, s: Db, op: Op, w: Work, ref: Result<Option<WagerTransaction>, AppError>,
                         claimRead: bool, settled: Settled)
    requires Inv(c) && Inv(s) && Alike(c, s) && SerialFresh(c, w.env.serial) && SerialFresh(s, w.env.serial)
    requires OpOk(op) && op.Submission? && InPlace(c, op, w) && ReferenceKnown(c, w.txn, ref, claimRead)
    requires Settle(w.wall, w.txn, w.attempts, ref, claimRead, w.env) == Ok(settled)
    ensures SubmitWithinTx(s, op.cmd, w.env).Settles?
    ensures Follows(ApplyEffect(c, settled.effect), s, After(s, SubmitWithinTx(s, op.cmd, w.env)), w.env.serial)
  {
    LocalSteps.ValidatedCommand(op);
    SubmissionIsThereToo(c, s, op, w);
    WorkIsDecidable(c, op, w, ref, claimRead);
    KnownIsOk(c, w.txn, ref, claimRead);
    hide Inv, Alike, OpOk, InPlace, SerialFresh, ReferenceKnown, Settle, ApplyEffect, SubmitWithinTx, SubmitFresh,
         NewTransaction, Validate, LookupWallet, SettleReady, ReadThere, LoadReference, ClaimRead, Apply, Decidable,
         SettleIn, Follows;
    SubmitWithinTxUnfolds(s, op.cmd, w.env);
    SubmitFreshIsSettle(s, op.cmd, w.env);
    FreshReadsThere(s, op.cmd, w);
    SerialSettles(c, s, Apply(s, InsertRow(w.txn)), w, ref.value, claimRead, settled);
  }

  lemma FreshReadsThere(s: Db, cmd: SubmitWagerCommand, w: Work)
    requires Inv(s) && EnvOk(w.env) && SerialFresh(s, w.env.serial) && Validate(cmd).Ok?
    requires (cmd.providerId, cmd.idempotencyKey) !in s.byKey && (cmd.providerId, cmd.externalId) !in s.byExternal
    requires NewTransaction(LookupWallet(s, cmd.walletId), cmd, w.env) == Ok(w.txn) && w.txn.state == Pending
    requires cmd.walletId in s.wallets && s.wallets[cmd.walletId] == w.wall
    ensures ReadsThere(s, Apply(s, InsertRow(w.txn)), w)
  {
    hide Inv, SerialFresh, NewTransaction, Validate, LookupWallet, SettleReady, ReadThere, LoadReference, ClaimRead,
         Apply;
    FreshSubmissionIsReady(s, cmd, w.env);
    var ref := LoadReference(Apply(s, InsertRow(w.txn)), w.txn);
    SettleReadyIsSettleable(s, w.wall, w.txn, ref.value, ClaimRead(Apply(s, InsertRow(w.txn)), ref), w.env);
    SubmissionReadsThere(s, w.txn, w.env);
  }

  lemma SettleReadyIsSettleable(s: Db, wall: Wallet, t: WagerTransaction, ref: Option<WagerTransaction>,
                                claimRead: bool, env: Env)
    requires SettleReady(s, wall, t, ref, claimRead, env)
    ensures Settleable(s, t, env)
  {
  }

  lemma WorkIsDecidable(db: Db, op: Op, w: Work, ref: Result<Option<WagerTransaction>, AppError>, claimRead: bool)
    requires Inv(db) && InPlace(db, op, w) && ReferenceKnown(db, w.txn, ref, claimRead) && SerialFresh(db, w.env.serial)
    ensures Decidable(w.wall, w.txn, w.env)
  {
    hide Inv, Settleable, SerialFresh, RehydrateWallet, NewTransaction, ReferenceKnown, Decidable;
    SettleableIsDecidable(db, w.wall, w.txn, w.env);
  }

  // ----- Recovery passes -----

  lemma RecoveryHere(c: Db, op: Op, w: Work)
    requires InPlace(c, op, w) && op.Recovery? && Inv(c)
    ensures op.id == w.txn.id && op.id in c.rows && c.rows[op.id].txn == w.txn && c.rows[op.id].attempts == w.attempts
            && op.id != 0
    ensures w.txn.state == PendingReference && w.txn.origin == External
    ensures w.txn.walletId in c.wallets && c.wallets[w.txn.walletId] == w.wall && RehydrateWallet(w.wall).Ok?
    ensures EnvOk(w.env)
    ensures KeyOf(w.txn) in c.byKey && c.byKey[KeyOf(w.txn)] == w.txn.id
    ensures ExternalOf(w.txn) in c.byExternal && c.byExternal[ExternalOf(w.txn)] == w.txn.id
  {
    hide Inv, RehydrateWallet;
    StoredKeyIsIndexed(c, w.txn.id);
    StoredRowRehydrates(c, w.txn.id);
  }

  lemma ResolveUnfolds(s: Db, id: TransactionId, env: Env)
    requires Inv(s) && id in s.rows && id != 0
    ensures s.rows[id].txn.state.IsTerminal() ==> Resolve(s, id, env).Answered?
    ensures var t := s.rows[id].txn;
            t.state == PendingReference && t.walletId in s.wallets && RehydrateWallet(s.wallets[t.walletId]).Ok? ==>
              Resolve(s, id, env) == SettleIn(s, s.wallets[t.walletId], t, s.rows[id].attempts, env)
  {
    hide Inv, RehydrateWallet;
    StoredRowRehydrates(s, id);
  }

  /** A pass over a row the serial run has already rejected moves no money here either. */
  lemma DoomedPassIsIdle(c: Db, s: Db, t: WagerTransaction, ref: Option<WagerTransaction>, claimRead: bool)
    requires Alike(c, s) && ReferenceKnown(c, t, Ok(ref), claimRead) && Submittable(t) && t.id != 0
             && t.state == PendingReference
    requires Hopeless(s.rows, s.byExternal, t)
    ensures PlanOperation(t, ref, claimRead).Ok?
    ensures PlanOperation(t, ref, claimRead).value.pending
            || PlanOperation(t, ref, claimRead).value.failure != NoFailure
  {
    var claimExists := NeedsClaimRead(t, ref) && claimRead;
    if ref.Some? && ref.value.id != t.id {
      AlikeRows(c, s, ref.value.id);
      assert ref.value.walletId != t.walletId || ref.value.state != Processed;
    }
    assert ref.Some? ==> !Supports(t, ref.value, claimExists);
    MoneyMovesExactlyWhen(t, ref, claimExists);
  }

  lemma DoomIsHopeless(c: Db, s: Db, id: TransactionId)
    requires Alike(c, s) && id in c.rows && c.rows[id] != s.rows[id] && c.rows[id].txn.state == PendingReference
    ensures s.rows[id].txn.state == Rejected && Hopeless(s.rows, s.byExternal, c.rows[id].txn)
  {
  }

  lemma SerialRecovery(c: Db, s: Db, op: Op, w: Work, ref: Result<Option<WagerTransaction>, AppError>, claimRead: bool,
                       settled: Settled)
    requires Inv(c) && Inv(s) && Alike(c, s) && SerialFresh(c, w.env.serial) && SerialFresh(s, w.env.serial)
    requires op.Recovery? && InPlace(c, op, w) && ReferenceKnown(c, w.txn, ref, claimRead)
    requires Settle(w.wall, w.txn, w.attempts, ref, claimRead, w.env) == Ok(settled)
    ensures Follows(ApplyEffect(c, settled.effect), s, After(s, Resolve(s, op.id, w.env)), w.env.serial)
  {
    hide Inv, Alike, InPlace, SerialFresh, ReferenceKnown, Settle, ApplyEffect, Resolve, LookupWallet, LoadReference,
         ClaimRead, Decidable, RehydrateWallet, Follows, SettleIn, ReadsThere, Hopeless, KeyOf, ExternalOf, DecidedHere;
    RecoveryHere(c, op, w);
    AlikeIndexes(c, s);
    WorkIsDecidable(c, op, w, ref, claimRead);
    KnownIsOk(c, w.txn, ref, claimRead);
    assert DecidedHere(c, w, ref.value, claimRead, settled) by { DecidedFromParts(c, w, ref, claimRead, settled); }
    ResolveUnfolds(s, op.id, w.env);
    if c.rows[op.id] == s.rows[op.id] {
      WaitingReadsThere(s, w);
      SerialSettles(c, s, s, w, ref.value, claimRead, settled);
    } else {
      DoomIsHopeless(c, s, op.id);
      DoomedRecovery(c, s, w, ref.value, claimRead, settled);
      FollowsItself(ApplyEffect(c, settled.effect), s, w.env.serial);
    }
  }

  lemma DecidedFromParts(c: Db, w: Work, ref: Result<Option<WagerTransaction>, AppError>, claimRead: bool,
                         settled: Settled)
    requires Decidable(w.wall, w.txn, w.env) && ReferenceKnown(c, w.txn, ref, claimRead)
    requires ExternalOf(w.txn) in c.byExternal ==> c.byExternal[ExternalOf(w.txn)] == w.txn.id
    requires Settle(w.wall, w.txn, w.attempts, ref, claimRead, w.env) == Ok(settled)
    ensures ref.Ok? && DecidedHere(c, w, ref.value, claimRead, settled)
  {
    hide Decidable, Settle, ReferenceRead, StillAbsent;
  }

  lemma FollowsItself(c: Db, s: Db, serial: nat)
    requires Inv(s) && Alike(c, s)
    ensures Follows(c, s, s, serial)
  {
  }

  lemma WaitingReadsThere(s: Db, w: Work)
    requires Inv(s) && EnvOk(w.env) && SerialFresh(s, w.env.serial)
    requires w.txn.id in s.rows && s.rows[w.txn.id].txn == w.txn && w.txn.state == PendingReference
             && w.txn.origin == External
    requires w.txn.walletId in s.wallets && s.wallets[w.txn.walletId] == w.wall
    ensures ReadsThere(s, s, w)
  {
    hide Inv, SerialFresh, SettleReady, ReadThere, LoadReference, ClaimRead;
    WaitingRowIsReady(s, w.txn.id, w.env);
    RecoveryReadsThere(s, w.txn);
  }

  lemma DoomedRecovery(c: Db, s: Db, w: Work, ref: Option<WagerTransaction>, claimRead: bool, settled: Settled)
    requires Alike(c, s) && w.txn.id in c.rows && c.rows[w.txn.id].txn == w.txn && c.rows[w.txn.id] != s.rows[w.txn.id]
    requires w.txn.state == PendingReference && Hopeless(s.rows, s.byExternal, w.txn)
    requires KeyOf(w.txn) in c.byKey && c.byKey[KeyOf(w.txn)] == w.txn.id
    requires ExternalOf(w.txn) in c.byExternal && c.byExternal[ExternalOf(w.txn)] == w.txn.id
    requires DecidedHere(c, w, ref, claimRead, settled)
    ensures Alike(ApplyEffect(c, settled.effect), s)
  {
    DecidableIsSubmittable(w.wall, w.txn, w.env);
    hide Alike, ReferenceKnown, Settle, ApplyEffect, Decidable, Hopeless, PlanOperation, SameCommand, Submittable,
         KeyOf, ExternalOf;
    DoomedPassIsIdle(c, s, w.txn, ref, claimRead);
    IdlePlanEnds(w.wall, w.txn, w.attempts, ref, claimRead, w.env, settled);
    DoomedPassAlike(c, s, w.txn, settled.effect);
  }

  // ----- Any commit -----

  lemma FollowsDelivery(c: Db, s: Db, o: InboxOutcome, d: InboxDelivery, env: Env, completedAt: Time)
    requires o.Handled? && o.outcome.Settles? && Follows(c, s, After(s, o.outcome), env.serial)
    requires Inv(AfterInbox(s, o, d, completedAt))
    ensures Follows(CompletedInbox(c, d, completedAt), s, AfterInbox(s, o, d, completedAt), env.serial)
  {
    hide Inv, Alike, SerialFresh, CompletedInbox;
    var mid := After(s, o.outcome);
    DeliveredAlike(c, mid, d, completedAt);
    forall n | SerialFresh(s, n) && n != env.serial ensures SerialFresh(AfterInbox(s, o, d, completedAt), n) {
      SerialsIgnoreInbox(mid, n, d, completedAt);
    }
  }

  lemma InboxUnfolds(s: Db, op: Op, env: Env)
    requires op.Submission? && op.delivery.Some? && OpOk(op) && InboxFree(s, op)
    ensures SubmitFromInbox(s, op.cmd, op.delivery.value, env) == Handled(SubmitWithinTx(s, op.cmd, env))
  {
    LocalSteps.ValidatedCommand(op);
    hide OpOk, Validate, SubmitWithinTx;
  }

  lemma SubmitUnfolds(s: Db, op: Op, env: Env)
    requires op.Submission? && OpOk(op)
    ensures Submit(s, op.cmd, env) == SubmitWithinTx(s, op.cmd, env)
  {
    LocalSteps.ValidatedCommand(op);
    hide OpOk, Validate, SubmitWithinTx;
  }

  lemma WritingFollows(c: Db, s: Db, pr: Proc, spare: nat)
    requires Inv(c) && Inv(s) && Alike(c, s) && ProcOk(c, pr) && pr.phase.Writing? && pr.todo == []
    requires SerialFresh(c, pr.phase.work.env.serial) && SerialFresh(s, pr.phase.work.env.serial)
    ensures Follows(ApplyAll(c, pr.done), s, Replayed(s, CommitEntry(pr, spare)), pr.phase.work.env.serial)
  {
    hide Inv, Alike, InPlace, ReferenceKnown, SerialFresh, Settle, ApplyEffect, ApplyAll, Follows, OpOk, Wrote,
         InboxFree, SubmitWithinTx, Resolve;
    WritingCommits(c, pr);
    var w := pr.phase.work;
    InPlaceInbox(c, pr.op, w);
    LocalSteps.EnvOfWork(c, pr);
    if pr.op.Recovery? {
      SerialRecovery(c, s, pr.op, w, pr.phase.ref, pr.phase.claimRead, pr.phase.settled);
    } else {
      SerialSubmission(c, s, pr.op, w, pr.phase.ref, pr.phase.claimRead, pr.phase.settled);
      SubmitUnfolds(s, pr.op, w.env);
      if pr.op.delivery.Some? {
        WritingDelivery(c, s, pr);
      }
    }
  }

  lemma WrittenInstant(db: Db, pr: Proc)
    requires ProcOk(db, pr) && pr.phase.Writing?
    ensures pr.phase.completedAt != 0 && OpOk(pr.op)
  {
    hide OpOk, InPlace, ReferenceKnown, Settle, Statements;
  }

  lemma DeliveredCommand(op: Op)
    requires OpOk(op) && op.Submission? && op.delivery.Some?
    ensures op.delivery.value.digest.command == op.cmd
  {
  }

  lemma WritingDelivery(c: Db, s: Db, pr: Proc)
    requires Inv(s) && Alike(c, s) && ProcOk(c, pr) && pr.phase.Writing? && pr.op.Submission? && pr.op.delivery.Some?
    requires SerialFresh(s, pr.phase.work.env.serial) && EnvOk(pr.phase.work.env) && InboxFree(c, pr.op)
    requires SubmitWithinTx(s, pr.op.cmd, pr.phase.work.env).Settles?
    requires Follows(ApplyEffect(c, pr.phase.settled.effect), s,
                     After(s, SubmitWithinTx(s, pr.op.cmd, pr.phase.work.env)), pr.phase.work.env.serial)
    ensures var env, d, t := pr.phase.work.env, pr.op.delivery.value, pr.phase.completedAt;
            Follows(CompletedInbox(ApplyEffect(c, pr.phase.settled.effect), d, t), s,
                    AfterInbox(s, SubmitFromInbox(s, pr.op.cmd, d, env), d, t), env.serial)
  {
    hide Inv, Alike, SerialFresh, ApplyEffect, Follows, OpOk, SubmitWithinTx, SubmitFromInbox, AfterInbox,
         CompletedInbox, ProcOk;
    var env, d, t := pr.phase.work.env, pr.op.delivery.value, pr.phase.completedAt;
    WrittenInstant(c, pr);
    AlikeIndexes(c, s);
    InboxUnfolds(s, pr.op, env);
    DeliveredCommand(pr.op);
    SubmitFromInboxKeeps(s, d, env, t);
    FollowsDelivery(ApplyEffect(c, pr.phase.settled.effect), s, SubmitFromInbox(s, pr.op.cmd, d, env), d, env, t);
  }

  /** A submission that found its row finds it in the serial run too. */
  lemma AnsweredThere(c: Db, s: Db, cmd: SubmitWagerCommand, result: WagerResult, env: Env)
    requires Inv(s) && Alike(c, s) && AnsweredBy(c, cmd, result)
    ensures SubmitWithinTx(s, cmd, env).Answered?
  {
    hide Inv, RowsAlike, Doomed, SubmitFresh, DigestOf, IndexOk, SubmitWithinTx;
    var k := (cmd.providerId, cmd.idempotencyKey);
    var id := c.byKey[k];
    AlikeRows(c, s, id);
    SameCommandSameIdentity(c.rows[id].txn, s.rows[id].txn);
    SubmitWithinTxUnfolds(s, cmd, env);
  }

  lemma CompletingFollows(c: Db, s: Db, pr: Proc, spare: nat)
    requires Inv(c) && Inv(s) && Alike(c, s) && ProcOk(c, pr) && pr.phase.Completing? && pr.todo == []
    requires SerialFresh(s, spare) && spare != 0
    ensures Follows(ApplyAll(c, pr.done), s, Replayed(s, CommitEntry(pr, spare)), spare)
  {
    hide Inv, Alike, SerialFresh, ApplyAll, OpOk, InboxFree, SubmitWithinTx, SubmitFromInbox, AnsweredBy,
         CompletedInbox, InboxPrefix, CompletionOf;
    CompletingCommits(c, pr);
    AlikeIndexes(c, s);
    var env := Env(spare, 1, "-", 0);
    var d, t := pr.op.delivery.value, pr.phase.completedAt;
    AnsweredThere(c, s, pr.op.cmd, pr.phase.result, env);
    assert InboxFree(s, pr.op) by { InboxFreeThere(c, s, pr.op); }
    InboxUnfolds(s, pr.op, env);
    DeliveredCommand(pr.op);
    SubmitFromInboxKeeps(s, d, env, t);
    DeliveredAlike(c, s, d, t);
    forall n | SerialFresh(s, n) && n != spare ensures SerialFresh(CompletedInbox(s, d, t), n) {
      SerialsIgnoreInbox(s, n, d, t);
    }
  }

  lemma InboxFreeThere(c: Db, s: Db, op: Op)
    requires InboxFree(c, op) && c.inbox == s.inbox
    ensures InboxFree(s, op)
  {
  }

  lemma OpensThere(s: Db, pr: Proc, o: Opened, env: Env)
    requires OpOk(pr.op) && AccountWriting(s, pr, o, env)
    ensures OpenWallet(s, pr.op.open, pr.op.walletId, env) == Ok(o)
  {
    if o.opening.Some? {
      OpeningSucceeds(o.wallet, env);
    }
  }

  lemma AccountWritingThere(c: Db, s: Db, pr: Proc, o: Opened, env: Env)
    requires Alike(c, s) && AccountWriting(c, pr, o, env)
    ensures AccountWriting(s, pr, o, env)
  {
    hide RowsAlike, WalletOk, OpenedEffect, OpenStatements;
    AlikeIndexes(c, s);
  }

  lemma AccountFollows(c: Db, s: Db, pr: Proc, spare: nat)
    requires Inv(c) && Inv(s) && Alike(c, s) && ProcOk(c, pr) && pr.phase.WritingAccount? && pr.todo == []
    requires SerialFresh(c, pr.phase.env.serial) && SerialFresh(s, pr.phase.env.serial)
    ensures Follows(ApplyAll(c, pr.done), s, Replayed(s, CommitEntry(pr, spare)), pr.phase.env.serial)
  {
    hide Inv, Alike, SerialFresh, ApplyAll, OpOk, AccountReady, ApplyOpened, OpenWallet, OpenStatements;
    AccountCommits(c, pr);
    var o, env := pr.phase.account, pr.phase.env;
    AccountWritingThere(c, s, pr, o, env);
    OpensThere(s, pr, o, env);
    AccountsAlike(c, s, o, env);
    AccountKeeps(s, o, env);
    forall n | SerialFresh(s, n) && n != env.serial ensures SerialFresh(ApplyOpened(s, o), n) {
      AccountUses(s, o, env, n);
    }
  }

  function CommitSerial(pr: Proc, spare: nat): nat {
    if SerialOf(pr) == 0 then spare else SerialOf(pr)
  }

  lemma CommitFollows(c: Db, s: Db, pr: Proc, spare: nat)
    requires Inv(c) && Inv(s) && Alike(c, s) && ProcOk(c, pr) && ReadyToCommit(pr) && spare != 0
    requires SerialOf(pr) != 0 ==> SerialFresh(c, SerialOf(pr)) && SerialFresh(s, SerialOf(pr))
    requires SerialFresh(s, spare)
    ensures Follows(ApplyAll(c, pr.done), s, Replayed(s, CommitEntry(pr, spare)), CommitSerial(pr, spare))
  {
    hide Inv, Alike, SerialFresh, ApplyAll, ProcOk, Follows, Replayed, CommitEntry;
    if pr.phase.Writing? {
      LocalSteps.EnvOfWork(c, pr);
      WritingFollows(c, s, pr, spare);
    } else if pr.phase.Completing? {
      CompletingFollows(c, s, pr, spare);
    } else {
      EnvOfAccount(c, pr);
      AccountFollows(c, s, pr, spare);
    }
  }

  // ----- The simulation -----

  ghost predicate SerialOk(s: System, serial: Db) {
    && Inv(serial) && Alike(s.db, serial) && FutureIsFresh(serial, s.nextSerial)
    && forall p | p in s.procs && SerialOf(s.procs[p]) != 0 :: SerialFresh(serial, SerialOf(s.procs[p]))
  }

  lemma SerialOfAppend(log: seq<Entry>, e: Entry)
    ensures Serial(log + [e]) == Replayed(Serial(log), e)
  {
    assert (log + [e])[..|log + [e]| - 1] == log;
  }

  lemma LocalFollows(s: System, p: ProcId, a: Action, serial: Db)
    requires SysOk(s) && SerialOk(s, serial) && LocalEnabled(s, p, a)
    ensures SerialOk(DoLocal(s, p, a), serial)
  {
    hide Inv, Alike, SysOk, SerialFresh, AfterAction, SerialOf, Available, FreshWalletId;
    SerialAfterAction(s, s.procs[p], a);
  }

  lemma StartFollows(s: System, p: ProcId, op: Op, serial: Db)
    requires SerialOk(s, serial) && Enabled(s, Start(p, op))
    ensures SerialOk(Do(s, Start(p, op)), serial)
  {
    hide Inv, Alike, SerialFresh, Started, SerialOf;
    IdleHoldsNothing(op, s.clock);
  }

  lemma CommitStepFollows(s: System, p: ProcId, replyLost: bool, serial: Db)
    requires SysOk(s) && SerialOk(s, serial) && p in s.procs && ReadyToCommit(s.procs[p])
    ensures SerialOk(Commit(s, p, replyLost), Replayed(serial, CommitEntry(s.procs[p], s.nextSerial)))
  {
    hide Inv, Alike, SerialFresh, ProcOk, ReadyToCommit, ApplyAll, Replayed, CommitEntry, SerialOf, Exclusive,
         CommitAnswer;
    var pr := s.procs[p];
    assert SerialFresh(serial, s.nextSerial);
    CommitFollows(s.db, serial, pr, s.nextSerial);
    FinishedHoldsNothing(pr, if replyLost then Failure(Transient) else CommitAnswer(pr));
  }

  lemma LeaseStepFollows(s: System, picked: seq<TransactionId>, lease: nat, serial: Db)
    requires SysOk(s) && SerialOk(s, serial) && LeaseEnabled(s, picked)
    ensures SerialOk(Do(s, LeaseStep(picked, lease)), LeaseReferences(serial, picked, s.clock, lease))
  {
    hide Inv, Alike, SerialFresh, ProcOk, SysOk, SerialOf, LeaseReferences, LeaseEnabled, Grows, Within, PickedRows;
    LeasesAlike(s.db, serial, picked, s.clock, lease);
    LeaseKeeps(serial, picked, s.clock, lease);
    PickedHolds(picked);
    LeaseLands(serial, picked, s.clock, lease, PickedRows(picked));
  }

  lemma PickedHolds(picked: seq<TransactionId>)
    ensures forall i | 0 <= i < |picked| :: picked[i] in PickedRows(picked).rows
  {
  }

  lemma StepFollows(s: System, step: Step)
    requires SysOk(s) && SerialOk(s, Serial(s.log)) && Enabled(s, step)
    ensures SerialOk(Do(s, step), Serial(Do(s, step).log))
  {
    hide SysOk, SerialOk, LocalEnabled, LeaseEnabled, ReadyToCommit, Serial, CommitEntry, LeaseReferences;
    match step
    case Start(p, op) => StartFollows(s, p, op, Serial(s.log));
    case Local(p, a) => LocalFollows(s, p, a, Serial(s.log));
    case CommitStep(p, replyLost) =>
      CommitStepFollows(s, p, replyLost, Serial(s.log));
      SerialOfAppend(s.log, CommitEntry(s.procs[p], s.nextSerial));
    case StopStep(p) => StopFollows(s, p, Serial(s.log));
    case LeaseStep(picked, lease) =>
      LeaseStepFollows(s, picked, lease, Serial(s.log));
      SerialOfAppend(s.log, LeaseEntry(picked, s.clock, lease));
    case TickStep(now) => TickFollows(s, now, Serial(s.log));
  }

  lemma StopFollows(s: System, p: ProcId, serial: Db)
    requires SerialOk(s, serial)
    ensures SerialOk(s.(procs := s.procs - {p}), serial)
  {
    hide Inv, Alike, SerialFresh, SerialOf;
  }

  lemma TickFollows(s: System, now: Time, serial: Db)
    requires SerialOk(s, serial)
    ensures SerialOk(s.(clock := now), serial)
  {
    hide Inv, Alike, SerialFresh, SerialOf;
  }

  lemma InitFollows(s: System)
    requires Init(s)
    ensures SerialOk(s, Serial(s.log))
  {
    EmptyIsGood();
  }

  lemma {:induction false} RunsFollow(trace: seq<System>, i: nat)
    requires Run(trace) && i < |trace|
    ensures SerialOk(trace[i], Serial(trace[i].log))
  {
    hide SysOk, SerialOk, Enabled, Do, Init, Serial;
    if i == 0 {
      InitFollows(trace[0]);
    } else {
      RunsFollow(trace, i - 1);
      RunsAreSafe(trace, i - 1);
      assert Next(trace[i - 1], trace[i - 1 + 1]);
      var step :| Enabled(trace[i - 1], step) && trace[i] == Do(trace[i - 1], step);
      StepFollows(trace[i - 1], step);
    }
  }

  /** The main theorem. In every interleaving of submissions, resolutions, openings and leases, with stops and errors at
      any step, the balances, the ledger, the claims, the keys and the deliveries are exactly those of running the
      committed operations whole in commit order. A row differs only if the serial run has rejected it over a reference
      that is stored and is on another wallet or was itself rejected; here it still waits for that reference, or was
      rejected in another pass. */
  lemma InterleavingsAreSerializable(trace: seq<System>, i: nat)
    requires Run(trace) && i < |trace|
    ensures var here, there := trace[i].db, Serial(trace[i].log);
            && here.wallets == there.wallets && here.ledger == there.ledger && here.claims == there.claims
            && here.owners == there.owners && here.byKey == there.byKey && here.byExternal == there.byExternal
            && here.inbox == there.inbox && here.rows.Keys == there.rows.Keys
            && forall id | id in here.rows && here.rows[id] != there.rows[id] ::
                 && SameCommand(here.rows[id].txn, there.rows[id].txn) && NeedsReference(here.rows[id].txn)
                 && there.rows[id].txn.state == Rejected && here.rows[id].txn.state in {PendingReference, Rejected}
                 && Hopeless(there.rows, there.byExternal, here.rows[id].txn)
  {
    hide Inv, SerialFresh, Run, Serial, SerialOk, SameCommand, Hopeless, SysOk;
    RunsFollow(trace, i);
    SerialOkIsAlike(trace[i], Serial(trace[i].log));
    DoomedRows(trace[i].db, Serial(trace[i].log));
  }

  lemma DoomedRows(here: Db, there: Db)
    requires Alike(here, there)
    ensures forall id | id in here.rows && here.rows[id] != there.rows[id] ::
              && SameCommand(here.rows[id].txn, there.rows[id].txn) && NeedsReference(here.rows[id].txn)
              && there.rows[id].txn.state == Rejected && here.rows[id].txn.state in {PendingReference, Rejected}
              && Hopeless(there.rows, there.byExternal, here.rows[id].txn)
  {
    hide SameCommand;
  }

  lemma SerialOkIsAlike(s: System, serial: Db)
    requires SerialOk(s, serial)
    ensures Alike(s.db, serial) && Inv(serial)
  {
  }
}
