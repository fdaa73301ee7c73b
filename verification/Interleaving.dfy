/** Many processes over one database, one statement per step, under Read Committed with row locks and unique indexes
    (internal/application/service.go, internal/adapters/postgres). */
module Interleaving {
  import opened Results
  import opened Wager
  import opened Wallets
  import opened AppErrors
  import opened Commands
  import opened Tables
  import opened Settlement
  import opened Operations
  import opened Invariants

  type ProcId = nat

  datatype Op =
    | Submission(cmd: SubmitWagerCommand, delivery: Option<InboxDelivery>)
    | Recovery(id: TransactionId)
    | OpenAccount(open: OpenWalletCommand, walletId: WalletId)

  /** What a transaction has fixed once it holds its wallet. */
  datatype Work = Work(wall: Wallet, txn: WagerTransaction, attempts: nat, env: Env)

  datatype Answer =
    | Success(result: WagerResult)
    | DuplicateDelivery
    | AccountOpened
    | Failure(error: AppError)
    | GaveUp

  datatype Phase =
    | BeginningInbox
    | LookingUpKey
    | LookingUpExternal
    | LockingWallet
    | Inserting(work: Work)
    | LockingRow
    | LockingRowWallet(row: Row)
    | ReadingReference(work: Work)
    | ReadingClaim(work: Work, ref: Result<Option<WagerTransaction>, AppError>)
    | Writing(work: Work, ref: Result<Option<WagerTransaction>, AppError>, claimRead: bool, settled: Settled,
              completedAt: Time)
    | Completing(result: WagerResult, completedAt: Time)
    | InsertingAccount(openedAt: Time)
    | WritingAccount(account: Opened, env: Env)
    | Finished(answer: Answer)

  /** One process: its operation, how often it has started over and why, and the writes of its current transaction,
      executed (done) and still to come (todo). */
  datatype Proc = Proc(
    op: Op,
    attempt: nat,
    deadlocks: nat,
    collided: bool,
    done: seq<Statement>,
    todo: seq<Statement>,
    phase: Phase)

  /** A committed operation with everything its surroundings supplied. */
  datatype Entry =
    | SubmitEntry(cmd: SubmitWagerCommand, delivery: Option<InboxDelivery>, env: Env, completedAt: Time)
    | ResolveEntry(id: TransactionId, env: Env)
    | OpenEntry(open: OpenWalletCommand, walletId: WalletId, env: Env)
    | LeaseEntry(picked: seq<TransactionId>, now: Time, lease: nat)

  /** db holds the committed rows. A steady clock never goes back; otherwise readings are arbitrary. */
  datatype System = System(
    db: Db,
    procs: map<ProcId, Proc>,
    nextSerial: nat,
    clock: Time,
    steady: bool,
    log: seq<Entry>)

  // ----- What a transaction holds until it ends -----

  datatype Footprint = Footprint(
    wallets: set<WalletId>,
    rows: set<TransactionId>,
    keys: set<ProviderKey>,
    externals: set<ProviderExternal>,
    inboxes: set<InboxKey>,
    owners: set<OwnerKey>)

  const NOTHING_HELD := Footprint({}, {}, {}, {}, {}, {})

  predicate Disjoint(a: Footprint, b: Footprint) {
    && a.wallets !! b.wallets && a.rows !! b.rows && a.keys !! b.keys && a.externals !! b.externals
    && a.inboxes !! b.inboxes && a.owners !! b.owners
  }

  /** The key of the delivery record the transaction has inserted. */
  function InboxHeld(op: Op): set<InboxKey> {
    if op.Submission? && op.delivery.Some? then {InboxKeyOf(op.delivery.value)} else {}
  }

  /** Once its row is in place a submission also holds the row and both its unique keys. */
  function WorkHeld(op: Op, work: Work): Footprint {
    if op.Submission?
    then Footprint({work.txn.walletId}, {work.txn.id}, {KeyOf(work.txn)}, {ExternalOf(work.txn)}, InboxHeld(op), {})
    else Footprint({work.txn.walletId}, {work.txn.id}, {}, {}, {}, {})
  }

  function Holdings(pr: Proc): Footprint {
    match pr.phase
    case BeginningInbox => NOTHING_HELD
    case LookingUpKey => NOTHING_HELD.(inboxes := InboxHeld(pr.op))
    case LookingUpExternal => NOTHING_HELD.(inboxes := InboxHeld(pr.op))
    case LockingWallet => NOTHING_HELD.(inboxes := InboxHeld(pr.op))
    case Inserting(work) => NOTHING_HELD.(wallets := {work.txn.walletId}, inboxes := InboxHeld(pr.op))
    case LockingRow => NOTHING_HELD
    case LockingRowWallet(row) => NOTHING_HELD.(rows := {row.txn.id})
    case ReadingReference(work) => WorkHeld(pr.op, work)
    case ReadingClaim(work, _) => WorkHeld(pr.op, work)
    case Writing(work, _, _, _, _) => WorkHeld(pr.op, work)
    case Completing(_, _) => NOTHING_HELD.(inboxes := InboxHeld(pr.op))
    case InsertingAccount(_) => NOTHING_HELD
    case WritingAccount(o, env) =>
      NOTHING_HELD.(wallets := {o.wallet.id}, rows := {env.serial}, owners := {OwnerOf(o.wallet)})
    case Finished(_) => NOTHING_HELD
  }

  // ----- The steps of one process, as functions of what it reads -----

  function Finish(pr: Proc, a: Answer): Proc {
    pr.(done := [], todo := [], phase := Finished(a))
  }

  function SubmissionPhase(delivery: Option<InboxDelivery>): Phase {
    if delivery.Some? then BeginningInbox else LookingUpKey
  }

  /** An opening reads its clock before its transaction begins, the others under the wallet's lock. */
  function FirstPhase(op: Op, now: Time): Phase {
    match op
    case Submission(_, delivery) => SubmissionPhase(delivery)
    case Recovery(_) => LockingRow
    case OpenAccount(_, _) => InsertingAccount(now)
  }

  /** The contract checks made before any transaction begins. */
  function Precheck(op: Op): Result<(), AppError> {
    match op
    case Submission(cmd, delivery) =>
      var _ :- Validate(cmd);
      if delivery.Some? then ValidateDelivery(delivery.value) else Ok(())
    case Recovery(id) => if id == 0 then Err(Contract(InvalidRequest)) else Ok(())
    case OpenAccount(open, _) => ValidateOpen(open)
  }

  function Started(op: Op, now: Time): Proc {
    var starting := Proc(op, 1, 0, false, [], [], FirstPhase(op, now));
    if Precheck(op).Ok? then starting else Finish(starting, Failure(Precheck(op).error))
  }

  /** A concurrent-write error: a submission starts a new transaction, at most three in all; others report it. */
  function StartOver(pr: Proc): Proc {
    if !pr.op.Submission? then Finish(pr, Failure(ConcurrentWrite))
    else if pr.attempt >= MAX_ATTEMPTS then Finish(pr, GaveUp)
    else pr.(attempt := pr.attempt + 1, done := [], todo := [], phase := SubmissionPhase(pr.op.delivery))
  }

  function AfterBeginInbox(db: Db, pr: Proc): Proc
    requires pr.op.Submission? && pr.op.delivery.Some?
  {
    var d := pr.op.delivery.value;
    var key := InboxKeyOf(d);
    if key in db.inbox then
      if db.inbox[key].digest == d.digest then Finish(pr, DuplicateDelivery)
      else Finish(pr, Failure(Conflict(InboxPayloadConflict)))
    else pr.(done := [BeginInbox(key, d.digest, d.receivedAt)], phase := LookingUpKey)
  }

  /** The end of a submission that found its row: the answer, after completing the delivery if there is one. */
  function FoundRow(pr: Proc, o: Outcome, completedAt: Time): Proc
    requires pr.op.Submission?
  {
    match o
    case Refused(e) => Finish(pr, Failure(e))
    case Settles(_) => pr
    case Answered(result) =>
      if pr.op.delivery.None? then Finish(pr, Success(result))
      else pr.(todo := [CompleteInbox(InboxKeyOf(pr.op.delivery.value), completedAt)],
               phase := Completing(result, completedAt))
  }

  function AfterLookupKey(db: Db, pr: Proc, completedAt: Time): Proc
    requires pr.op.Submission?
  {
    match LookupKey(db, (pr.op.cmd.providerId, pr.op.cmd.idempotencyKey))
    case Err(e) => Finish(pr, Failure(e))
    case Ok(Some(found)) => FoundRow(pr, ReplayOrConflict(found, pr.op.cmd), completedAt)
    case Ok(None) => pr.(phase := LookingUpExternal)
  }

  function AfterLookupExternal(db: Db, pr: Proc, completedAt: Time): Proc
    requires pr.op.Submission?
  {
    match LookupExternal(db, (pr.op.cmd.providerId, pr.op.cmd.externalId))
    case Err(e) => Finish(pr, Failure(e))
    case Ok(Some(found)) => FoundRow(pr, ExternalAnswer(found, pr.op.cmd), completedAt)
    case Ok(None) => pr.(phase := LockingWallet)
  }

  function AfterLockWallet(db: Db, pr: Proc, env: Env): Proc
    requires pr.op.Submission?
  {
    var wall := LookupWallet(db, pr.op.cmd.walletId);
    match NewTransaction(wall, pr.op.cmd, env)
    case Err(e) => Finish(pr, Failure(e))
    case Ok(txn) =>
      if wall.Ok? && wall.value.Some? then pr.(phase := Inserting(Work(wall.value.value, txn, 0, env)))
         else Finish(pr, Failure(NotFound))
  }

  /** The insert fails against a committed duplicate of either key. */
  function AfterInsert(db: Db, pr: Proc): Proc
    requires pr.phase.Inserting?
  {
    var txn := pr.phase.work.txn;
    if KeyOf(txn) in db.byKey || ExternalOf(txn) in db.byExternal then StartOver(pr.(collided := true))
    else pr.(done := pr.done + [InsertRow(txn)], phase := ReadingReference(pr.phase.work))
  }

  function AfterLockRow(db: Db, pr: Proc): Proc
    requires pr.op.Recovery?
  {
    var id := pr.op.id;
    if id !in db.rows then Finish(pr, Failure(NotFound))
    else match Rehydrate(db.rows[id])
      case Err(e) => Finish(pr, Failure(e))
      case Ok(txn) =>
        if txn.state.IsTerminal() then Finish(pr, Success(ResultOf(txn, false)))
        else if txn.state != PendingReference then Finish(pr, Failure(Contract(InvalidRequest)))
        else pr.(phase := LockingRowWallet(db.rows[id]))
  }

  function AfterLockRowWallet(db: Db, pr: Proc, env: Env): Proc
    requires pr.phase.LockingRowWallet?
  {
    var row := pr.phase.row;
    match LookupWallet(db, row.txn.walletId)
    case Err(e) => Finish(pr, Failure(e))
    case Ok(None) => Finish(pr, Failure(CorruptRecord))
    case Ok(Some(wall)) => pr.(phase := ReadingReference(Work(wall, row.txn, row.attempts, env)))
  }

  /** Reads see the committed rows and the transaction's own writes. */
  function View(db: Db, pr: Proc): Db {
    ApplyAll(db, pr.done)
  }

  function AfterReadReference(db: Db, pr: Proc): Proc
    requires pr.phase.ReadingReference?
  {
    pr.(phase := ReadingClaim(pr.phase.work, LoadReference(View(db, pr), pr.phase.work.txn)))
  }

  function CompletionOf(op: Op, completedAt: Time): seq<Statement> {
    if op.Submission? && op.delivery.Some? then [CompleteInbox(InboxKeyOf(op.delivery.value), completedAt)] else []
  }

  function AfterReadClaim(db: Db, pr: Proc, completedAt: Time): Proc
    requires pr.phase.ReadingClaim?
  {
    var w, ref := pr.phase.work, pr.phase.ref;
    var claimRead := ClaimRead(View(db, pr), ref);
    match Settle(w.wall, w.txn, w.attempts, ref, claimRead, w.env)
    case Err(e) => Finish(pr, Failure(e))
    case Ok(settled) =>
      pr.(todo := Statements(settled.effect) + CompletionOf(pr.op, completedAt),
          phase := Writing(w, ref, claimRead, settled, completedAt))
  }

  function OpenStatements(o: Opened): seq<Statement> {
    [InsertWallet(o.wallet)]
    + if o.opening.None? then []
      else
        var e := o.opening.value;
        [InsertRow(e.row.txn)] + (if e.transfer.Some? then [AppendLedger(e.transfer.value.entry)] else [])
          + EventStatements(e.events)
  }

  function AfterInsertAccount(db: Db, pr: Proc, env: Env): Proc
    requires pr.op.OpenAccount?
  {
    match OpenWallet(db, pr.op.open, pr.op.walletId, env)
    case Err(e) => Finish(pr, Failure(e))
    case Ok(o) => pr.(done := [], todo := OpenStatements(o), phase := WritingAccount(o, env))
  }

  function AfterWrite(pr: Proc): Proc
    requires pr.todo != []
  {
    pr.(done := pr.done + [pr.todo[0]], todo := pr.todo[1..])
  }

  predicate ReadyToCommit(pr: Proc) {
    (pr.phase.Writing? || pr.phase.Completing? || pr.phase.WritingAccount?) && pr.todo == []
  }

  function CommitAnswer(pr: Proc): Answer {
    match pr.phase
    case Writing(_, _, _, settled, _) => Success(settled.result)
    case Completing(result, _) => Success(result)
    case _ => AccountOpened
  }

  /** What the commit records: the operation with its surroundings. A submission that found its row has drawn no
      identity of its own; spare is one no transaction uses. */
  function CommitEntry(pr: Proc, spare: nat): Entry {
    var none := Env(spare, 1, "-", 0);
    match pr.op
    case Submission(cmd, delivery) =>
      (match pr.phase
       case Writing(work, _, _, _, completedAt) => SubmitEntry(cmd, delivery, work.env, completedAt)
       case Completing(_, completedAt) => SubmitEntry(cmd, delivery, none, completedAt)
       case _ => SubmitEntry(cmd, delivery, none, 1))
    case Recovery(id) => ResolveEntry(id, if pr.phase.Writing? then pr.phase.work.env else none)
    case OpenAccount(open, walletId) => OpenEntry(open, walletId, if pr.phase.WritingAccount? then pr.phase.env
                                                  else none)
  }

  // ----- The steps of the system -----

  /** One statement of one process, or an error in its place. */
  datatype Action =
    | BeginInboxStep
    | LookupKeyStep(completedAt: Time)
    | LookupExternalStep(completedAt: Time)
    | LockWalletStep(correlation: string, hash: nat)
    | InsertStep
    | LockRowStep
    | LockRowWalletStep(correlation: string, hash: nat)
    | ReadReferenceStep
    | ReadClaimStep(completedAt: Time)
    | InsertAccountStep(correlation: string, hash: nat)
    | WriteStep
    | DeadlockStep
    | StoreErrorStep

  datatype Step =
    | Start(p: ProcId, op: Op)
    | Local(p: ProcId, action: Action)
    | CommitStep(p: ProcId, replyLost: bool)
    | StopStep(p: ProcId)
    | LeaseStep(picked: seq<TransactionId>, lease: nat)
    | TickStep(now: Time)

  function NewEnv(s: System, correlation: string, hash: nat): Env {
    Env(s.nextSerial, s.clock, correlation, hash)
  }

  function AccountEnv(s: System, openedAt: Time, correlation: string, hash: nat): Env {
    Env(s.nextSerial, openedAt, correlation, hash)
  }

  /** The phase, and for new readings the surroundings, an action needs. */
  predicate PhaseFits(pr: Proc, a: Action) {
    match a
    case BeginInboxStep => pr.phase.BeginningInbox? && pr.op.Submission? && pr.op.delivery.Some?
    case LookupKeyStep(t) => pr.phase.LookingUpKey? && pr.op.Submission? && t != 0
    case LookupExternalStep(t) => pr.phase.LookingUpExternal? && pr.op.Submission? && t != 0
    case LockWalletStep(c, _) => pr.phase.LockingWallet? && pr.op.Submission? && c != ""
    case InsertStep => pr.phase.Inserting?
    case LockRowStep => pr.phase.LockingRow? && pr.op.Recovery?
    case LockRowWalletStep(c, _) => pr.phase.LockingRowWallet? && c != ""
    case ReadReferenceStep => pr.phase.ReadingReference?
    case ReadClaimStep(t) => pr.phase.ReadingClaim? && t != 0
    case InsertAccountStep(c, _) => pr.phase.InsertingAccount? && pr.op.OpenAccount? && c != ""
    case WriteStep => (pr.phase.Writing? || pr.phase.Completing? || pr.phase.WritingAccount?) && pr.todo != []
    case DeadlockStep => !pr.phase.Finished?
    case StoreErrorStep => !pr.phase.Finished?
  }

  /** The process an action leaves behind. */
  function AfterAction(s: System, pr: Proc, a: Action): Proc
    requires PhaseFits(pr, a)
  {
    match a
    case BeginInboxStep => AfterBeginInbox(s.db, pr)
    case LookupKeyStep(t) => AfterLookupKey(s.db, pr, t)
    case LookupExternalStep(t) => AfterLookupExternal(s.db, pr, t)
    case LockWalletStep(c, h) => AfterLockWallet(s.db, pr, NewEnv(s, c, h))
    case InsertStep => AfterInsert(s.db, pr)
    case LockRowStep => AfterLockRow(s.db, pr)
    case LockRowWalletStep(c, h) => AfterLockRowWallet(s.db, pr, NewEnv(s, c, h))
    case ReadReferenceStep => AfterReadReference(s.db, pr)
    case ReadClaimStep(t) => AfterReadClaim(s.db, pr, t)
    case InsertAccountStep(c, h) => AfterInsertAccount(s.db, pr, AccountEnv(s, pr.phase.openedAt, c, h))
    case WriteStep => AfterWrite(pr)
    case DeadlockStep => StartOver(pr.(deadlocks := pr.deadlocks + 1))
    case StoreErrorStep => Finish(pr, Failure(Transient))
  }

  /** Each transaction draws one fresh identity, from which its UUIDs are taken. */
  function SerialsDrawn(a: Action): nat {
    if a.LockWalletStep? || a.LockRowWalletStep? || a.InsertAccountStep? then 1 else 0
  }

  /** The identity a transaction in progress has drawn, or 0. */
  function SerialOf(pr: Proc): nat {
    match pr.phase
    case Inserting(w) => w.env.serial
    case ReadingReference(w) => w.env.serial
    case ReadingClaim(w, _) => w.env.serial
    case Writing(w, _, _, _, _) => w.env.serial
    case WritingAccount(_, env) => env.serial
    case _ => 0
  }

  /** A statement waits while another transaction holds what it would take. */
  predicate Available(s: System, p: ProcId, next: Proc) {
    forall q | q in s.procs && q != p :: Disjoint(Holdings(next), Holdings(s.procs[q]))
  }

  /** A wallet identity nobody has used or drawn. */
  predicate FreshWalletId(s: System, p: ProcId, id: WalletId) {
    && id != "" && id !in s.db.wallets
    && forall q | q in s.procs && q != p && s.procs[q].op.OpenAccount? :: s.procs[q].op.walletId != id
  }

  predicate LocalEnabled(s: System, p: ProcId, a: Action) {
    && p in s.procs && PhaseFits(s.procs[p], a)
    && Available(s, p, AfterAction(s, s.procs[p], a))
    && (a.InsertAccountStep? ==> FreshWalletId(s, p, s.procs[p].op.walletId))
  }

  predicate LeaseEnabled(s: System, picked: seq<TransactionId>) {
    && |picked| <= CLAIM_BATCH
    && (forall i | 0 <= i < |picked| ::
          && picked[i] in s.db.rows && DueReference(s.db.rows[picked[i]], s.clock)
          && forall q | q in s.procs :: picked[i] !in Holdings(s.procs[q]).rows)
  }

  predicate Enabled(s: System, step: Step) {
    match step
    case Start(p, op) =>
      p !in s.procs && (op.Submission? && op.delivery.Some? ==> op.delivery.value.digest.command == op.cmd)
    case Local(p, a) => LocalEnabled(s, p, a)
    case CommitStep(p, _) => p in s.procs && ReadyToCommit(s.procs[p])
    case StopStep(p) => p in s.procs
    case LeaseStep(picked, _) => LeaseEnabled(s, picked)
    case TickStep(now) => now != 0 && (s.steady ==> s.clock <= now)
  }

  function DoLocal(s: System, p: ProcId, a: Action): System
    requires p in s.procs && PhaseFits(s.procs[p], a)
  {
    s.(procs := s.procs[p := AfterAction(s, s.procs[p], a)], nextSerial := s.nextSerial + SerialsDrawn(a))
  }

  function Commit(s: System, p: ProcId, replyLost: bool): System
    requires p in s.procs
  {
    var pr := s.procs[p];
    s.(db := ApplyAll(s.db, pr.done),
       procs := s.procs[p := Finish(pr, if replyLost then Failure(Transient) else CommitAnswer(pr))],
       nextSerial := s.nextSerial + 1,
       log := s.log + [CommitEntry(pr, s.nextSerial)])
  }

  function Do(s: System, step: Step): System
    requires Enabled(s, step)
  {
    match step
    case Start(p, op) => s.(procs := s.procs[p := Started(op, s.clock)])
    case Local(p, a) => DoLocal(s, p, a)
    case CommitStep(p, replyLost) => Commit(s, p, replyLost)
    case StopStep(p) => s.(procs := s.procs - {p})
    case LeaseStep(picked, lease) =>
      s.(db := LeaseReferences(s.db, picked, s.clock, lease), log := s.log + [LeaseEntry(picked, s.clock, lease)])
    case TickStep(now) => s.(clock := now)
  }

  predicate Init(s: System) {
    s.db == EMPTY && s.procs == map[] && s.nextSerial == 1 && s.clock != 0 && s.log == []
  }

  ghost predicate Next(s: System, t: System) {
    exists step :: Enabled(s, step) && t == Do(s, step)
  }

  /** A run: any interleaving of any processes, with stops and errors at any step. */
  ghost predicate Run(trace: seq<System>) {
    && trace != [] && Init(trace[0])
    && forall i | 0 <= i < |trace| - 1 :: Next(trace[i], trace[i + 1])
  }

  // ----- The serial replay of the committed operations -----

  function Replayed(db: Db, e: Entry): Db {
    match e
    case SubmitEntry(cmd, None, env, _) => After(db, Submit(db, cmd, env))
    case SubmitEntry(cmd, Some(d), env, completedAt) => AfterInbox(db, SubmitFromInbox(db, cmd, d, env), d, completedAt)
    case ResolveEntry(id, env) => After(db, Resolve(db, id, env))
    case OpenEntry(open, walletId, env) =>
      var o := OpenWallet(db, open, walletId, env);
      if o.Ok? then ApplyOpened(db, o.value) else db
    case LeaseEntry(picked, now, lease) => LeaseReferences(db, picked, now, lease)
  }

  /** The committed operations run whole, one after the other, in commit order. */
  function Serial(log: seq<Entry>): Db {
    if log == [] then EMPTY else Replayed(Serial(log[..|log| - 1]), log[|log| - 1])
  }
}
