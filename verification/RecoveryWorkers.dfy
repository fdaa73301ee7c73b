/** Any number of recovery workers around the interleaved engine: each resolves a row once per claim it has made
    (internal/adapters/worker/reference.go:104-139), which bounds the passes over one row absolutely. */
module RecoveryWorkers {
  import opened Wager
  import opened Backoff
  import opened Tables
  import opened Settlement
  import opened Operations
  import opened Invariants
  import opened Interleaving
  import opened Noninterference
  import opened Commitment
  import opened SystemSafety
  import opened Readings
  import opened SteadyClock
  import opened ReferenceLifecycle
  import Delivery
  import LocalSteps

  const MAX_PASSES := 2883

  /** tickets are the claims handed to workers that have not been resolved yet. */
  datatype Crew = Crew(engine: System, tickets: multiset<TransactionId>)

  datatype CrewStep =
    | Claim(picked: seq<TransactionId>)
    | Resolve(p: ProcId, id: TransactionId)
    | GiveUp(id: TransactionId)
    | Engine(step: Step)

  /** Rows are claimed and resolved by workers only, and only what was claimed is resolved, once. A worker may stop
      first. */
  predicate CrewEnabled(c: Crew, step: CrewStep) {
    match step
    case Claim(picked) => Enabled(c.engine, LeaseStep(picked, CLAIM_LEASE))
    case Resolve(p, id) => id in c.tickets && Enabled(c.engine, Start(p, Recovery(id)))
    case GiveUp(id) => id in c.tickets
    case Engine(s) => Enabled(c.engine, s) && !s.LeaseStep? && !(s.Start? && s.op.Recovery?)
  }

  function DoCrew(c: Crew, step: CrewStep): Crew
    requires CrewEnabled(c, step)
  {
    match step
    case Claim(picked) =>
      Crew(Do(c.engine, LeaseStep(picked, CLAIM_LEASE)), c.tickets + multiset(set i | 0 <= i < |picked| :: picked[i]))
    case Resolve(p, id) => Crew(Do(c.engine, Start(p, Recovery(id))), c.tickets - multiset{id})
    case GiveUp(id) => c.(tickets := c.tickets - multiset{id})
    case Engine(s) => c.(engine := Do(c.engine, s))
  }

  ghost predicate CrewNext(c: Crew, d: Crew) {
    exists step :: CrewEnabled(c, step) && d == DoCrew(c, step)
  }

  ghost predicate CrewRun(trace: seq<Crew>) {
    && trace != [] && Init(trace[0].engine) && trace[0].tickets == multiset{}
    && forall i | 0 <= i < |trace| - 1 :: CrewNext(trace[i], trace[i + 1])
  }

  // ----- Claims are spaced -----

  /** The claims that have picked the row. */
  function Claims(log: seq<Entry>, id: TransactionId): nat {
    if log == [] then 0 else Claims(log[..|log| - 1], id) + if IsLease(log[|log| - 1], id) then 1 else 0
  }

  function AllPasses(log: seq<Entry>, id: TransactionId): nat {
    Passes(log, id, true) + Passes(log, id, false)
  }

  /** How much sooner than a lease's end the retries up to this one can come due, all together. */
  function Saved(attempts: nat): nat {
    if attempts == 0 then 0
    else Saved(attempts - 1) + if ExponentialDelay(attempts) < CLAIM_LEASE then CLAIM_LEASE - ExponentialDelay(attempts)
         else 0
  }

  /** The earliest instant after its creation at which a row can have been claimed so often. */
  function EarliestClaim(claims: nat, attempts: nat): int {
    if claims == 0 then 0 else SECOND + CLAIM_LEASE * (claims - 1) - Saved(attempts)
  }

  /** The last claim was no earlier than that, and neither the schedule nor the lease lets the next one come earlier. */
  predicate Spaced(row: Row, claims: nat) {
    && row.txn.updatedAt >= row.txn.createdAt + EarliestClaim(claims, row.attempts)
    && (row.nextAttemptAt >= row.txn.createdAt + EarliestClaim(claims + 1, row.attempts)
        || row.claimedUntil >= row.txn.createdAt + EarliestClaim(claims + 1, row.attempts))
  }

  lemma {:induction false} SavedIsSmall(attempts: nat)
    ensures Saved(attempts) <= 90 * SECOND
    ensures attempts >= 4 ==> Saved(attempts) == 90 * SECOND
  {
    if attempts <= 4 {
      FirstSavings();
    } else {
      SavedIsSmall(attempts - 1);
      DelaysRise(5, attempts);
      assert ExponentialDelay(5) == 32 * SECOND by { FirstSavings(); }
    }
  }

  lemma FirstSavings()
    ensures Saved(0) == 0 && Saved(1) == 28 * SECOND && Saved(2) == 54 * SECOND && Saved(3) == 76 * SECOND
    ensures Saved(4) == 90 * SECOND
    ensures ExponentialDelay(5) == 32 * SECOND
  {
    assert ExponentialDelay(1) == 2 * SECOND && ExponentialDelay(2) == 4 * SECOND;
    assert ExponentialDelay(3) == 8 * SECOND && ExponentialDelay(4) == 16 * SECOND;
  }

  lemma FirstIsSpaced(row: Row, hash: nat)
    requires row.attempts == 0 && row.txn.updatedAt == row.txn.createdAt
    requires row.nextAttemptAt == row.txn.createdAt + ReferenceDelay(0, hash)
    ensures Spaced(row, 0)
  {
    DelayAtLeast(0, hash);
  }

  lemma RescheduledIsSpaced(row: Row, next: Row, claims: nat, now: Time, hash: nat)
    requires Spaced(row, claims) && row.txn.createdAt <= row.txn.updatedAt <= now
    requires next == Row(row.txn.(updatedAt := now), now + ReferenceDelay(row.attempts + 1, hash), row.attempts + 1, 0)
    ensures Spaced(next, claims)
  {
    hide ReferenceDelay;
    DelayAtLeast(row.attempts + 1, hash);
    DelaysRise(0, row.attempts + 1);
  }

  lemma ClaimedIsSpaced(row: Row, next: Row, claims: nat, now: Time)
    requires Spaced(row, claims) && row.nextAttemptAt <= now && row.claimedUntil <= now
    requires next == row.(txn := row.txn.(updatedAt := now), claimedUntil := now + CLAIM_LEASE)
    ensures Spaced(next, claims + 1)
  {
    hide Saved;
  }

  /** Before the deadline a row can have been claimed only so often. */
  lemma ClaimsAreLimited(row: Row, claims: nat)
    requires Spaced(row, claims) && row.txn.updatedAt < row.txn.createdAt + REFERENCE_TTL
    ensures claims <= MAX_PASSES
  {
    hide Saved;
    SavedIsSmall(row.attempts);
  }

  /** So many claims can come before the deadline and one more cannot, so the spacing alone allows no lower bound. */
  lemma DeadlineFitsClaims(attempts: nat)
    requires attempts >= 4
    ensures EarliestClaim(MAX_PASSES, attempts) < REFERENCE_TTL <= EarliestClaim(MAX_PASSES + 1, attempts)
  {
    SavedIsSmall(attempts);
  }

  lemma ClaimsGrow(log: seq<Entry>, e: Entry, id: TransactionId)
    ensures Claims(log + [e], id) == Claims(log, id) + if IsLease(e, id) then 1 else 0
  {
    assert (log + [e])[..|log + [e]| - 1] == log;
  }

  lemma PassesGrow(log: seq<Entry>, e: Entry, id: TransactionId)
    ensures AllPasses(log + [e], id) == AllPasses(log, id) + if IsResolve(e, id) then 1 else 0
  {
    hide Leased, Passes;
    LogGrows(log, e, id);
  }

  // ----- What holds in every state -----

  /** A waiting row's claims are spaced and its passes limited; the pass that ended a row may be one more. */
  predicate RowLimited(row: Row, log: seq<Entry>, id: TransactionId) {
    && AllPasses(log, id) <= (if row.txn.state == PendingReference then MAX_PASSES else MAX_PASSES + 1)
    && (row.txn.state == PendingReference ==> Spaced(row, Claims(log, id)))
  }

  ghost predicate RowsLimited(rows: RowTable, log: seq<Entry>) {
    && (forall id | id in rows :: RowLimited(rows[id], log, id))
    && (forall id | id !in rows :: Claims(log, id) == 0 && AllPasses(log, id) == 0)
  }

  function Resolving(procs: map<ProcId, Proc>, id: TransactionId): set<ProcId> {
    set p | p in procs && procs[p].op == Recovery(id) && !procs[p].phase.Finished?
  }

  /** A row's committed passes, passes under way and claims still to be resolved never outnumber its claims. */
  predicate TicketOk(c: Crew, id: TransactionId) {
    AllPasses(c.engine.log, id) + |Resolving(c.engine.procs, id)| + c.tickets[id] <= Claims(c.engine.log, id)
  }

  ghost predicate CrewOk(c: Crew) {
    && SysOk(c.engine) && Timely(c.engine) && WaitsOk(c.engine)
    && (forall id: TransactionId :: TicketOk(c, id))
    && (c.engine.steady ==> RowsLimited(c.engine.db.rows, c.engine.log))
  }

  // ----- Tickets -----

  lemma FewerResolving(a: map<ProcId, Proc>, b: map<ProcId, Proc>, id: TransactionId)
    requires Resolving(b, id) <= Resolving(a, id)
    ensures |Resolving(b, id)| <= |Resolving(a, id)|
  {
    SubsetIsSmaller(Resolving(b, id), Resolving(a, id));
  }

  lemma SubsetIsSmaller(a: set<ProcId>, b: set<ProcId>)
    requires a <= b
    ensures |a| <= |b|
  {
    assert b == a + (b - a);
  }

  lemma LocalTickets(c: Crew, p: ProcId, a: Action, id: TransactionId)
    requires TicketOk(c, id) && LocalEnabled(c.engine, p, a)
    ensures TicketOk(c.(engine := DoLocal(c.engine, p, a)), id)
  {
    hide AfterAction, Available, FreshWalletId, Passes;
    Delivery.ActionKeepsOp(c.engine, c.engine.procs[p], a);
    UnendedActs(c.engine.procs[p], a);
    FewerResolving(c.engine.procs, DoLocal(c.engine, p, a).procs, id);
  }

  lemma UnendedActs(pr: Proc, a: Action)
    requires PhaseFits(pr, a)
    ensures !pr.phase.Finished?
  {
  }

  lemma CommitTickets(c: Crew, p: ProcId, replyLost: bool, id: TransactionId)
    requires SysOk(c.engine) && TicketOk(c, id) && p in c.engine.procs && ReadyToCommit(c.engine.procs[p])
    ensures TicketOk(c.(engine := Commit(c.engine, p, replyLost)), id)
  {
    hide SysOk, Passes, CommitEntry, ApplyAll, CommitAnswer, Claims, ReadyToCommit, AllPasses, IsLease, IsResolve;
    var pr := c.engine.procs[p];
    var e := CommitEntry(pr, c.engine.nextSerial);
    ClaimsGrow(c.engine.log, e, id);
    PassesGrow(c.engine.log, e, id);
    CommitIsNoClaim(pr, c.engine.nextSerial, id);
    var after := Commit(c.engine, p, replyLost).procs;
    if pr.op == Recovery(id) {
      assert Resolving(after, id) == Resolving(c.engine.procs, id) - {p};
      assert p in Resolving(c.engine.procs, id) by { CommittersAreUnended(pr); }
    } else {
      assert Resolving(after, id) == Resolving(c.engine.procs, id);
    }
  }

  lemma CommittersAreUnended(pr: Proc)
    requires ReadyToCommit(pr)
    ensures !pr.phase.Finished?
  {
  }

  lemma CommitIsNoClaim(pr: Proc, spare: nat, id: TransactionId)
    ensures !IsLease(CommitEntry(pr, spare), id) && (IsResolve(CommitEntry(pr, spare), id) <==> pr.op == Recovery(id))
  {
  }

  lemma StartTickets(c: Crew, p: ProcId, op: Op, tickets: multiset<TransactionId>, id: TransactionId)
    requires TicketOk(c, id) && Enabled(c.engine, Start(p, op))
    requires tickets[id] + (if op == Recovery(id) then 1 else 0) <= c.tickets[id]
    ensures TicketOk(Crew(Do(c.engine, Start(p, op)), tickets), id)
  {
    hide Passes, Precheck;
    var after := Do(c.engine, Start(p, op)).procs;
    Delivery.StartedKeepsOp(op, c.engine.clock);
    if op == Recovery(id) {
      SubsetIsSmaller(Resolving(after, id), Resolving(c.engine.procs, id) + {p});
    } else {
      assert Resolving(after, id) == Resolving(c.engine.procs, id);
    }
  }

  lemma EngineTickets(c: Crew, step: Step, id: TransactionId)
    requires SysOk(c.engine) && TicketOk(c, id) && CrewEnabled(c, Engine(step))
    ensures TicketOk(DoCrew(c, Engine(step)), id)
  {
    hide SysOk, LocalEnabled, ReadyToCommit, TicketOk, DoLocal, Commit, Started;
    match step
    case Start(p, op) => StartTickets(c, p, op, c.tickets, id);
    case Local(p, a) => LocalTickets(c, p, a, id);
    case CommitStep(p, replyLost) => CommitTickets(c, p, replyLost, id);
    case StopStep(p) => StopTickets(c, p, id);
    case TickStep(now) => TickTickets(c, now, id);
  }

  lemma StopTickets(c: Crew, p: ProcId, id: TransactionId)
    requires TicketOk(c, id) && p in c.engine.procs
    ensures TicketOk(c.(engine := c.engine.(procs := c.engine.procs - {p})), id)
  {
    FewerResolving(c.engine.procs, c.engine.procs - {p}, id);
  }

  lemma TickTickets(c: Crew, now: Time, id: TransactionId)
    requires TicketOk(c, id)
    ensures TicketOk(c.(engine := c.engine.(clock := now)), id)
  {
  }

  lemma ClaimTickets(c: Crew, picked: seq<TransactionId>, id: TransactionId)
    requires TicketOk(c, id) && CrewEnabled(c, Claim(picked))
    ensures TicketOk(DoCrew(c, Claim(picked)), id)
  {
    hide Passes, Claims, AllPasses, Resolving, LeaseReferences, LeaseEnabled;
    var e := LeaseEntry(picked, c.engine.clock, CLAIM_LEASE);
    ClaimsGrow(c.engine.log, e, id);
    PassesGrow(c.engine.log, e, id);
    var rows: set<TransactionId> := set i | 0 <= i < |picked| :: picked[i];
    assert multiset(rows)[id] == if id in picked then 1 else 0;
  }

  lemma CrewTickets(c: Crew, step: CrewStep, id: TransactionId)
    requires SysOk(c.engine) && TicketOk(c, id) && CrewEnabled(c, step)
    ensures TicketOk(DoCrew(c, step), id)
  {
    hide SysOk, Do, Enabled, Resolving, AllPasses, Claims;
    match step
    case Claim(picked) => ClaimTickets(c, picked, id);
    case Resolve(p, other) => StartTickets(c, p, Recovery(other), c.tickets - multiset{other}, id);
    case GiveUp(other) =>
    case Engine(s) => EngineTickets(c, s, id);
  }

  // ----- Rows -----

  lemma UnrelatedLimited(row: Row, log: seq<Entry>, e: Entry, id: TransactionId)
    requires !IsLease(e, id) && !IsResolve(e, id)
    ensures RowLimited(row, log + [e], id) == RowLimited(row, log, id)
    ensures Claims(log + [e], id) == Claims(log, id) && AllPasses(log + [e], id) == AllPasses(log, id)
  {
    hide Claims, AllPasses, Spaced;
    ClaimsGrow(log, e, id);
    PassesGrow(log, e, id);
  }

  lemma OthersLimited(rows: RowTable, log: seq<Entry>, e: Entry, held: set<TransactionId>)
    requires RowsLimited(rows, log) && forall id | id !in held :: !IsLease(e, id) && !IsResolve(e, id)
    ensures forall id | id in rows && id !in held :: RowLimited(rows[id], log + [e], id)
    ensures forall id | id !in rows && id !in held :: Claims(log + [e], id) == 0 && AllPasses(log + [e], id) == 0
  {
    hide Claims, AllPasses, IsLease, IsResolve, RowLimited;
    forall id | id !in held
      ensures (id in rows ==> RowLimited(rows[id], log + [e], id))
              && (id !in rows ==> Claims(log + [e], id) == 0 && AllPasses(log + [e], id) == 0)
    {
      if id in rows {
        UnrelatedLimited(rows[id], log, e, id);
      } else {
        ClaimsGrow(log, e, id);
        PassesGrow(log, e, id);
      }
    }
  }

  /** A pass that reschedules was claimed before the deadline, so its row has been claimed, and passed over, only so
      often. */
  lemma PassIsLimited(db: Db, log: seq<Entry>, pr: Proc, env: Env)
    requires Inv(db) && ProcOk(db, pr) && pr.phase.Writing? && pr.op.Recovery? && PassInstant(pr)
    requires pr.op.id in db.rows ==>
               RowLimited(db.rows[pr.op.id], log, pr.op.id)
                 && db.rows[pr.op.id].txn.createdAt <= db.rows[pr.op.id].txn.updatedAt
    requires AllPasses(log + [ResolveEntry(pr.op.id, env)], pr.op.id)
             <= Claims(log + [ResolveEntry(pr.op.id, env)], pr.op.id)
    ensures RowLimited(pr.phase.settled.effect.row, log + [ResolveEntry(pr.op.id, env)], pr.op.id)
  {
    hide Inv, ProcOk, Settle, Claims, AllPasses, Spaced, SameCommand;
    PassRow(db, pr);
    var w, id := pr.phase.work, pr.op.id;
    var row, next := db.rows[id], pr.phase.settled.effect.row;
    ClaimsGrow(log, ResolveEntry(id, env), id);
    PassesGrow(log, ResolveEntry(id, env), id);
    CycleEndsOrReschedules(w.wall, w.txn, w.attempts, pr.phase.ref, pr.phase.claimRead, w.env);
    if next.txn.state == PendingReference {
      RescheduledIsSpaced(row, next, Claims(log, id), w.env.now, w.env.hash);
      ClaimsAreLimited(next, Claims(log, id));
    }
  }

  lemma SubmissionIsLimited(db: Db, log: seq<Entry>, pr: Proc)
    requires ProcOk(db, pr) && pr.phase.Writing? && pr.op.Submission?
    requires Claims(log, pr.phase.work.txn.id) == 0 && AllPasses(log, pr.phase.work.txn.id) == 0
    ensures RowLimited(pr.phase.settled.effect.row, log, pr.phase.work.txn.id)
  {
    hide ProcOk, Settle, Claims, AllPasses, Spaced;
    SubmittedRow(db, pr);
    var w := pr.phase.work;
    SubmissionEndsOrWaits(w.wall, w.txn, pr.phase.ref, pr.phase.claimRead, w.env);
    if pr.phase.settled.effect.row.txn.state == PendingReference {
      FirstIsSpaced(pr.phase.settled.effect.row, w.env.hash);
    }
  }

  lemma StoredInstants(db: Db, id: TransactionId)
    requires Inv(db) && id in db.rows
    ensures db.rows[id].txn.createdAt <= db.rows[id].txn.updatedAt
  {
    hide Inv;
    StoredWaitingRow(db, id);
  }

  lemma WritingLimited(db: Db, log: seq<Entry>, pr: Proc, spare: nat)
    requires Inv(db) && ProcOk(db, pr) && pr.phase.Writing? && pr.todo == []
    requires SerialFresh(db, pr.phase.work.env.serial)
    requires RowsLimited(db.rows, log) && PassInstant(pr)
    requires var e := CommitEntry(pr, spare);
             pr.op.Recovery? ==> AllPasses(log + [e], pr.op.id) <= Claims(log + [e], pr.op.id)
    ensures RowsLimited(ApplyAll(db, pr.done).rows, log + [CommitEntry(pr, spare)])
  {
    hide Inv, ProcOk, SerialFresh, ApplyAll, RowLimited, Claims, AllPasses, IsLease;
    CommittedRow(db, pr);
    var id := pr.phase.work.txn.id;
    var e := CommitEntry(pr, spare);
    if pr.op.Recovery? {
      PassRow(db, pr);
      StoredInstants(db, id);
      PassIsLimited(db, log, pr, e.env);
      ResolveTouches(pr, spare);
      OthersLimited(db.rows, log, e, {id});
    } else {
      SubmittedRow(db, pr);
      SubmissionIsLimited(db, log, pr);
      SubmitTouches(pr, spare);
      OthersLimited(db.rows, log, e, {});
      UnrelatedLimited(pr.phase.settled.effect.row, log, e, id);
    }
  }

  lemma CommitLimited(db: Db, log: seq<Entry>, pr: Proc, spare: nat)
    requires Inv(db) && ProcOk(db, pr) && ReadyToCommit(pr) && (SerialOf(pr) != 0 ==> SerialFresh(db, SerialOf(pr)))
    requires RowsLimited(db.rows, log) && PassInstant(pr)
    requires var e := CommitEntry(pr, spare);
             pr.op.Recovery? ==> AllPasses(log + [e], pr.op.id) <= Claims(log + [e], pr.op.id)
    ensures RowsLimited(ApplyAll(db, pr.done).rows, log + [CommitEntry(pr, spare)])
  {
    hide Inv, ProcOk, SerialFresh, ApplyAll, RowLimited, Claims, AllPasses, IsLease, IsResolve, Landed, ApplyOpened,
         CommitEntry;
    if pr.phase.Writing? {
      LocalSteps.EnvOfWork(db, pr);
      WritingLimited(db, log, pr, spare);
    } else {
      NoRecovery(db, pr);
      SubmitTouches(pr, spare);
      OthersLimited(db.rows, log, CommitEntry(pr, spare), {});
      if pr.phase.Completing? {
        CompletingCommits(db, pr);
      } else {
        EnvOfAccount(db, pr);
        AccountCommits(db, pr);
        OpenedRow(pr.phase.account, pr.phase.env, db);
        EndedIsLimited(ApplyOpened(db, pr.phase.account).rows, log + [CommitEntry(pr, spare)], pr.phase.env.serial);
      }
    }
  }

  lemma EndedIsLimited(rows: RowTable, log: seq<Entry>, id: TransactionId)
    ensures id in rows && rows[id].txn.state == Processed && AllPasses(log, id) == 0 ==> RowLimited(rows[id], log, id)
  {
  }

  lemma ClaimLimited(s: System, picked: seq<TransactionId>)
    requires LeaseEnabled(s, picked) && RowsLimited(s.db.rows, s.log)
    ensures RowsLimited(LeaseReferences(s.db, picked, s.clock, CLAIM_LEASE).rows,
                        s.log + [LeaseEntry(picked, s.clock, CLAIM_LEASE)])
  {
    hide Claims, AllPasses, Spaced, LeaseReferences, Holdings;
    var e := LeaseEntry(picked, s.clock, CLAIM_LEASE);
    ClaimTouches(s.db, picked, s.clock, CLAIM_LEASE);
    var after := LeaseReferences(s.db, picked, s.clock, CLAIM_LEASE).rows;
    forall id
      ensures (id in after ==> RowLimited(after[id], s.log + [e], id))
              && (id !in after ==> Claims(s.log + [e], id) == 0 && AllPasses(s.log + [e], id) == 0)
    {
      ClaimsGrow(s.log, e, id);
      PassesGrow(s.log, e, id);
      if id in picked {
        assert DueReference(s.db.rows[id], s.clock);
        assert RowLimited(s.db.rows[id], s.log, id);
        ClaimedIsSpaced(s.db.rows[id], after[id], Claims(s.log, id), s.clock);
      }
    }
  }

  lemma EngineLimited(c: Crew, step: Step)
    requires CrewOk(c) && CrewEnabled(c, Engine(step)) && c.engine.steady
    requires forall id: TransactionId :: TicketOk(DoCrew(c, Engine(step)), id)
    ensures RowsLimited(Do(c.engine, step).db.rows, Do(c.engine, step).log)
  {
    hide SysOk, Timely, ProcOk, Inv, SerialFresh, SerialOf, LocalEnabled, ReadyToCommit, ApplyAll, RowsLimited,
         CommitEntry, CommitAnswer, PassInstant, RowsWait, RowInstants, AfterAction, Started, AllPasses, Claims,
         Resolving;
    if step.CommitStep? {
      var pr := c.engine.procs[step.p];
      SafeProc(c.engine, step.p);
      assert PassInstant(pr);
      if pr.op.Recovery? {
        assert TicketOk(DoCrew(c, Engine(step)), pr.op.id);
      }
      CommitLimited(c.engine.db, c.engine.log, pr, c.engine.nextSerial);
    }
  }

  /** Every step of a crew is a step of its engine, or none. */
  lemma CrewStepKeeps(c: Crew, step: CrewStep)
    requires CrewOk(c) && CrewEnabled(c, step)
    ensures CrewOk(DoCrew(c, step))
  {
    hide SysOk, Timely, WaitsOk, TicketOk, RowsLimited, Do, Enabled;
    forall id: TransactionId ensures TicketOk(DoCrew(c, step), id) {
      CrewTickets(c, step, id);
    }
    match step
    case Claim(picked) =>
      EngineKeeps(c.engine, LeaseStep(picked, CLAIM_LEASE));
      if c.engine.steady {
        ClaimStepLimited(c.engine, picked);
      }
    case Resolve(p, id) =>
      EngineKeeps(c.engine, Start(p, Recovery(id)));
      StartIsQuiet(c.engine, p, Recovery(id));
    case GiveUp(id) =>
    case Engine(s) =>
      EngineKeeps(c.engine, s);
      if c.engine.steady {
        EngineLimited(c, s);
      }
  }

  lemma EngineKeeps(s: System, step: Step)
    requires SysOk(s) && Timely(s) && WaitsOk(s) && Enabled(s, step)
    ensures var t := Do(s, step); SysOk(t) && Timely(t) && WaitsOk(t) && t.steady == s.steady
  {
    StepKeeps(s, step);
    StepTimes(s, step);
    StepWaits(s, step);
    hide SysOk, Timely, WaitsOk, Enabled, AfterAction, Started, ApplyAll, CommitEntry, LeaseReferences;
  }

  lemma ClaimStepLimited(s: System, picked: seq<TransactionId>)
    requires Enabled(s, LeaseStep(picked, CLAIM_LEASE)) && RowsLimited(s.db.rows, s.log)
    ensures var t := Do(s, LeaseStep(picked, CLAIM_LEASE)); RowsLimited(t.db.rows, t.log)
  {
    hide RowsLimited, LeaseReferences, LeaseEnabled;
    ClaimLimited(s, picked);
  }

  lemma StartIsQuiet(s: System, p: ProcId, op: Op)
    requires Enabled(s, Start(p, op))
    ensures Do(s, Start(p, op)).db == s.db && Do(s, Start(p, op)).log == s.log
  {
  }

  // ----- Runs -----

  lemma CrewStarts(c: Crew)
    requires Init(c.engine) && c.tickets == multiset{}
    ensures CrewOk(c)
  {
    InitIsOk(c.engine);
    InitIsTimely(c.engine);
    InitWaits(c.engine);
    hide SysOk, Timely, WaitsOk;
  }

  lemma {:induction false} CrewsAreOk(trace: seq<Crew>, i: nat)
    requires CrewRun(trace) && i < |trace|
    ensures CrewOk(trace[i]) && trace[i].engine.steady == trace[0].engine.steady
  {
    hide CrewOk, CrewEnabled, DoCrew, Init;
    if i == 0 {
      CrewStarts(trace[0]);
    } else {
      CrewsAreOk(trace, i - 1);
      assert CrewNext(trace[i - 1], trace[i - 1 + 1]);
      var step :| CrewEnabled(trace[i - 1], step) && trace[i] == DoCrew(trace[i - 1], step);
      CrewStepKeeps(trace[i - 1], step);
      CrewKeepsSteady(trace[i - 1], step);
    }
  }

  lemma CrewKeepsSteady(c: Crew, step: CrewStep)
    requires CrewOk(c) && CrewEnabled(c, step)
    ensures DoCrew(c, step).engine.steady == c.engine.steady
  {
    hide SysOk, Timely, WaitsOk, TicketOk, RowsLimited, Do, Enabled;
    match step
    case Claim(picked) => EngineKeeps(c.engine, LeaseStep(picked, CLAIM_LEASE));
    case Resolve(p, id) => EngineKeeps(c.engine, Start(p, Recovery(id)));
    case GiveUp(_) =>
    case Engine(s) => EngineKeeps(c.engine, s);
  }

  /** Over every run of any number of workers that resolve a row once per claim, under a clock that never goes back,
      however late a pass commits and however many leases expire under it: a waiting operation is rescheduled at most
      2883 times. */
  lemma PassesAreBounded(trace: seq<Crew>, i: nat, id: TransactionId)
    requires CrewRun(trace) && trace[0].engine.steady && i < |trace| && id in trace[i].engine.db.rows
    ensures var row, log := trace[i].engine.db.rows[id], trace[i].engine.log;
            && AllPasses(log, id) <= Claims(log, id) && AllPasses(log, id) <= MAX_PASSES + 1
            && (row.txn.state == PendingReference ==> row.attempts == AllPasses(log, id) <= MAX_PASSES)
  {
    hide CrewRun, SysOk, Timely, Claims, Passes, Leased, Spaced, Resolving;
    CrewsAreOk(trace, i);
    var row, log := trace[i].engine.db.rows[id], trace[i].engine.log;
    assert TicketOk(trace[i], id);
    assert RowLimited(row, log, id);
    assert RowWaits(row, log, id);
  }
}
