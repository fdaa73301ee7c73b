/** What holds in every state of every run of the interleaved system. */
module SystemSafety {
  import opened Wager
  import opened AppErrors
  import opened Tables
  import opened Settlement
  import opened Operations
  import opened Invariants
  import opened OperationSafety
  import opened Interleaving
  import opened Noninterference
  import opened LocalSteps
  import opened Commitment

  /** No two transactions hold the same lock or the same uncommitted key. */
  ghost predicate Exclusive(procs: map<ProcId, Proc>) {
    forall p, q | p in procs && q in procs && p != q :: Disjoint(Holdings(procs[p]), Holdings(procs[q]))
  }

  ghost predicate FutureIsFresh(db: Db, next: nat) {
    forall n: nat | n >= next :: SerialFresh(db, n)
  }

  /** Identities are drawn once. */
  ghost predicate SerialsOk(s: System) {
    && s.nextSerial > 0 && FutureIsFresh(s.db, s.nextSerial)
    && (forall p | p in s.procs :: SerialOf(s.procs[p]) < s.nextSerial)
    && (forall p | p in s.procs && SerialOf(s.procs[p]) != 0 :: SerialFresh(s.db, SerialOf(s.procs[p])))
    && (forall p, q | p in s.procs && q in s.procs && p != q && SerialOf(s.procs[p]) != 0 ::
          SerialOf(s.procs[p]) != SerialOf(s.procs[q]))
  }

  ghost predicate ProcsOk(db: Db, procs: map<ProcId, Proc>) {
    forall p | p in procs :: ProcOk(db, procs[p])
  }

  ghost predicate SysOk(s: System) {
    Inv(s.db) && s.clock != 0 && ProcsOk(s.db, s.procs) && Exclusive(s.procs) && SerialsOk(s)
  }

  lemma InitIsOk(s: System)
    requires Init(s)
    ensures SysOk(s)
  {
    EmptyIsGood();
  }

  // ----- Steps that leave the tables alone -----

  lemma IdleHoldsNothing(op: Op, now: Time)
    ensures Holdings(Started(op, now)) == NOTHING_HELD && SerialOf(Started(op, now)) == 0
  {
  }

  lemma NothingIsDisjoint(f: Footprint)
    ensures Disjoint(NOTHING_HELD, f) && Disjoint(f, NOTHING_HELD)
  {
  }

  lemma StartKeeps(s: System, p: ProcId, op: Op)
    requires SysOk(s) && Enabled(s, Start(p, op))
    ensures SysOk(Do(s, Start(p, op)))
  {
    hide Inv, ProcOk, Disjoint, SerialFresh, Started;
    StartedIsOk(s.db, op, s.clock);
    IdleHoldsNothing(op, s.clock);
    forall q | q in s.procs
           ensures Disjoint(NOTHING_HELD, Holdings(s.procs[q])) && Disjoint(Holdings(s.procs[q]), NOTHING_HELD) {
      NothingIsDisjoint(Holdings(s.procs[q]));
    }
  }

  lemma StopKeeps(s: System, p: ProcId)
    requires SysOk(s) && p in s.procs
    ensures SysOk(Do(s, StopStep(p)))
  {
    hide Inv, ProcOk, Disjoint, SerialFresh;
  }

  /** A new identity is drawn only by the actions that read a wallet to work on. */
  lemma SerialAfterAction(s: System, pr: Proc, a: Action)
    requires PhaseFits(pr, a)
    ensures var next := AfterAction(s, pr, a);
            SerialOf(next) == 0 || SerialOf(next) == SerialOf(pr)
              || (SerialsDrawn(a) == 1 && SerialOf(next) == s.nextSerial)
  {
    hide LookupKey, LookupExternal, LookupWallet, NewTransaction, Settle, OpenWallet, OpenStatements, LoadReference,
         Rehydrate, ReplayOrConflict, ExternalAnswer, View, ClaimRead, Statements;
  }

  lemma LocalKeeps(s: System, p: ProcId, a: Action)
    requires SysOk(s) && LocalEnabled(s, p, a)
    ensures SysOk(DoLocal(s, p, a))
  {
    hide Inv, ProcOk, Disjoint, SerialFresh, AfterAction, Holdings, SerialOf;
    var pr := s.procs[p];
    LocalIsOk(s, pr, a);
    SerialAfterAction(s, pr, a);
    var next := AfterAction(s, pr, a);
    forall q | q in s.procs && q != p
           ensures Disjoint(Holdings(next), Holdings(s.procs[q])) && Disjoint(Holdings(s.procs[q]), Holdings(next)) {
      DisjointIsMutual(Holdings(next), Holdings(s.procs[q]));
    }
  }

  lemma DisjointIsMutual(a: Footprint, b: Footprint)
    requires Disjoint(a, b)
    ensures Disjoint(b, a)
  {
  }

  // ----- Steps that change the tables -----

  /** A change inside one transaction's footprint leaves what every other transaction knows. */
  lemma OthersKept(s: System, p: ProcId, after: Db)
    requires SysOk(s) && p in s.procs && Inv(after) && Grows(s.db, after) && Within(s.db, after, Holdings(s.procs[p]))
    ensures forall q | q in s.procs && q != p :: ProcOk(after, s.procs[q])
  {
    hide Inv, ProcOk, Disjoint, SerialFresh, Grows, Within, Holdings;
    forall q | q in s.procs && q != p ensures ProcOk(after, s.procs[q]) {
      ProcKept(s.db, after, Holdings(s.procs[p]), s.procs[q]);
    }
  }

  lemma CommitKeeps(s: System, p: ProcId, replyLost: bool)
    requires SysOk(s) && p in s.procs && ReadyToCommit(s.procs[p])
    ensures SysOk(Commit(s, p, replyLost)) && Grows(s.db, Commit(s, p, replyLost).db)
  {
    hide Inv, ProcOk, Disjoint, SerialFresh, Grows, Within, ApplyAll, ReadyToCommit, CommitAnswer, AnswerOk, Holdings,
         SerialOf, CommitEntry;
    var pr := s.procs[p];
    CommitLands(s.db, pr);
    var after := ApplyAll(s.db, pr.done);
    OthersKept(s, p, after);
    FinishedIsOk(after, pr, replyLost);
    forall n: nat | SerialFresh(s.db, n) && n != SerialOf(pr) ensures SerialFresh(after, n) {
      CommitUses(s.db, pr, n);
    }
    var ended := Finish(pr, if replyLost then Failure(Transient) else CommitAnswer(pr));
    FinishedHoldsNothing(pr, if replyLost then Failure(Transient) else CommitAnswer(pr));
    forall q | q in s.procs
           ensures Disjoint(NOTHING_HELD, Holdings(s.procs[q])) && Disjoint(Holdings(s.procs[q]), NOTHING_HELD) {
      NothingIsDisjoint(Holdings(s.procs[q]));
    }
  }

  lemma FinishedHoldsNothing(pr: Proc, a: Answer)
    ensures Holdings(Finish(pr, a)) == NOTHING_HELD && SerialOf(Finish(pr, a)) == 0
  {
  }

  lemma FinishedIsOk(after: Db, pr: Proc, replyLost: bool)
    requires AnswerOk(after, pr.op, CommitAnswer(pr))
    ensures ProcOk(after, Finish(pr, if replyLost then Failure(Transient) else CommitAnswer(pr)))
  {
    hide CommitAnswer;
  }

  function PickedRows(picked: seq<TransactionId>): Footprint {
    NOTHING_HELD.(rows := set i | 0 <= i < |picked| :: picked[i])
  }

  lemma PickedIsDisjoint(s: System, picked: seq<TransactionId>, q: ProcId)
    requires LeaseEnabled(s, picked) && q in s.procs
    ensures Disjoint(PickedRows(picked), Holdings(s.procs[q]))
  {
    hide Holdings;
  }

  lemma LeaseStepKeeps(s: System, picked: seq<TransactionId>, lease: nat)
    requires SysOk(s) && LeaseEnabled(s, picked)
    ensures SysOk(Do(s, LeaseStep(picked, lease))) && Grows(s.db, Do(s, LeaseStep(picked, lease)).db)
  {
    hide Inv, ProcOk, Disjoint, SerialFresh, Grows, Within, LeaseReferences, LeaseEnabled, Holdings, SerialOf;
    var after := LeaseReferences(s.db, picked, s.clock, lease);
    LeaseKeeps(s.db, picked, s.clock, lease);
    LeaseLands(s.db, picked, s.clock, lease, PickedRows(picked));
    forall q | q in s.procs ensures ProcOk(after, s.procs[q]) {
      PickedIsDisjoint(s, picked, q);
      ProcKept(s.db, after, PickedRows(picked), s.procs[q]);
    }
  }

  lemma TickKeeps(s: System, now: Time)
    requires SysOk(s) && now != 0
    ensures SysOk(s.(clock := now))
  {
    hide Inv, ProcOk, Disjoint, SerialFresh;
  }

  /** Every step keeps the system safe and loses nothing stored. */
  lemma StepKeeps(s: System, step: Step)
    requires SysOk(s) && Enabled(s, step)
    ensures SysOk(Do(s, step)) && Grows(s.db, Do(s, step).db)
  {
    hide SysOk, Inv, LocalEnabled, LeaseEnabled, ReadyToCommit, Grows;
    NothingChanges(s.db);
    match step
    case Start(p, op) => StartKeeps(s, p, op);
    case Local(p, a) => LocalKeeps(s, p, a);
    case CommitStep(p, replyLost) => CommitKeeps(s, p, replyLost);
    case StopStep(p) => StopKeeps(s, p);
    case LeaseStep(picked, lease) => LeaseStepKeeps(s, picked, lease);
    case TickStep(now) => TickKeeps(s, now);
  }

  lemma NothingChanges(db: Db)
    ensures Grows(db, db)
  {
  }

  // ----- Runs -----

  /** Every state of every run: the tables satisfy every invariant and every process knows only what is true. */
  lemma {:induction false} RunsAreSafe(trace: seq<System>, i: nat)
    requires Run(trace) && i < |trace|
    ensures SysOk(trace[i])
  {
    hide SysOk, Enabled, Do, Init;
    if i == 0 {
      InitIsOk(trace[0]);
    } else {
      RunsAreSafe(trace, i - 1);
      assert Next(trace[i - 1], trace[i - 1 + 1]);
      var step :| Enabled(trace[i - 1], step) && trace[i] == Do(trace[i - 1], step);
      StepKeeps(trace[i - 1], step);
    }
  }

  /** Along every run nothing stored is lost: commands, keys, postings, claims and events stay, and terminal rows never
      change. */
  lemma {:induction false} RunsOnlyGrow(trace: seq<System>, i: nat, j: nat)
    requires Run(trace) && i <= j < |trace|
    ensures Grows(trace[i].db, trace[j].db)
    decreases j
  {
    hide SysOk, Enabled, Do, Init, Grows;
    if i == j {
      NothingChanges(trace[i].db);
    } else {
      RunsOnlyGrow(trace, i, j - 1);
      RunsAreSafe(trace, j - 1);
      assert Next(trace[j - 1], trace[j - 1 + 1]);
      var step :| Enabled(trace[j - 1], step) && trace[j] == Do(trace[j - 1], step);
      StepKeeps(trace[j - 1], step);
      GrowthComposes(trace[i].db, trace[j - 1].db, trace[j].db);
    }
  }
}
