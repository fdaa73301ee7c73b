/** What the engine promises about every state any run can reach. */
module Guarantees {
  import opened Wager
  import opened Wallets
  import opened Commands
  import opened Resolution
  import opened Tables
  import opened Settlement
  import opened Operations
  import opened Invariants
  import opened Preservation
  import opened OperationSafety
  import opened Interleaving
  import opened Noninterference
  import opened SystemSafety
  import EffectSafety
  import opened Commitment
  import opened StatementRuns
  import LocalSteps

  ghost predicate Reachable(db: Db) {
    exists trace: seq<System>, i: nat :: Run(trace) && i < |trace| && trace[i].db == db
  }

  lemma ReachableIsGood(db: Db)
    requires Reachable(db)
    ensures Inv(db)
  {
    hide Run, Inv, ProcsOk, Exclusive, SerialsOk;
    var trace: seq<System>, i: nat :| Run(trace) && i < |trace| && trace[i].db == db;
    RunsAreSafe(trace, i);
  }

  lemma ReachableParts(db: Db)
    requires Reachable(db)
    ensures WalletsOk(db.wallets, db.owners) && RowsOk(db.rows, db.wallets)
    ensures LedgerOk(db.rows, db.ledger) && Chained(db.ledger) && ClaimsOk(db.rows, db.claims) && 0 !in db.rows
    ensures EventsOk(db.rows, db.wallets, db.outbox) && TallyOk(db.rows, db.outbox) && EventsChained(db.rows, db.outbox)
    ensures forall w | w in db.wallets :: WalletAgrees(db, w)
  {
    hide Reachable, StructureOk, Agrees;
    ReachableIsGood(db);
    EffectSafety.StructureParts(db);
  }

  // ----- Ledger -----

  /** A wallet's postings in commit order. */
  function PostingsOf(ledger: seq<LedgerEntry>, w: WalletId): seq<LedgerEntry> {
    if ledger == [] then []
    else
      var e := ledger[|ledger| - 1];
      PostingsOf(ledger[..|ledger| - 1], w) + if e.walletId == w then [e] else []
  }

  /** The balance a chain of postings ends with. */
  function EndBalance(entries: seq<LedgerEntry>): int {
    if entries == [] then 0 else entries[|entries| - 1].balanceAfter.minorUnits
  }

  /** Every posting starts where the one before it ended, the first at zero, and moves the balance by its signed
      amount. */
  predicate ChainsFromZero(entries: seq<LedgerEntry>) {
    forall i | 0 <= i < |entries| ::
      && entries[i].balanceBefore.minorUnits == EndBalance(entries[..i])
      && entries[i].balanceAfter.minorUnits == entries[i].balanceBefore.minorUnits + Signed(entries[i])
      && entries[i].balanceAfter.minorUnits >= 0
  }

  lemma {:induction false} PostingsChain(rows: RowTable, ledger: seq<LedgerEntry>, w: WalletId)
    requires Chained(ledger)
    requires forall i | 0 <= i < |ledger| :: EntryOk(rows, ledger[i]) && ledger[i].balanceAfter.minorUnits >= 0
    ensures ChainsFromZero(PostingsOf(ledger, w)) && EndBalance(PostingsOf(ledger, w)) == LastBalance(ledger, w)
  {
    if ledger != [] {
      var init, e := ledger[..|ledger| - 1], ledger[|ledger| - 1];
      forall i | 0 <= i < |init| ensures init[i].balanceBefore.minorUnits == LastBalance(init[..i], init[i].walletId) {
        assert init[..i] == ledger[..i] && init[i] == ledger[i];
      }
      PostingsChain(rows, init, w);
      if e.walletId == w {
        var before, after := PostingsOf(init, w), PostingsOf(ledger, w);
        assert after == before + [e];
        assert e.balanceBefore.minorUnits == LastBalance(init, w);
        forall i | 0 <= i < |after|
          ensures after[i].balanceBefore.minorUnits == EndBalance(after[..i])
                  && after[i].balanceAfter.minorUnits == after[i].balanceBefore.minorUnits + Signed(after[i])
                  && after[i].balanceAfter.minorUnits >= 0
        {
          assert i < |before| ==> after[i] == before[i];
          assert after[..i] == before[..i];
          assert before[..|before|] == before;
          assert EntryOk(rows, e);
        }
      }
    }
  }

  lemma PostedBalance(rows: RowTable, wallets: WalletTable, ledger: seq<LedgerEntry>, i: nat)
    requires RowsOk(rows, wallets) && LedgerOk(rows, ledger) && i < |ledger|
    ensures EntryOk(rows, ledger[i]) && ledger[i].balanceAfter.minorUnits >= 0
  {
    assert RowOk(rows[ledger[i].transactionId]);
  }

  /** In every reachable state each wallet's ledger, in commit order, chains from zero to the stored balance, which is
      never negative, and the version is one plus the number of postings not made by its OPENING. */
  lemma LedgerChainsToBalance(db: Db, w: WalletId)
    requires Reachable(db) && w in db.wallets
    ensures ChainsFromZero(PostingsOf(db.ledger, w))
    ensures EndBalance(PostingsOf(db.ledger, w)) == db.wallets[w].balance.minorUnits >= 0
    ensures db.wallets[w].version == 1 + Movements(db.rows, db.ledger, w)
  {
    hide Reachable, Chained;
    ReachableParts(db);
    assert WalletAgrees(db, w);
    forall i | 0 <= i < |db.ledger|
           ensures EntryOk(db.rows, db.ledger[i]) && db.ledger[i].balanceAfter.minorUnits >= 0 {
      PostedBalance(db.rows, db.wallets, db.ledger, i);
    }
    PostingsChain(db.rows, db.ledger, w);
  }

  // ----- Conservation -----

  /** Conservation over whole runs: a wallet's balance is the sum, over the operations posted to it, of its OPENING
      amount, every WIN not rolled back, and minus every BET that stands. */
  lemma BalanceIsNetOfStandingOperations(db: Db, w: WalletId)
    requires Reachable(db) && w in db.wallets
    ensures db.wallets[w].balance.minorUnits == NetTotal(db.rows, db.claims, db.ledger, w)
  {
    hide Reachable, NetTotal;
    ReachableParts(db);
    assert WalletAgrees(db, w);
  }

  /** The signed amount an operation posts. */
  function Posting(rows: RowTable, id: TransactionId): int {
    if !Posted(rows, id) then 0
    else if DirectionOf(rows, rows[id].txn) == Credit then rows[id].txn.amount.minorUnits
    else -(rows[id].txn.amount.minorUnits as int)
  }

  /** What an operation and the compensations that follow it have posted together. */
  function ChainTotal(rows: RowTable, claims: seq<ReversalClaim>, id: TransactionId): int {
    var first := ReversalOf(claims, id);
    var second := ReversalOf(claims, first);
    Posting(rows, id)
    + (if first == 0 then 0 else Posting(rows, first) + if second == 0 then 0 else Posting(rows, second))
  }

  /** A bet with all its compensations nets to minus its amount or to zero, so it never gives back more than it took;
      a win nets to its amount or to zero. Both agree with the net effect that balances are made of. */
  lemma ChainsNetToStanding(db: Db, id: TransactionId)
    requires Reachable(db) && IsProcessed(db.rows, id)
    requires db.rows[id].txn.kind == Bet || db.rows[id].txn.kind == Win
    ensures ChainTotal(db.rows, db.claims, id) == NetEffect(db.rows, db.claims, id)
    ensures db.rows[id].txn.kind == Bet ==>
              NetEffect(db.rows, db.claims, id) in {0, -(db.rows[id].txn.amount.minorUnits as int)}
    ensures db.rows[id].txn.kind == Win ==>
              NetEffect(db.rows, db.claims, id) in {0, db.rows[id].txn.amount.minorUnits as int}
  {
    hide Reachable, WalletsOk, RowsOk, LedgerOk, Chained, ClaimsOk, EventsOk, TallyOk, EventsChained, WalletAgrees,
         NetEffect, ChainTotal;
    ReachableParts(db);
    if db.rows[id].txn.kind == Bet {
      BetChainNets(db.rows, db.claims, id);
    } else {
      WinChainNets(db.rows, db.claims, id);
    }
  }

  /** What the one reversal of an operation posts, and what reverses that in turn. */
  lemma ReversalPosts(rows: RowTable, claims: seq<ReversalClaim>, id: TransactionId)
    requires ClaimsOk(rows, claims) && 0 !in rows && IsProcessed(rows, id) && ReversalOf(claims, id) != 0
    ensures var r := ReversalOf(claims, id);
            && IsProcessed(rows, r) && rows[r].txn.amount == rows[id].txn.amount
               && MayReverse(rows[r].txn.kind, rows[id].txn.kind)
            && Posting(rows, r) == (if ReversalDirection(rows[r].txn.kind, rows[id].txn.kind) == Credit
                                    then rows[id].txn.amount.minorUnits as int
                                      else -(rows[id].txn.amount.minorUnits as int))
  {
    hide ClaimsOk, ReversalOf;
    ReversalIsEqual(rows, claims, id);
  }

  lemma BetChainNets(rows: RowTable, claims: seq<ReversalClaim>, id: TransactionId)
    requires ClaimsOk(rows, claims) && 0 !in rows && IsProcessed(rows, id) && rows[id].txn.kind == Bet
    ensures ChainTotal(rows, claims, id) == NetEffect(rows, claims, id)
    ensures NetEffect(rows, claims, id) in {0, -(rows[id].txn.amount.minorUnits as int)}
  {
    assert Posting(rows, id) == -(rows[id].txn.amount.minorUnits as int);
    hide ClaimsOk, ReversalOf, Posting;
    var first := ReversalOf(claims, id);
    if first != 0 {
      ReversalPosts(rows, claims, id);
      if ReversalOf(claims, first) != 0 {
        ReversalPosts(rows, claims, first);
      }
    }
  }

  lemma WinChainNets(rows: RowTable, claims: seq<ReversalClaim>, id: TransactionId)
    requires ClaimsOk(rows, claims) && 0 !in rows && IsProcessed(rows, id) && rows[id].txn.kind == Win
    ensures ChainTotal(rows, claims, id) == NetEffect(rows, claims, id)
    ensures NetEffect(rows, claims, id) in {0, rows[id].txn.amount.minorUnits as int}
  {
    assert Posting(rows, id) == rows[id].txn.amount.minorUnits as int;
    hide ClaimsOk, ReversalOf, Posting;
    var first := ReversalOf(claims, id);
    if first != 0 {
      ReversalPosts(rows, claims, id);
      if ReversalOf(claims, first) != 0 {
        ReversalPosts(rows, claims, first);
      }
    }
  }

  lemma ReversalIsEqual(rows: RowTable, claims: seq<ReversalClaim>, id: TransactionId)
    requires ClaimsOk(rows, claims) && 0 !in rows && ReversalOf(claims, id) != 0
    ensures var r := ReversalOf(claims, id);
            && IsProcessed(rows, id) && IsProcessed(rows, r) && rows[r].txn.referenceId == id
            && rows[r].txn.amount == rows[id].txn.amount && rows[r].txn.walletId == rows[id].txn.walletId
            && MayReverse(rows[r].txn.kind, rows[id].txn.kind)
  {
    forall k | 0 <= k < |claims| ensures ClaimOk(rows, claims[k]) && claims[k].reversal != 0 {
    }
    ReversalOfIsTheClaim(rows, claims, id);
    var i :| 0 <= i < |claims| && claims[i].reference == id && claims[i].reversal == ReversalOf(claims, id);
    assert ClaimOk(rows, claims[i]);
  }

  /** Compensation chains have length at most two: only a refund of a bet can itself be reversed, by a rollback,
      and nothing reverses that. */
  lemma ChainsAreShort(db: Db, i: nat, j: nat)
    requires Reachable(db) && i < |db.claims| && j < |db.claims| && db.claims[j].reference == db.claims[i].reversal
    ensures IsProcessed(db.rows, db.claims[i].reference) && db.rows[db.claims[i].reference].txn.kind == Bet
    ensures IsProcessed(db.rows, db.claims[i].reversal) && db.rows[db.claims[i].reversal].txn.kind == Refund
    ensures IsProcessed(db.rows, db.claims[j].reversal) && db.rows[db.claims[j].reversal].txn.kind == Rollback
    ensures !HasClaim(db.claims, db.claims[j].reversal)
  {
    hide Reachable, WalletsOk, RowsOk, LedgerOk, Chained, EventsOk, TallyOk, EventsChained, WalletAgrees;
    ReachableParts(db);
    assert ClaimOk(db.rows, db.claims[i]) && ClaimOk(db.rows, db.claims[j]);
    forall k | 0 <= k < |db.claims| ensures db.claims[k].reference != db.claims[j].reversal {
      assert ClaimOk(db.rows, db.claims[k]);
    }
  }

  // ----- Claims -----

  /** No reference ever gets two claims, although the claim table carries no unique index here. Claims match one to one
      the processed refunds and rollbacks, each pointing at a processed operation of the same wallet and amount. */
  lemma ClaimsMatchReversals(db: Db)
    requires Reachable(db)
    ensures forall i, j | 0 <= i < j < |db.claims| ::
              db.claims[i].reference != db.claims[j].reference && db.claims[i].reversal != db.claims[j].reversal
    ensures forall i | 0 <= i < |db.claims| ::
              var c := db.claims[i];
              && IsProcessed(db.rows, c.reference) && IsProcessed(db.rows, c.reversal)
              && IsClaimingKind(db.rows[c.reversal].txn.kind) && db.rows[c.reversal].txn.referenceId == c.reference
              && db.rows[c.reversal].txn.walletId == db.rows[c.reference].txn.walletId
              && db.rows[c.reversal].txn.amount == db.rows[c.reference].txn.amount
    ensures forall id | IsProcessed(db.rows, id) && IsClaimingKind(db.rows[id].txn.kind) :: IsReversal(db.claims, id)
  {
    hide Reachable, WalletsOk, RowsOk, LedgerOk, Chained, EventsOk, TallyOk, EventsChained, WalletAgrees;
    ReachableParts(db);
    forall i | 0 <= i < |db.claims| ensures ClaimOk(db.rows, db.claims[i]) {
    }
  }

  // ----- Identity -----

  lemma ReachableIndexes(db: Db)
    requires Reachable(db)
    ensures IndexOk(db.rows, db.byKey, KeyOf) && IndexOk(db.rows, db.byExternal, ExternalOf)
  {
    hide Reachable, Inv, IndexOk;
    ReachableIsGood(db);
    IndexesOf(db);
  }

  /** At most one provider row per key and per external identity. */
  lemma OperationsAreUnique(db: Db, a: TransactionId, b: TransactionId)
    requires Reachable(db) && a in db.rows && b in db.rows && db.rows[a].txn.origin == External
             && db.rows[b].txn.origin == External
    ensures KeyOf(db.rows[a].txn) == KeyOf(db.rows[b].txn) ==> a == b
    ensures ExternalOf(db.rows[a].txn) == ExternalOf(db.rows[b].txn) ==> a == b
  {
    hide Reachable;
    ReachableIndexes(db);
  }

  /** Each command moves money at most once: two postings under one provider key, or one external identity, are the same
      posting. */
  lemma CommandsMoveMoneyOnce(db: Db, i: nat, j: nat)
    requires Reachable(db) && i < |db.ledger| && j < |db.ledger|
    requires db.ledger[i].transactionId in db.rows && db.ledger[j].transactionId in db.rows
    requires var a, b := db.rows[db.ledger[i].transactionId].txn, db.rows[db.ledger[j].transactionId].txn;
             a.origin == External && b.origin == External && (KeyOf(a) == KeyOf(b) || ExternalOf(a) == ExternalOf(b))
    ensures i == j
  {
    hide Reachable, KeyOf, ExternalOf, WalletsOk, RowsOk, Chained, ClaimsOk, EventsOk, TallyOk, EventsChained,
         WalletAgrees;
    OperationsAreUnique(db, db.ledger[i].transactionId, db.ledger[j].transactionId);
    ReachableParts(db);
  }

  /** Once a command's row is terminal, every later replay of the command is answered with that row's state,
      failure code and observed balance. */
  lemma ReplaysNeverChange(trace: seq<System>, i: nat, j: nat, cmd: SubmitWagerCommand, env: Env)
    requires Run(trace) && i <= j < |trace| && Validate(cmd).Ok?
    requires (cmd.providerId, cmd.idempotencyKey) in trace[i].db.byKey
    requires var id := trace[i].db.byKey[(cmd.providerId, cmd.idempotencyKey)];
             id in trace[i].db.rows && trace[i].db.rows[id].txn.state.IsTerminal()
               && trace[i].db.rows[id].txn.digest == DigestOf(cmd)
    ensures var id := trace[i].db.byKey[(cmd.providerId, cmd.idempotencyKey)];
            && Submit(trace[j].db, cmd, env).Answered?
            && Tells(Submit(trace[j].db, cmd, env).result, trace[i].db.rows[id].txn)
            && Submit(trace[j].db, cmd, env).result.replay
  {
    hide Run, SysOk, Grows, Validate, SubmitWithinTx, DigestOf, Tells;
    RunsOnlyGrow(trace, i, j);
    RunsAreSafe(trace, j);
    TerminalReplay(trace[i].db, trace[j].db, cmd, env) by {
      assert Inv(trace[j].db) by { SafeIsGood(trace[j]); }
    }
  }

  lemma SafeIsGood(s: System)
    requires SysOk(s)
    ensures Inv(s.db)
  {
    hide Inv, ProcsOk, Exclusive, SerialsOk;
  }

  lemma TerminalReplay(a: Db, b: Db, cmd: SubmitWagerCommand, env: Env)
    requires Inv(b) && Grows(a, b) && (cmd.providerId, cmd.idempotencyKey) in a.byKey
    requires var id := a.byKey[(cmd.providerId, cmd.idempotencyKey)];
             id in a.rows && a.rows[id].txn.state.IsTerminal() && a.rows[id].txn.digest == DigestOf(cmd)
    ensures var id := a.byKey[(cmd.providerId, cmd.idempotencyKey)];
            && SubmitWithinTx(b, cmd, env).Answered?
            && Tells(SubmitWithinTx(b, cmd, env).result, a.rows[id].txn) && SubmitWithinTx(b, cmd, env).result.replay
  {
    hide Inv, DigestOf, SubmitFresh, SubmitWithinTx, IndexOk, Tells;
    var k := (cmd.providerId, cmd.idempotencyKey);
    var id := a.byKey[k];
    assert b.rows[id] == a.rows[id];
    SubmitWithinTxUnfolds(b, cmd, env);
    IndexesOf(b);
    IndexEntry(b.rows, b.byKey, KeyOf, k);
    LocalSteps.StoredProviderRow(b, id);
    ResultTells(b.rows[id].txn, true);
  }

  /** Every successful answer tells the columns of a stored row, for good once the operation has ended: a submission's
      the row under its key, accepted from the very same command, a recovery pass's its own row. Every conflict answer
      is witnessed by a committed row that differs from the command. */
  lemma AnswersAreWitnessed(trace: seq<System>, i: nat, j: nat, p: ProcId)
    requires Run(trace) && i <= j < |trace| && p in trace[i].procs && trace[i].procs[p].phase.Finished?
    ensures var op, answer, db := trace[i].procs[p].op, trace[i].procs[p].phase.answer, trace[j].db;
            && (answer.Success? && op.Submission? ==>
                  var k := (op.cmd.providerId, op.cmd.idempotencyKey);
                  && k in db.byKey && db.byKey[k] in db.rows && CommandOf(db.rows[db.byKey[k]].txn) == op.cmd
                  && answer.result.transactionId == db.byKey[k]
                  && Witnesses(db.rows[db.byKey[k]].txn, answer.result))
            && (answer.Success? && op.Recovery? ==>
                  && op.id in db.rows && answer.result.transactionId == op.id && !answer.result.replay
                  && Witnesses(db.rows[op.id].txn, answer.result))
            && (answer.Failure? ==> ConflictOk(db, op, answer.error))
  {
    hide Run, SysOk, Grows, AnsweredBy, ResolvedBy, ConflictOk, Witnesses;
    RunsAreSafe(trace, i);
    RunsAreSafe(trace, j);
    RunsOnlyGrow(trace, i, j);
    SafeProc(trace[i], p);
    SafeIsGood(trace[j]);
    var op, answer, db := trace[i].procs[p].op, trace[i].procs[p].phase.answer, trace[j].db;
    AnswerKept(trace[i].db, db, op, answer);
    if answer.Success? && op.Submission? {
      AnsweredCommand(db, op.cmd, answer.result);
    } else if answer.Success? && op.Recovery? {
      assert ResolvedBy(db, op.id, answer.result);
      ResolvedParts(db, op.id, answer.result);
    }
  }

  lemma ResolvedParts(db: Db, id: TransactionId, result: WagerResult)
    requires ResolvedBy(db, id, result)
    ensures id in db.rows && result.transactionId == id && !result.replay && Witnesses(db.rows[id].txn, result)
  {
  }

  lemma AnsweredCommand(db: Db, cmd: SubmitWagerCommand, result: WagerResult)
    requires Inv(db) && AnsweredBy(db, cmd, result)
    ensures var k := (cmd.providerId, cmd.idempotencyKey);
            && k in db.byKey && db.byKey[k] in db.rows && CommandOf(db.rows[db.byKey[k]].txn) == cmd
            && result.transactionId == db.byKey[k] && Witnesses(db.rows[db.byKey[k]].txn, result)
  {
    hide Inv, IndexOk, Witnesses;
    var k := (cmd.providerId, cmd.idempotencyKey);
    IndexesOf(db);
    IndexEntry(db.rows, db.byKey, KeyOf, k);
    StoredProviderDigest(db, db.byKey[k]);
    DigestsAgreeWhen(CommandOf(db.rows[db.byKey[k]].txn), cmd);
  }

  /** At the step that ends a process with success, its answer tells every column of its row as it is then stored, but
      for a delivery of an operation that was there before, whose answer was read earlier and may still tell of a wait
      that has ended since; and it is flagged as a replay exactly when the row of a submission was there before. */
  lemma AnswersTellTheirRow(trace: seq<System>, i: nat, p: ProcId)
    requires Run(trace) && i + 1 < |trace| && p in trace[i].procs && p in trace[i + 1].procs
    requires !trace[i].procs[p].phase.Finished?
    requires trace[i + 1].procs[p].phase.Finished? && trace[i + 1].procs[p].phase.answer.Success?
    ensures var pr, result, before, after :=
              trace[i].procs[p], trace[i + 1].procs[p].phase.answer.result, trace[i].db, trace[i + 1].db;
            && result.transactionId in after.rows
            && (Tells(result, after.rows[result.transactionId].txn)
                || (pr.phase.Completing? && Witnesses(after.rows[result.transactionId].txn, result)))
            && (result.replay <==> pr.op.Submission? && result.transactionId in before.rows)
  {
    hide SysOk, Enabled, Do, Tells, Witnesses;
    RunsAreSafe(trace, i);
    assert Next(trace[i], trace[i + 1]);
    var step :| Enabled(trace[i], step) && trace[i + 1] == Do(trace[i], step);
    StepOfAnswer(trace[i], step, p);
    match step
    case Local(_, a) => LocalAnswerTells(trace[i], p, a);
    case CommitStep(_, _) => CommitAnswerTells(trace[i], p);
    case _ =>
  }

  /** Only a process's own statement or commit ends it with an answer. */
  lemma StepOfAnswer(s: System, step: Step, p: ProcId)
    requires Enabled(s, step) && p in s.procs && p in Do(s, step).procs
    requires !s.procs[p].phase.Finished? && Do(s, step).procs[p].phase.Finished?
             && Do(s, step).procs[p].phase.answer.Success?
    ensures (step.Local? && step.p == p && LocalEnabled(s, p, step.action) && Do(s, step) == DoLocal(s, p, step.action))
            || (step.CommitStep? && step.p == p && !step.replyLost && ReadyToCommit(s.procs[p])
                && Do(s, step) == Commit(s, p, false))
  {
    hide LocalEnabled, AfterAction, ReadyToCommit, ApplyAll, CommitAnswer, CommitEntry, Started, LeaseReferences;
  }

  lemma LocalAnswerTells(s: System, p: ProcId, a: Action)
    requires SysOk(s) && LocalEnabled(s, p, a)
    requires var next := AfterAction(s, s.procs[p], a); next.phase.Finished? && next.phase.answer.Success?
    ensures var result := AfterAction(s, s.procs[p], a).phase.answer.result;
            && result.transactionId in s.db.rows && Tells(result, s.db.rows[result.transactionId].txn)
            && (result.replay <==> s.procs[p].op.Submission?)
  {
    hide Inv, ProcsOk, Exclusive, SerialsOk, Tells, NewTransaction, Settle, OpenWallet, LookupKey, LookupExternal,
         LookupWallet, Available, OpenStatements, View, LoadReference, ClaimRead, Statements, ResultOf;
    var pr := s.procs[p];
    match a
    case LookupKeyStep(_) =>
      LookupsAreExact(s.db, pr.op.cmd);
      FoundTells(s.db, s.db.byKey[(pr.op.cmd.providerId, pr.op.cmd.idempotencyKey)]);
    case LookupExternalStep(_) =>
      LookupsAreExact(s.db, pr.op.cmd);
      FoundTells(s.db, s.db.byExternal[(pr.op.cmd.providerId, pr.op.cmd.externalId)]);
    case LockRowStep =>
      FoundTells(s.db, pr.op.id);
      StoredRowRehydrates(s.db, pr.op.id);
    case _ =>
  }

  lemma FoundTells(db: Db, id: TransactionId)
    requires Inv(db) && id in db.rows
    ensures forall replay :: Tells(ResultOf(db.rows[id].txn, replay), db.rows[id].txn)
                             && ResultOf(db.rows[id].txn, replay).replay == replay
                             && ResultOf(db.rows[id].txn, replay).transactionId == id
  {
    hide Inv, RowOk, Tells, ResultOf;
    StoredRowRehydrates(db, id);
    forall replay ensures Tells(ResultOf(db.rows[id].txn, replay), db.rows[id].txn)
                          && ResultOf(db.rows[id].txn, replay).replay == replay
                          && ResultOf(db.rows[id].txn, replay).transactionId == id
    {
      ResultTells(db.rows[id].txn, replay);
      TellsIdentity(ResultOf(db.rows[id].txn, replay), db.rows[id].txn);
    }
  }

  lemma TellsIdentity(r: WagerResult, t: WagerTransaction)
    requires Tells(r, t)
    ensures r.transactionId == t.id
  {
  }

  lemma CommitAnswerTells(s: System, p: ProcId)
    requires SysOk(s) && p in s.procs && ReadyToCommit(s.procs[p]) && CommitAnswer(s.procs[p]).Success?
    ensures var pr, result, after := s.procs[p], CommitAnswer(s.procs[p]).result, Commit(s, p, false).db;
            && result.transactionId in after.rows
            && (Tells(result, after.rows[result.transactionId].txn)
                || (pr.phase.Completing? && Witnesses(after.rows[result.transactionId].txn, result)))
            && (result.replay <==> pr.op.Submission? && result.transactionId in s.db.rows)
  {
    hide ProcsOk, Exclusive, Inv, ProcOk, SerialFresh, Tells, Witnesses, ApplyAll, CommitEntry, ApplyEffect, ShapeOk,
         AnsweredBy;
    SafeProc(s, p);
    var pr := s.procs[p];
    if pr.phase.Writing? {
      var w, e := pr.phase.work, pr.phase.settled.effect;
      LocalSteps.EnvOfWork(s.db, pr);
      WritingCommits(s.db, pr);
      SettledShape(s.db, pr);
      WrittenInPlace(s.db, pr);
      WorkInPlace(s.db, pr.op, w, pr.phase.settled);
      ShapeTells(w.wall, w.txn, w.env, pr.phase.settled);
      AppliedParts(s.db, e);
    } else {
      CompletingCommits(s.db, pr);
      CompletingAnswer(s.db, pr);
    }
  }

  lemma WrittenInPlace(db: Db, pr: Proc)
    requires ProcOk(db, pr) && pr.phase.Writing?
    ensures InPlace(db, pr.op, pr.phase.work)
  {
    hide OpOk, InPlace, ReferenceKnown, Settle, Statements;
  }

  lemma ShapeTells(wall: Wallet, t: WagerTransaction, env: Env, s: Settled)
    requires ShapeOk(wall, t, env, s)
    ensures Tells(s.result, s.effect.row.txn) && !s.result.replay
    ensures s.result.transactionId == s.effect.row.txn.id == t.id
  {
  }

  lemma CompletingAnswer(db: Db, pr: Proc)
    requires ProcOk(db, pr) && pr.phase.Completing?
    ensures var result := pr.phase.result;
            && result.replay && pr.op.Submission? && result.transactionId in db.rows
            && Witnesses(db.rows[result.transactionId].txn, result)
  {
    hide Witnesses, OpOk;
  }

  lemma SafeProc(s: System, p: ProcId)
    requires SysOk(s) && p in s.procs
    ensures ProcOk(s.db, s.procs[p])
  {
    hide Inv, ProcOk, Exclusive, SerialsOk;
  }

  // ----- Life cycle -----

  /** No committed row is ever PENDING or FAILED, a waiting row has neither outcome nor reference,
      and a row that has ended carries no schedule and no lease. */
  lemma CommittedRowsAreDecided(db: Db, id: TransactionId)
    requires Reachable(db) && id in db.rows
    ensures var row := db.rows[id];
            && row.txn.state in {PendingReference, Processed, Rejected}
            && (row.txn.state == PendingReference ==>
                  row.txn.failureCode == NoFailure && row.txn.referenceId == 0 && NeedsReference(row.txn))
            && (row.txn.state != PendingReference ==>
                  row.nextAttemptAt == 0 && row.attempts == 0 && row.claimedUntil == 0)
  {
    hide Reachable, WalletsOk, LedgerOk, Chained, ClaimsOk, EventsOk, TallyOk, EventsChained, WalletAgrees;
    ReachableParts(db);
    assert RowOk(db.rows[id]);
  }

  /** Terminal rows never change, so a waiting row ends at most once however many workers hold it, and what it posts,
      claims and announces when it ends stays as it was. */
  lemma TerminalRowsNeverChange(trace: seq<System>, i: nat, j: nat, id: TransactionId)
    requires Run(trace) && i <= j < |trace| && id in trace[i].db.rows && trace[i].db.rows[id].txn.state.IsTerminal()
    ensures id in trace[j].db.rows && trace[j].db.rows[id] == trace[i].db.rows[id]
    ensures trace[i].db.ledger <= trace[j].db.ledger && trace[i].db.claims <= trace[j].db.claims
            && trace[i].db.outbox <= trace[j].db.outbox
  {
    hide Run;
    RunsOnlyGrow(trace, i, j);
  }

  // ----- Agreement between tables -----

  /** Each processed operation but a LOSS has exactly one posting, in the direction its kind and its reference's kind
      dictate and ending at its observed balance; all other operations have none. */
  lemma PostingsMatchRows(db: Db)
    requires Reachable(db)
    ensures forall id | Posted(db.rows, id) :: HasEntry(db.ledger, id)
    ensures forall i, j | 0 <= i < j < |db.ledger| :: db.ledger[i].transactionId != db.ledger[j].transactionId
    ensures forall i | 0 <= i < |db.ledger| ::
              var e := db.ledger[i];
              && Posted(db.rows, e.transactionId)
              && e.walletId == db.rows[e.transactionId].txn.walletId && e.amount == db.rows[e.transactionId].txn.amount
              && e.direction == DirectionOf(db.rows, db.rows[e.transactionId].txn)
              && e.balanceAfter == db.rows[e.transactionId].txn.observedBalance
  {
    hide Reachable, WalletsOk, RowsOk, Chained, ClaimsOk, EventsOk, TallyOk, EventsChained, WalletAgrees;
    ReachableParts(db);
    forall i | 0 <= i < |db.ledger| ensures EntryOk(db.rows, db.ledger[i]) {
    }
  }

  /** Each operation has announced exactly what happened to it: one processed event if processed, one rejected event if
      rejected, one balance event if it posted, one waiting event if it ever waited, and nothing else. */
  lemma EventsMatchRows(db: Db, id: TransactionId)
    requires Reachable(db) && id in db.rows
    ensures var t := db.rows[id].txn;
            && Tally(db.outbox, OfProcessed, id) == (if t.state == Processed then 1 else 0)
            && Tally(db.outbox, OfRejected, id) == (if t.state == Rejected then 1 else 0)
            && Tally(db.outbox, OfBalance, id) == (if t.state == Processed && t.kind != Loss then 1 else 0)
            && Tally(db.outbox, OfPending, id) == (if t.referenceDeadline != 0 then 1 else 0)
            && (t.state == PendingReference ==> t.referenceDeadline != 0)
  {
    hide Reachable, WalletsOk, LedgerOk, Chained, ClaimsOk, EventsOk, EventsChained, WalletAgrees, Tally;
    ReachableParts(db);
    assert RowOk(db.rows[id]);
  }

  /** Replaying the balance events in commit order rebuilds every wallet's balance and version, and no event is about
      an operation that does not exist. */
  lemma BalanceEventsRebuildWallets(db: Db, w: WalletId)
    requires Reachable(db) && w in db.wallets
    ensures Replay(db.outbox, w) == (db.wallets[w].balance.minorUnits as int, db.wallets[w].version)
    ensures forall i | 0 <= i < |db.outbox| :: EventOk(db.rows, db.wallets, db.outbox[i])
    ensures forall i, j | 0 <= i < j < |db.outbox| :: db.outbox[i].id != db.outbox[j].id
  {
    hide Reachable, RowsOk, LedgerOk, Chained, ClaimsOk, TallyOk, EventsChained, Replay, EventOk;
    ReachableParts(db);
    assert WalletAgrees(db, w);
  }
}
