/** At-least-once queue delivery around the interleaved engine (internal/adapters/sqs/consumer/consumer.go:149-269,
    internal/adapters/postgres/inbox.go): any message not deleted may be received again, by any consumer, while earlier
    work on it is still running, has stopped, or has committed without its consumer hearing of it. */
module Delivery {
  import opened Results
  import opened Wager
  import opened Commands
  import opened Tables
  import opened Settlement
  import opened Operations
  import opened Invariants
  import opened OperationSafety
  import opened Interleaving
  import opened Noninterference
  import opened SystemSafety
  import opened RunBuilding
  import opened Commitment
  import AppErrors
  import Guarantees
  import LocalSteps

  type ConsumerId = nat
  type MessageRef = nat

  /** acceptable: the envelope decodes and its sender is authorised for its provider. */
  datatype Message = Message(messageId: string, body: Body, acceptable: bool)

  datatype Consumer = Idle | Handling(message: MessageRef, proc: ProcId)

  /** messages are all ever sent; a deleted one is never received again. */
  datatype Queue = Queue(
    engine: System,
    consumerName: string,
    messages: map<MessageRef, Message>,
    deleted: set<MessageRef>,
    consumers: map<ConsumerId, Consumer>)

  datatype QueueStep =
    | Send(ref: MessageRef, message: Message)
    | Receive(consumer: ConsumerId, ref: MessageRef, proc: ProcId)
    | Acknowledge(consumer: ConsumerId)
    | LetGo(consumer: ConsumerId)
    | Engine(step: Step)

  function DeliveryOf(q: Queue, m: Message): InboxDelivery {
    InboxDelivery(q.consumerName, m.messageId, m.body, q.engine.clock)
  }

  function OpOf(q: Queue, m: Message): Op {
    Submission(m.body.command, Some(DeliveryOf(q, m)))
  }

  function ConsumerOf(q: Queue, c: ConsumerId): Consumer {
    if c in q.consumers then q.consumers[c] else Idle
  }

  predicate IsHandled(q: Queue, p: ProcId) {
    exists c | c in q.consumers :: q.consumers[c].Handling? && q.consumers[c].proc == p
  }

  /** The consumer hears the answers that confirm a durable commit. */
  predicate Confirmed(pr: Proc) {
    pr.phase.Finished? && (pr.phase.answer.Success? || pr.phase.answer.DuplicateDelivery?)
  }

  predicate QueueEnabled(q: Queue, step: QueueStep) {
    match step
    case Send(ref, _) => ref !in q.messages
    case Receive(c, ref, p) =>
      ref in q.messages && ref !in q.deleted && ConsumerOf(q, c).Idle? && p !in q.engine.procs && !IsHandled(q, p)
    case Acknowledge(c) =>
      ConsumerOf(q, c).Handling? && ConsumerOf(q, c).proc in q.engine.procs
        && Confirmed(q.engine.procs[ConsumerOf(q, c).proc])
    case LetGo(c) => ConsumerOf(q, c).Handling?
    case Engine(s) =>
      Enabled(q.engine, s) && (s.Start? || s.StopStep? ==> !IsHandled(q, s.p))
  }

  /** A message that is not acceptable is abandoned at once. Letting go stands for every end that keeps the message:
      release on shutdown or timeout, backoff, abandonment, a failed delete, a stopped consumer. Work let go of runs
      on. */
  function DoQueue(q: Queue, step: QueueStep): Queue
    requires QueueEnabled(q, step)
  {
    match step
    case Send(ref, m) => q.(messages := q.messages[ref := m])
    case Receive(c, ref, p) =>
      if q.messages[ref].acceptable then
        q.(engine := Do(q.engine, Start(p, OpOf(q, q.messages[ref]))), consumers := q.consumers[c := Handling(ref, p)])
      else q
    case Acknowledge(c) => q.(deleted := q.deleted + {ConsumerOf(q, c).message}, consumers := q.consumers[c := Idle])
    case LetGo(c) => q.(consumers := q.consumers[c := Idle])
    case Engine(s) => q.(engine := Do(q.engine, s))
  }

  predicate QueueInit(q: Queue) {
    Init(q.engine) && q.messages == map[] && q.deleted == {} && q.consumers == map[]
  }

  ghost predicate QueueNext(q: Queue, r: Queue) {
    exists step :: QueueEnabled(q, step) && r == DoQueue(q, step)
  }

  ghost predicate QueueRun(trace: seq<Queue>) {
    && trace != [] && QueueInit(trace[0])
    && forall i | 0 <= i < |trace| - 1 :: QueueNext(trace[i], trace[i + 1])
  }

  // ----- What holds in every state -----

  /** The message's delivery is recorded, completed, and its operation's row is stored. */
  predicate Durable(db: Db, consumerName: string, m: Message) {
    && (consumerName, m.messageId) in db.inbox
    && db.inbox[(consumerName, m.messageId)].digest == m.body
    && db.inbox[(consumerName, m.messageId)].completedAt != 0
    && (m.body.command.providerId, m.body.command.idempotencyKey) in db.byKey
  }

  predicate HandlesOwn(q: Queue, c: Consumer) {
    c.Handling? ==>
      && c.message in q.messages
      && (c.proc in q.engine.procs ==>
            var op := q.engine.procs[c.proc].op;
            && op.Submission? && op.delivery.Some? && op.cmd == q.messages[c.message].body.command
            && InboxKeyOf(op.delivery.value) == (q.consumerName, q.messages[c.message].messageId)
            && op.delivery.value.digest == q.messages[c.message].body)
  }

  ghost predicate QueueOk(q: Queue) {
    && SysOk(q.engine)
    && (forall c | c in q.consumers :: HandlesOwn(q, q.consumers[c]))
    && (forall ref | ref in q.deleted :: ref in q.messages && Durable(q.engine.db, q.consumerName, q.messages[ref]))
  }

  lemma DurableStays(a: Db, b: Db, name: string, m: Message)
    requires Grows(a, b) && Durable(a, name, m)
    ensures Durable(b, name, m)
  {
  }

  lemma OpsNeverChange(s: System, step: Step, p: ProcId)
    requires Enabled(s, step) && p in Do(s, step).procs && !(step.Start? && step.p == p)
    ensures p in s.procs && Do(s, step).procs[p].op == s.procs[p].op
  {
    match step
    case Local(q, a) =>
      if p == q {
        ActionKeepsOp(s, s.procs[p], a);
      }
    case _ =>
  }

  lemma ActionKeepsOp(s: System, pr: Proc, a: Action)
    requires PhaseFits(pr, a)
    ensures AfterAction(s, pr, a).op == pr.op
  {
    hide LookupKey, LookupExternal, LookupWallet, NewTransaction, Settle, OpenWallet, OpenStatements, LoadReference,
         Rehydrate, ReplayOrConflict, ExternalAnswer, View, ClaimRead, Statements;
  }

  lemma EngineKeeps(q: Queue, step: Step)
    requires QueueOk(q) && QueueEnabled(q, Engine(step))
    ensures QueueOk(DoQueue(q, Engine(step)))
  {
    hide SysOk, Enabled, Do, Grows, Durable;
    StepKeeps(q.engine, step);
    var r := DoQueue(q, Engine(step));
    forall ref | ref in r.deleted ensures Durable(r.engine.db, r.consumerName, r.messages[ref]) {
      DurableStays(q.engine.db, r.engine.db, q.consumerName, q.messages[ref]);
    }
    forall c | c in r.consumers ensures HandlesOwn(r, r.consumers[c]) {
      var consumer := q.consumers[c];
      assert HandlesOwn(q, consumer);
      if consumer.Handling? && consumer.proc in r.engine.procs {
        assert IsHandled(q, consumer.proc);
        OpsNeverChange(q.engine, step, consumer.proc);
      }
    }
  }

  lemma ReceiveKeeps(q: Queue, c: ConsumerId, ref: MessageRef, p: ProcId)
    requires QueueOk(q) && QueueEnabled(q, Receive(c, ref, p))
    ensures QueueOk(DoQueue(q, Receive(c, ref, p)))
  {
    hide SysOk, Durable;
    var m := q.messages[ref];
    if m.acceptable {
      var step := Start(p, OpOf(q, m));
      StepKeeps(q.engine, step);
      var r := DoQueue(q, Receive(c, ref, p));
      forall d | d in r.consumers ensures HandlesOwn(r, r.consumers[d]) {
        StartedKeepsOp(OpOf(q, m), q.engine.clock);
        if d != c {
          assert HandlesOwn(q, q.consumers[d]);
          assert q.consumers[d].Handling? ==> q.consumers[d].proc != p;
        }
      }
    }
  }

  lemma StartedKeepsOp(op: Op, now: Time)
    ensures Started(op, now).op == op
  {
    hide Precheck;
  }

  /** A confirmed delivery is durable. */
  lemma ConfirmedIsDurable(q: Queue, c: ConsumerId)
    requires QueueOk(q) && QueueEnabled(q, Acknowledge(c))
    ensures var ref := ConsumerOf(q, c).message;
            ref in q.messages && Durable(q.engine.db, q.consumerName, q.messages[ref])
  {
    hide Exclusive, SerialsOk;
    assert HandlesOwn(q, q.consumers[c]);
    var pr := q.engine.procs[q.consumers[c].proc];
    assert ProcOk(q.engine.db, pr);
    AnswerIsRecorded(q.engine.db, pr);
  }

  lemma AnswerIsRecorded(db: Db, pr: Proc)
    requires Inv(db) && ProcOk(db, pr) && Confirmed(pr) && pr.op.Submission? && pr.op.delivery.Some?
    ensures var k := InboxKeyOf(pr.op.delivery.value);
            && k in db.inbox && db.inbox[k].digest == pr.op.delivery.value.digest && db.inbox[k].completedAt != 0
            && (pr.op.delivery.value.digest.command.providerId, pr.op.delivery.value.digest.command.idempotencyKey)
               in db.byKey
  {
    InvParts(db);
    hide Inv;
  }

  lemma AcknowledgeKeeps(q: Queue, c: ConsumerId)
    requires QueueOk(q) && QueueEnabled(q, Acknowledge(c))
    ensures QueueOk(DoQueue(q, Acknowledge(c)))
  {
    hide SysOk, Durable, Confirmed, HandlesOwn, Do, Enabled, QueueOk;
    ConfirmedIsDurable(q, c);
    IdleKeeps(q, c);
    DeleteKeeps(q.(consumers := q.consumers[c := Idle]), ConsumerOf(q, c).message);
  }

  lemma DeleteKeeps(q: Queue, ref: MessageRef)
    requires QueueOk(q) && ref in q.messages && Durable(q.engine.db, q.consumerName, q.messages[ref])
    ensures QueueOk(q.(deleted := q.deleted + {ref}))
  {
    hide SysOk, Durable, HandlesOwn;
    var r := q.(deleted := q.deleted + {ref});
    forall d | d in r.consumers ensures HandlesOwn(r, r.consumers[d]) {
      HandlesSame(q, r, r.consumers[d]);
    }
  }

  lemma HandlesSame(q: Queue, r: Queue, c: Consumer)
    requires HandlesOwn(q, c) && r.engine == q.engine && r.messages == q.messages && r.consumerName == q.consumerName
    ensures HandlesOwn(r, c)
  {
  }

  lemma QueueStepKeeps(q: Queue, step: QueueStep)
    requires QueueOk(q) && QueueEnabled(q, step)
    ensures QueueOk(DoQueue(q, step))
  {
    hide QueueOk, HandlesOwn, Enabled, IsHandled, Confirmed, Do;
    match step
    case Send(ref, m) => SendKeeps(q, ref, m);
    case Receive(c, ref, p) => ReceiveKeeps(q, c, ref, p);
    case Acknowledge(c) => AcknowledgeKeeps(q, c);
    case LetGo(c) => IdleKeeps(q, c);
    case Engine(s) => EngineKeeps(q, s);
  }

  lemma SendKeeps(q: Queue, ref: MessageRef, m: Message)
    requires QueueOk(q) && ref !in q.messages
    ensures QueueOk(q.(messages := q.messages[ref := m]))
  {
    hide SysOk, Durable;
    var r := q.(messages := q.messages[ref := m]);
    forall c | c in r.consumers ensures HandlesOwn(r, r.consumers[c]) {
      assert HandlesOwn(q, q.consumers[c]);
    }
  }

  lemma IdleKeeps(q: Queue, c: ConsumerId)
    requires QueueOk(q)
    ensures QueueOk(q.(consumers := q.consumers[c := Idle]))
  {
    hide SysOk, Durable;
    var r := q.(consumers := q.consumers[c := Idle]);
    forall d | d in r.consumers ensures HandlesOwn(r, r.consumers[d]) {
      if d != c {
        assert HandlesOwn(q, q.consumers[d]);
      }
    }
  }

  lemma {:induction false} QueuesAreSafe(trace: seq<Queue>, i: nat)
    requires QueueRun(trace) && i < |trace|
    ensures QueueOk(trace[i])
  {
    hide QueueOk, QueueEnabled, DoQueue;
    if i == 0 {
      QueueInitIsOk(trace[0]);
    } else {
      QueuesAreSafe(trace, i - 1);
      assert QueueNext(trace[i - 1], trace[i - 1 + 1]);
      var step :| QueueEnabled(trace[i - 1], step) && trace[i] == DoQueue(trace[i - 1], step);
      QueueStepKeeps(trace[i - 1], step);
    }
  }

  lemma QueueInitIsOk(q: Queue)
    requires QueueInit(q)
    ensures QueueOk(q)
  {
    InitIsOk(q.engine);
    hide SysOk, Durable;
  }

  lemma EngineStep(q: Queue, step: QueueStep)
    requires QueueEnabled(q, step)
    ensures DoQueue(q, step).engine == q.engine || Next(q.engine, DoQueue(q, step).engine)
  {
    hide Do, Enabled, Started;
    match step
    case Receive(c, ref, p) =>
      if q.messages[ref].acceptable {
        StartsDelivery(q, ref, p);
      }
    case Engine(s) => assert Enabled(q.engine, s) && DoQueue(q, step).engine == Do(q.engine, s);
    case _ =>
  }

  lemma StartsDelivery(q: Queue, ref: MessageRef, p: ProcId)
    requires ref in q.messages && p !in q.engine.procs
    ensures Enabled(q.engine, Start(p, OpOf(q, q.messages[ref])))
    ensures Next(q.engine, Do(q.engine, Start(p, OpOf(q, q.messages[ref]))))
  {
  }

  /** What happens around the queue is a run of the engine, so everything guaranteed of reachable states holds here. */
  lemma {:induction false} EngineRuns(trace: seq<Queue>, i: nat) returns (run: seq<System>)
    requires QueueRun(trace) && i < |trace|
    ensures Run(run) && run[|run| - 1] == trace[i].engine && Guarantees.Reachable(trace[i].engine.db)
  {
    hide QueueEnabled, DoQueue, Next;
    if i == 0 {
      run := [trace[0].engine];
    } else {
      var before := EngineRuns(trace, i - 1);
      assert QueueNext(trace[i - 1], trace[i - 1 + 1]);
      var step :| QueueEnabled(trace[i - 1], step) && trace[i] == DoQueue(trace[i - 1], step);
      EngineStep(trace[i - 1], step);
      if trace[i].engine == trace[i - 1].engine {
        run := before;
      } else {
        RunExtends(before, trace[i].engine);
        run := before + [trace[i].engine];
      }
    }
    assert run[|run| - 1].db == trace[i].engine.db;
  }

  /** However often a command is delivered, redelivered or copied over HTTP, it moves money at most once. */
  lemma DeliveriesMoveMoneyOnce(trace: seq<Queue>, i: nat, cmd: SubmitWagerCommand, j: nat, k: nat)
    requires QueueRun(trace) && i < |trace|
    requires var db := trace[i].engine.db;
             && j < |db.ledger| && k < |db.ledger|
             && db.ledger[j].transactionId in db.rows && db.ledger[k].transactionId in db.rows
             && db.rows[db.ledger[j].transactionId].txn.origin == External
                && db.rows[db.ledger[k].transactionId].txn.origin == External
             && KeyOf(db.rows[db.ledger[j].transactionId].txn) == (cmd.providerId, cmd.idempotencyKey)
             && KeyOf(db.rows[db.ledger[k].transactionId].txn) == (cmd.providerId, cmd.idempotencyKey)
    ensures j == k
  {
    hide QueueRun, Run, Guarantees.Reachable, KeyOf;
    var run := EngineRuns(trace, i);
    Guarantees.CommandsMoveMoneyOnce(trace[i].engine.db, j, k);
  }

  /** Over any run of deliveries, redeliveries, copies over HTTP, stops between commit and delete, lost replies and work
      that commits after its consumer has given up: a message is deleted only once its delivery record is committed,
      completed and equal to it, and its operation's row is stored; and every committed delivery record is complete
      and has a stored row under its provider and key. */
  lemma DeletedMessagesAreDurable(trace: seq<Queue>, i: nat, ref: MessageRef)
    requires QueueRun(trace) && i < |trace| && ref in trace[i].deleted
    ensures var q := trace[i];
            && ref in q.messages
            && Durable(q.engine.db, q.consumerName, q.messages[ref])
            && var cmd := q.messages[ref].body.command;
               var id := q.engine.db.byKey[(cmd.providerId, cmd.idempotencyKey)];
               id in q.engine.db.rows && KeyOf(q.engine.db.rows[id].txn) == (cmd.providerId, cmd.idempotencyKey)
  {
    QueuesAreSafe(trace, i);
    hide Exclusive, SerialsOk, ProcsOk, IndexOk, HandlesOwn, QueueRun, Inv;
    var q := trace[i];
    IndexesOf(q.engine.db);
    var cmd := q.messages[ref].body.command;
    IndexEntry(q.engine.db.rows, q.engine.db.byKey, KeyOf, (cmd.providerId, cmd.idempotencyKey));
  }

  lemma DeliveriesAreComplete(trace: seq<Queue>, i: nat, k: InboxKey)
    requires QueueRun(trace) && i < |trace| && k in trace[i].engine.db.inbox
    ensures var db := trace[i].engine.db;
            && db.inbox[k].completedAt != 0
            && (db.inbox[k].digest.command.providerId, db.inbox[k].digest.command.idempotencyKey) in db.byKey
  {
    QueuesAreSafe(trace, i);
    hide Exclusive, SerialsOk, ProcsOk, Inv, Durable, QueueRun;
    InvParts(trace[i].engine.db);
  }

  // ----- Redeliveries -----

  /** Every delivery record belongs to a valid delivery of a valid command. */
  ghost predicate RecordsValid(inbox: map<InboxKey, InboxRow>) {
    forall k | k in inbox :: k.0 != "" && k.1 != "" && Validate(inbox[k].digest.command).Ok?
  }

  lemma RecordExtends(inbox: map<InboxKey, InboxRow>, op: Op, row: InboxRow)
    requires RecordsValid(inbox) && OpOk(op) && op.Submission? && op.delivery.Some?
    requires row.digest == op.delivery.value.digest
    ensures RecordsValid(inbox[InboxKeyOf(op.delivery.value) := row])
  {
    hide Validate;
  }

  lemma CommittedRecords(db: Db, pr: Proc)
    requires Inv(db) && ProcOk(db, pr) && ReadyToCommit(pr)
    requires SerialOf(pr) != 0 ==> SerialFresh(db, SerialOf(pr))
    requires RecordsValid(db.inbox)
    ensures RecordsValid(ApplyAll(db, pr.done).inbox)
  {
    hide Inv, ProcOk, SerialFresh, RecordsValid, ApplyAll, ApplyEffect, ApplyOpened, Landed, OpOk;
    LocalSteps.OpSurvives(db, pr);
    if pr.phase.Writing? {
      LocalSteps.EnvOfWork(db, pr);
      WritingCommits(db, pr);
      EffectLeavesInbox(db, pr.phase.settled.effect);
      if pr.op.Submission? && pr.op.delivery.Some? {
        var d := pr.op.delivery.value;
        RecordExtends(db.inbox, pr.op, InboxRow(d.digest, d.receivedAt, pr.phase.completedAt));
      }
    } else if pr.phase.Completing? {
      CompletingCommits(db, pr);
      var d := pr.op.delivery.value;
      RecordExtends(db.inbox, pr.op, InboxRow(d.digest, d.receivedAt, pr.phase.completedAt));
    } else {
      AccountCommits(db, pr);
      OpeningsAreNoDeliveries(db, pr.phase.account);
    }
  }

  lemma OpeningsAreNoDeliveries(db: Db, o: Opened)
    ensures ApplyOpened(db, o).inbox == db.inbox
  {
  }

  lemma {:induction false} LeasesAreNoDeliveries(db: Db, picked: seq<TransactionId>, now: Time, lease: nat)
    ensures LeaseReferences(db, picked, now, lease).inbox == db.inbox
    decreases picked
  {
    if picked != [] {
      LeasesAreNoDeliveries(LeaseReference(db, picked[0], now, lease), picked[1..], now, lease);
    }
  }

  lemma StepRecords(s: System, step: Step)
    requires SysOk(s) && Enabled(s, step) && RecordsValid(s.db.inbox)
    ensures RecordsValid(Do(s, step).db.inbox)
  {
    hide Inv, ProcOk, Exclusive, RecordsValid, SerialFresh, ApplyAll, LeaseEnabled, LocalEnabled, ReadyToCommit,
         AfterAction, Started, CommitAnswer, CommitEntry, LeaseReferences;
    match step
    case CommitStep(p, _) => CommittedRecords(s.db, s.procs[p]);
    case LeaseStep(picked, lease) => LeasesAreNoDeliveries(s.db, picked, s.clock, lease);
    case _ =>
  }

  lemma {:induction false} RecordsAreValid(trace: seq<System>, i: nat)
    requires Run(trace) && i < |trace|
    ensures RecordsValid(trace[i].db.inbox)
  {
    hide SysOk, Enabled, Do, RecordsValid;
    if i == 0 {
      NoRecordsYet(trace[0]);
    } else {
      RecordsAreValid(trace, i - 1);
      RunsAreSafe(trace, i - 1);
      assert Next(trace[i - 1], trace[i - 1 + 1]);
      var step :| Enabled(trace[i - 1], step) && trace[i] == Do(trace[i - 1], step);
      StepRecords(trace[i - 1], step);
    }
  }

  lemma NoRecordsYet(s: System)
    requires Init(s)
    ensures RecordsValid(s.db.inbox)
  {
  }

  /** A process delivers a body that is already recorded under its message: it has not read the record yet, or it has
      ended as a duplicate, on an error of the store or after too many deadlocks. */
  predicate AtRepeat(pr: Proc, key: InboxKey, body: Body) {
    && pr.op.Submission? && pr.op.delivery.Some? && InboxKeyOf(pr.op.delivery.value) == key
    && pr.op.delivery.value.digest == body
    && (pr.phase.BeginningInbox?
        || (pr.phase.Finished?
            && pr.phase.answer in {Answer.DuplicateDelivery, Failure(AppErrors.Transient), Answer.GaveUp}))
  }

  ghost predicate Repeats(s: System, p: ProcId, key: InboxKey, body: Body) {
    && key in s.db.inbox && s.db.inbox[key].digest == body && p in s.procs && AtRepeat(s.procs[p], key, body)
  }

  /** Its first statement finds the record, and nothing can hold that statement up. */
  lemma RepeatIsNoticed(s: System, p: ProcId, key: InboxKey, body: Body)
    requires Repeats(s, p, key, body) && s.procs[p].phase.BeginningInbox?
    ensures Enabled(s, Local(p, BeginInboxStep))
    ensures Do(s, Local(p, BeginInboxStep)).procs[p].phase == Finished(DuplicateDelivery)
  {
    var next := AfterAction(s, s.procs[p], BeginInboxStep);
    assert next == Finish(s.procs[p], DuplicateDelivery);
    forall q | q in s.procs && q != p ensures Disjoint(Holdings(next), Holdings(s.procs[q])) {
      hide Holdings;
      assert Holdings(next) == NOTHING_HELD by { FinishedHoldNothing(s.procs[p]); }
      NothingIsDisjoint(Holdings(s.procs[q]));
    }
  }

  lemma FinishedHoldNothing(pr: Proc)
    ensures Holdings(Finish(pr, DuplicateDelivery)) == NOTHING_HELD
  {
  }

  lemma RepeatActs(s: System, pr: Proc, a: Action, key: InboxKey, body: Body)
    requires key in s.db.inbox && s.db.inbox[key].digest == body && AtRepeat(pr, key, body) && PhaseFits(pr, a)
    ensures AtRepeat(AfterAction(s, pr, a), key, body)
  {
  }

  lemma RepeatGoesOn(s: System, step: Step, p: ProcId, key: InboxKey, body: Body)
    requires SysOk(s) && Enabled(s, step) && Repeats(s, p, key, body) && p in Do(s, step).procs
    ensures Repeats(Do(s, step), p, key, body)
  {
    hide SysOk, Grows, LeaseEnabled, LocalEnabled, AfterAction, LeaseReferences, ApplyAll, CommitEntry, Started,
         AtRepeat, ReadyToCommit, CommitAnswer;
    StepKeeps(s, step);
    RecordStays(s.db, Do(s, step).db, key);
    var pr := s.procs[p];
    match step
    case Local(q, a) =>
      if q == p {
        ActsThere(s, p, a);
        RepeatActs(s, pr, a, key, body);
      }
    case CommitStep(q, _) =>
      if q == p {
        RepeatNeverCommits(pr, key, body);
      }
    case _ =>
  }

  lemma ActsThere(s: System, p: ProcId, a: Action)
    requires LocalEnabled(s, p, a)
    ensures p in s.procs && PhaseFits(s.procs[p], a)
  {
    hide AfterAction, Available;
  }

  lemma RepeatNeverCommits(pr: Proc, key: InboxKey, body: Body)
    requires AtRepeat(pr, key, body)
    ensures !ReadyToCommit(pr)
  {
  }

  lemma RecordStays(a: Db, b: Db, key: InboxKey)
    requires Grows(a, b) && key in a.inbox
    ensures key in b.inbox && b.inbox[key] == a.inbox[key]
  {
  }

  lemma {:induction false} RepeatsThroughout(trace: seq<Queue>, i: nat, j: nat, p: ProcId, key: InboxKey, body: Body)
    requires QueueRun(trace) && i <= j < |trace| && Repeats(trace[i].engine, p, key, body)
    requires forall k | i <= k <= j :: p in trace[k].engine.procs
    ensures Repeats(trace[j].engine, p, key, body)
    decreases j
  {
    hide QueueEnabled, DoQueue, Repeats, SysOk, Next;
    if i < j {
      RepeatsThroughout(trace, i, j - 1, p, key, body);
      QueuesAreSafe(trace, j - 1);
      assert QueueNext(trace[j - 1], trace[j - 1 + 1]);
      var step :| QueueEnabled(trace[j - 1], step) && trace[j] == DoQueue(trace[j - 1], step);
      EngineStep(trace[j - 1], step);
      if trace[j].engine != trace[j - 1].engine {
        RepeatOverNext(trace[j - 1].engine, trace[j].engine, p, key, body);
      }
    }
  }

  lemma RepeatOverNext(s: System, t: System, p: ProcId, key: InboxKey, body: Body)
    requires SysOk(s) && Next(s, t) && Repeats(s, p, key, body) && p in t.procs
    ensures Repeats(t, p, key, body)
  {
    hide SysOk, Enabled, Do, Repeats;
    var step :| Enabled(s, step) && t == Do(s, step);
    RepeatGoesOn(s, step, p, key, body);
  }

  lemma ReceiveStartsRepeat(q: Queue, c: ConsumerId, ref: MessageRef, p: ProcId)
    requires QueueEnabled(q, Receive(c, ref, p)) && q.messages[ref].acceptable && q.engine.clock != 0
    requires Durable(q.engine.db, q.consumerName, q.messages[ref]) && RecordsValid(q.engine.db.inbox)
    ensures Repeats(DoQueue(q, Receive(c, ref, p)).engine, p, (q.consumerName, q.messages[ref].messageId),
                    q.messages[ref].body)
  {
    hide Validate;
  }

  /** A message whose delivery was completed before, its deletion having failed or its consumer having stopped, is
      recognised whenever it is received again: the process that handles it ends as a duplicate at its very first
      statement, whatever runs beside it, unless the store fails it or deadlocks exhaust its attempts; and once it has
      ended as a duplicate the acknowledgement is due and deletes the message for good. */
  lemma RedeliveriesAreDeleted(trace: seq<Queue>, i: nat, j: nat, c: ConsumerId, ref: MessageRef, p: ProcId)
    requires QueueRun(trace) && i < j < |trace| && QueueEnabled(trace[i], Receive(c, ref, p))
    requires trace[i + 1] == DoQueue(trace[i], Receive(c, ref, p)) && trace[i].messages[ref].acceptable
    requires Durable(trace[i].engine.db, trace[i].consumerName, trace[i].messages[ref])
    requires forall k | i < k <= j :: p in trace[k].engine.procs
    ensures var q := trace[j];
            var pr := q.engine.procs[p];
            if pr.phase.Finished? then
              && pr.phase.answer in {Answer.DuplicateDelivery, Failure(AppErrors.Transient), Answer.GaveUp}
              && (pr.phase.answer == DuplicateDelivery && ConsumerOf(q, c) == Handling(ref, p) ==>
                    QueueEnabled(q, Acknowledge(c)) && ref in DoQueue(q, Acknowledge(c)).deleted)
            else
              && QueueEnabled(q, Engine(Local(p, BeginInboxStep)))
              && DoQueue(q, Engine(Local(p, BeginInboxStep))).engine.procs[p].phase == Finished(DuplicateDelivery)
  {
    hide QueueRun, Repeats, Durable, SysOk, Next, Guarantees.Reachable, RecordsValid;
    var key, body := (trace[i].consumerName, trace[i].messages[ref].messageId), trace[i].messages[ref].body;
    var run := EngineRuns(trace, i);
    RecordsAreValid(run, |run| - 1);
    QueuesAreSafe(trace, i);
    ClockRuns(trace[i]);
    ReceiveStartsRepeat(trace[i], c, ref, p);
    RepeatsThroughout(trace, i + 1, j, p, key, body);
    RepeatEnds(trace[j].engine, p, key, body);
    if !trace[j].engine.procs[p].phase.Finished? {
      RepeatIsNoticed(trace[j].engine, p, key, body);
    }
  }

  lemma RepeatEnds(s: System, p: ProcId, key: InboxKey, body: Body)
    requires Repeats(s, p, key, body)
    ensures p in s.procs
            && (s.procs[p].phase.BeginningInbox?
                || (s.procs[p].phase.Finished?
                    && s.procs[p].phase.answer in {Answer.DuplicateDelivery, Failure(AppErrors.Transient),
                                                   Answer.GaveUp}))
  {
  }

  lemma ClockRuns(q: Queue)
    requires QueueOk(q)
    ensures q.engine.clock != 0
  {
    hide Inv, ProcsOk, Exclusive, SerialsOk, Durable, HandlesOwn;
  }
}
