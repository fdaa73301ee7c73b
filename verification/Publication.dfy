/** The engine and its publishers over one database: the events a commit appends are outbox rows from that commit on
    (internal/application/service.go:454-642, internal/adapters/postgres/outbox.go,
    internal/adapters/outbox/publisher.go). */
module Publication {
  import opened Wager
  import opened Tables
  import opened Invariants
  import opened Outbox
  import Interleaving
  import SystemSafety
  import Fencing = OutboxFencing

  /** The committed tables with the processes over them, and the rows of outbox_events with the publishers over
      those. */
  datatype Whole = Whole(engine: Interleaving.System, box: Fencing.State)

  datatype WholeStep =
    | Engine(operation: Interleaving.Step)
    | Publisher(publication: Fencing.Step)

  /** Rows come from commits only. */
  predicate Enabled(w: Whole, step: WholeStep) {
    match step
    case Engine(s) => Interleaving.Enabled(w.engine, s)
    case Publisher(s) => Fencing.Enabled(w.box, s) && !s.Insert?
  }

  /** One row per event, created under the reading the event carries. */
  function InsertAll(box: Fencing.State, events: seq<Event>): Fencing.State
    decreases events
  {
    if events == [] then box
    else
      var e := events[0];
      InsertAll(box.(rows := box.rows[e.id := NewOutboxRow(e, e.occurredAt)],
                     latest := Fencing.Later(box.latest, e.occurredAt)), events[1..])
  }

  /** The events a step has appended. */
  function NewEvents(before: seq<Event>, after: seq<Event>): seq<Event> {
    if |before| <= |after| then after[|before|..] else []
  }

  function Do(w: Whole, step: WholeStep): Whole
    requires Enabled(w, step)
  {
    match step
    case Engine(s) =>
      var next := Interleaving.Do(w.engine, s);
      Whole(next, InsertAll(w.box, NewEvents(w.engine.db.outbox, next.db.outbox)))
    case Publisher(s) => w.(box := Fencing.Do(w.box, s))
  }

  ghost predicate Next(w: Whole, x: Whole) {
    exists step :: Enabled(w, step) && x == Do(w, step)
  }

  ghost predicate Run(trace: seq<Whole>) {
    && trace != [] && Interleaving.Init(trace[0].engine) && Fencing.Init(trace[0].box)
    && forall i | 0 <= i < |trace| - 1 :: Next(trace[i], trace[i + 1])
  }

  /** The rows are exactly the committed events, each with its snapshot. */
  ghost predicate Mirrors(outbox: seq<Event>, rows: OutboxTable) {
    && (forall k | 0 <= k < |outbox| :: outbox[k].id in rows && rows[outbox[k].id].payload == outbox[k])
    && (forall id | id in rows :: exists k :: 0 <= k < |outbox| && outbox[k].id == id)
  }

  // ----- Inserting a commit's events -----

  ghost predicate Insertable(rows: OutboxTable, events: seq<Event>) {
    && (forall k | 0 <= k < |events| :: events[k].id != 0 && events[k].id !in rows)
    && (forall j, k | 0 <= j < k < |events| :: events[j].id != events[k].id)
  }

  lemma BoxRunExtends(run: seq<Fencing.State>, t: Fencing.State)
    requires Fencing.Run(run) && Fencing.Next(run[|run| - 1], t)
    ensures Fencing.Run(run + [t])
  {
    var post := run + [t];
    forall i | 0 <= i < |post| - 1 ensures Fencing.Next(post[i], post[i + 1]) {
      if i < |run| - 1 {
        assert Fencing.Next(run[i], run[i + 1]);
      }
    }
  }

  /** Inserting them one by one is a run of the outbox. */
  lemma {:induction false} InsertsRun(run: seq<Fencing.State>, events: seq<Event>) returns (post: seq<Fencing.State>)
    requires Fencing.Run(run) && Insertable(run[|run| - 1].rows, events)
    ensures Fencing.Run(post) && post[|post| - 1] == InsertAll(run[|run| - 1], events)
    decreases events
  {
    if events == [] {
      post := run;
    } else {
      var box, e := run[|run| - 1], events[0];
      var step := Fencing.Insert(e, e.occurredAt);
      assert Fencing.Enabled(box, step);
      var next := Fencing.Do(box, step);
      assert Fencing.Next(box, next);
      BoxRunExtends(run, next);
      assert Insertable(next.rows, events[1..]);
      post := InsertsRun(run + [next], events[1..]);
    }
  }

  lemma {:induction false} InsertedRows(box: Fencing.State, events: seq<Event>)
    requires Insertable(box.rows, events)
    ensures var after := InsertAll(box, events).rows;
            && (forall id | id in box.rows :: id in after && after[id] == box.rows[id])
            && (forall k | 0 <= k < |events| ::
                  events[k].id in after && after[events[k].id] == NewOutboxRow(events[k], events[k].occurredAt))
            && (forall id | id in after && id !in box.rows :: exists k :: 0 <= k < |events| && events[k].id == id)
    decreases events
  {
    if events != [] {
      var e, rest := events[0], events[1..];
      var next := box.(rows := box.rows[e.id := NewOutboxRow(e, e.occurredAt)],
                       latest := Fencing.Later(box.latest, e.occurredAt));
      InsertedRows(next, rest);
      var after := InsertAll(box, events).rows;
      forall id | id in after && id !in box.rows ensures exists k :: 0 <= k < |events| && events[k].id == id {
        if id == e.id {
          assert events[0].id == id;
        } else {
          var k :| 0 <= k < |rest| && rest[k].id == id;
          assert events[k + 1].id == id;
        }
      }
    }
  }

  lemma EventsAreDistinct(db: Db)
    requires Inv(db)
    ensures forall k | 0 <= k < |db.outbox| :: db.outbox[k].id != 0
    ensures forall j, k | 0 <= j < k < |db.outbox| :: db.outbox[j].id != db.outbox[k].id
  {
    forall k | 0 <= k < |db.outbox| ensures db.outbox[k].id != 0 {
      assert EventOk(db.rows, db.wallets, db.outbox[k]);
    }
  }

  lemma AppendedAreInsertable(before: seq<Event>, after: seq<Event>, rows: OutboxTable)
    requires before <= after && Mirrors(before, rows)
    requires forall k | 0 <= k < |after| :: after[k].id != 0
    requires forall j, k | 0 <= j < k < |after| :: after[j].id != after[k].id
    ensures Insertable(rows, NewEvents(before, after))
  {
    var events := NewEvents(before, after);
    forall k | 0 <= k < |events| ensures events[k].id != 0 && events[k].id !in rows {
      assert events[k] == after[|before| + k];
      assert forall j | 0 <= j < |before| :: before[j] == after[j];
    }
  }

  lemma MirrorsOn(before: seq<Event>, after: seq<Event>, box: Fencing.State)
    requires before <= after && Mirrors(before, box.rows) && Insertable(box.rows, NewEvents(before, after))
    ensures Mirrors(after, InsertAll(box, NewEvents(before, after)).rows)
  {
    hide InsertAll;
    var events := NewEvents(before, after);
    InsertedRows(box, events);
    var rows := InsertAll(box, events).rows;
    forall k | 0 <= k < |after| ensures after[k].id in rows && rows[after[k].id].payload == after[k] {
      if k < |before| {
        assert before[k] == after[k];
      } else {
        assert events[k - |before|] == after[k];
      }
    }
    forall id | id in rows ensures exists k :: 0 <= k < |after| && after[k].id == id {
      if id in box.rows {
        var k :| 0 <= k < |before| && before[k].id == id;
        assert after[k].id == id;
      } else {
        var k :| 0 <= k < |events| && events[k].id == id;
        assert after[|before| + k].id == id;
      }
    }
  }

  // ----- Steps -----

  ghost predicate WholeOk(w: Whole) {
    SystemSafety.SysOk(w.engine) && Mirrors(w.engine.db.outbox, w.box.rows)
  }

  lemma EngineAppends(w: Whole, step: Interleaving.Step)
    requires WholeOk(w) && Interleaving.Enabled(w.engine, step)
    ensures var next := Interleaving.Do(w.engine, step);
            && SystemSafety.SysOk(next) && w.engine.db.outbox <= next.db.outbox
            && Insertable(w.box.rows, NewEvents(w.engine.db.outbox, next.db.outbox))
  {
    SystemSafety.StepKeeps(w.engine, step);
    var next := Interleaving.Do(w.engine, step);
    hide Interleaving.Do, Interleaving.Enabled, Mirrors, SystemSafety.Exclusive, SystemSafety.SerialsOk,
         SystemSafety.ProcsOk, Inv, Insertable, NewEvents;
    EventsAreDistinct(next.db);
    AppendedAreInsertable(w.engine.db.outbox, next.db.outbox, w.box.rows);
  }

  lemma PublishersKeepRows(box: Fencing.State, step: Fencing.Step)
    requires Fencing.Enabled(box, step) && !step.Insert?
    ensures Fencing.Do(box, step).rows.Keys == box.rows.Keys
  {
    if step.ClaimBatch? {
      Fencing.BatchRows(box, step.p, step.now, step.picked);
    }
  }

  lemma PublishersMirror(outbox: seq<Event>, box: Fencing.State, step: Fencing.Step)
    requires Mirrors(outbox, box.rows) && Fencing.Enabled(box, step) && !step.Insert?
    ensures Mirrors(outbox, Fencing.Do(box, step).rows)
  {
    PublishersKeepRows(box, step);
    hide Fencing.Do, Fencing.Enabled;
    forall id | id in box.rows ensures Fencing.Do(box, step).rows[id].payload == box.rows[id].payload {
      Fencing.StepFreezesSnapshots(box, step, id);
    }
  }

  lemma StepMirrors(w: Whole, step: WholeStep)
    requires WholeOk(w) && Enabled(w, step)
    ensures WholeOk(Do(w, step))
  {
    hide Interleaving.Do, Interleaving.Enabled, Fencing.Do, Fencing.Enabled, Mirrors, SystemSafety.SysOk, InsertAll,
         NewEvents, Insertable;
    match step
    case Engine(s) =>
      EngineAppends(w, s);
      MirrorsOn(w.engine.db.outbox, Interleaving.Do(w.engine, s).db.outbox, w.box);
    case Publisher(s) => PublishersMirror(w.engine.db.outbox, w.box, s);
  }

  // ----- Runs -----

  lemma StartMirrors(trace: seq<Whole>)
    requires Run(trace)
    ensures WholeOk(trace[0]) && Fencing.Run([trace[0].box]) && [trace[0].box][0] == trace[0].box
  {
    SystemSafety.InitIsOk(trace[0].engine);
    hide SystemSafety.SysOk;
  }

  /** What the outbox goes through is a run of the publishing machine, so everything guaranteed of its runs holds
      here. */
  lemma {:induction false} BoxRuns(trace: seq<Whole>, i: nat) returns (run: seq<Fencing.State>)
    requires Run(trace) && i < |trace|
    ensures WholeOk(trace[i]) && Fencing.Run(run) && run[|run| - 1] == trace[i].box
  {
    hide WholeOk, Next, Interleaving.Init, Fencing.Init, Fencing.Next;
    if i == 0 {
      StartMirrors(trace);
      run := [trace[0].box];
    } else {
      run := BoxRuns(trace, i - 1);
      assert Next(trace[i - 1], trace[i - 1 + 1]);
      run := BoxAdvances(trace[i - 1], trace[i], run);
    }
  }

  lemma BoxAdvances(w: Whole, x: Whole, run: seq<Fencing.State>) returns (post: seq<Fencing.State>)
    requires WholeOk(w) && Next(w, x) && Fencing.Run(run) && run[|run| - 1] == w.box
    ensures WholeOk(x) && Fencing.Run(post) && post[|post| - 1] == x.box
  {
    hide Interleaving.Do, Interleaving.Enabled, Fencing.Do, Fencing.Enabled, WholeOk, InsertAll, NewEvents, Insertable;
    var step :| Enabled(w, step) && x == Do(w, step);
    StepMirrors(w, step);
    match step
    case Engine(s) =>
      EngineAppends(w, s);
      post := InsertsRun(run, NewEvents(w.engine.db.outbox, x.engine.db.outbox));
    case Publisher(s) =>
      assert Fencing.Next(w.box, x.box);
      BoxRunExtends(run, x.box);
      post := run + [x.box];
  }

  lemma EventsStay(w: Whole, x: Whole)
    requires WholeOk(w) && Next(w, x)
    ensures w.engine.db.outbox <= x.engine.db.outbox
  {
    hide Interleaving.Do, Interleaving.Enabled, Fencing.Do, Fencing.Enabled, WholeOk, InsertAll, NewEvents, Insertable;
    var step :| Enabled(w, step) && x == Do(w, step);
    if step.Engine? {
      EngineAppends(w, step.operation);
    }
  }

  lemma {:induction false} CommittedEventsStay(trace: seq<Whole>, i: nat, j: nat)
    requires Run(trace) && i <= j < |trace|
    ensures trace[i].engine.db.outbox <= trace[j].engine.db.outbox
    decreases j
  {
    hide WholeOk, Fencing.Run, Next, Interleaving.Init, Fencing.Init;
    if i < j {
      CommittedEventsStay(trace, i, j - 1);
      var run := BoxRuns(trace, j - 1);
      assert Next(trace[j - 1], trace[j - 1 + 1]);
      EventsStay(trace[j - 1], trace[j]);
    }
  }

  predicate Handed(calls: seq<Fencing.Call>, e: Event) {
    exists c | 0 <= c < |calls| :: calls[c].id == e.id && calls[c].accepted && calls[c].payload == e
  }

  /** No committed event is lost or invented. From the commit that appends it on, over every interleaving of processes
      and publishers with stops, lost replies and clocks of their own, an event is an outbox row with its own snapshot;
      once the row is confirmed the sender has accepted that snapshot; until then it is due again from five minutes
      after the highest reading taken. */
  lemma CommittedEventsArePublished(trace: seq<Whole>, i: nat, j: nat, k: nat, later: Time)
    requires Run(trace) && i <= j < |trace| && k < |trace[i].engine.db.outbox|
    requires later >= trace[j].box.latest + BACKOFF_CAP
    ensures var e, rows := trace[i].engine.db.outbox[k], trace[j].box.rows;
            && e.id in rows && rows[e.id].payload == e
            && (if rows[e.id].publishedAt != 0 then Handed(trace[j].box.calls, e) else DueEvent(rows[e.id], later))
  {
    hide Run, Fencing.Run, SystemSafety.SysOk;
    CommittedEventsStay(trace, i, j);
    var run := BoxRuns(trace, j);
    var e := trace[i].engine.db.outbox[k];
    assert e == trace[j].engine.db.outbox[k];
    LastOf(run);
    if trace[j].box.rows[e.id].publishedAt != 0 {
      Fencing.ConfirmedWasAccepted(run, |run| - 1, e.id);
    } else {
      Fencing.UnconfirmedBecomesClaimable(run, |run| - 1, e.id, later);
    }
  }

  lemma LastOf(run: seq<Fencing.State>)
    requires Fencing.Run(run)
    ensures run != []
  {
  }

  /** What is handed to the sender is always a committed event. */
  lemma OnlyCommittedEventsAreSent(trace: seq<Whole>, j: nat, c: nat)
    requires Run(trace) && j < |trace| && c < |trace[j].box.calls|
    ensures exists k ::
              0 <= k < |trace[j].engine.db.outbox| && trace[j].engine.db.outbox[k] == trace[j].box.calls[c].payload
  {
    hide Run, SystemSafety.SysOk;
    var run := BoxRuns(trace, j);
    SentIsStored(run, c);
    var id := trace[j].box.calls[c].id;
    var k :| 0 <= k < |trace[j].engine.db.outbox| && trace[j].engine.db.outbox[k].id == id;
  }

  lemma SentIsStored(run: seq<Fencing.State>, c: nat)
    requires Fencing.Run(run) && c < |run[|run| - 1].calls|
    ensures var s := run[|run| - 1]; s.calls[c].id in s.rows && s.calls[c].payload == s.rows[s.calls[c].id].payload
  {
    Fencing.RunsAreFenced(run, |run| - 1);
    hide Fencing.ClaimsOk, Fencing.EndedOk, Fencing.PublishedOk, Fencing.RowsOk, Fencing.PassOk;
  }
}
