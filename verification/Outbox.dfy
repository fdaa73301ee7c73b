/** The outbox table, its conditional updates and the publishing pass (internal/adapters/postgres/outbox_publisher.go,
    internal/adapters/postgres/outbox.go, internal/adapters/outbox/publisher.go). */
module Outbox {
  import opened Results
  import opened Wager
  import opened Tables
  import opened DueSelection
  import Backoff

  const BATCH := 50
  const LEASE: nat := 30 * Backoff.SECOND
  const BACKOFF_BASE: nat := Backoff.SECOND
  const BACKOFF_CAP: nat := 300 * Backoff.SECOND

  /** An outbox_events row; 0 is NULL in publishedAt and claimedUntil. The snapshot stands for its own encoding. */
  datatype OutboxRow = OutboxRow(payload: Event, nextAttemptAt: Time, attempts: nat, claimedUntil: Time,
                                 publishedAt: Time)

  datatype OutboxRecord = OutboxRecord(id: EventId, payload: Event, attempts: nat)

  type OutboxTable = map<EventId, OutboxRow>

  function NewOutboxRow(event: Event, now: Time): OutboxRow {
    OutboxRow(event, now, 0, 0, 0)
  }

  predicate DueEvent(row: OutboxRow, now: Time) {
    row.publishedAt == 0 && row.nextAttemptAt <= now && row.claimedUntil <= now
  }

  /** The condition under which a confirm or a reschedule still finds its row. */
  predicate Holds(row: OutboxRow, attempts: nat) {
    row.publishedAt == 0 && row.claimedUntil != 0 && row.attempts == attempts
  }

  function ClaimedRow(row: OutboxRow, until: Time): OutboxRow {
    row.(claimedUntil := until, attempts := row.attempts + 1)
  }

  function ConfirmedRow(row: OutboxRow, now: Time): OutboxRow {
    row.(publishedAt := now, claimedUntil := 0)
  }

  function RescheduledRow(row: OutboxRow, next: Time): OutboxRow {
    row.(nextAttemptAt := next, claimedUntil := 0)
  }

  /** One claim statement over the picked rows. */
  function ClaimedRows(rows: OutboxTable, picked: seq<EventId>, until: Time): OutboxTable
    requires forall i | 0 <= i < |picked| :: picked[i] in rows
    ensures ClaimedRows(rows, picked, until).Keys == rows.Keys
    decreases picked
  {
    if picked == [] then rows
    else ClaimedRows(rows[picked[0] := ClaimedRow(rows[picked[0]], until)], picked[1..], until)
  }

  function RecordsOf(rows: OutboxTable, picked: seq<EventId>): seq<OutboxRecord>
    requires forall i | 0 <= i < |picked| :: picked[i] in rows
  {
    seq(|picked|, i requires 0 <= i < |picked| => OutboxRecord(picked[i], rows[picked[i]].payload,
                                                               rows[picked[i]].attempts))
  }

  /** A claim changes exactly the picked rows, each once. */
  lemma {:induction false} ClaimedRowsAre(rows: OutboxTable, picked: seq<EventId>, until: Time)
    requires forall i | 0 <= i < |picked| :: picked[i] in rows
    requires forall i, j | 0 <= i < j < |picked| :: picked[i] != picked[j]
    ensures forall id | id in rows ::
              ClaimedRows(rows, picked, until)[id] == if id in picked then ClaimedRow(rows[id], until) else rows[id]
    decreases picked
  {
    if picked != [] {
      ClaimedRowsAre(rows[picked[0] := ClaimedRow(rows[picked[0]], until)], picked[1..], until);
    }
  }

  /** A claimed event is due again exactly when its lease ends; a rescheduled one exactly at its next attempt;
      a confirmed one never. After a claim, and only until it ends, the holder's number fences out every other. */
  lemma ClaimsFence(row: OutboxRow, until: Time, next: Time, now: Time, number: nat)
    requires row.publishedAt == 0 && until != 0 && now != 0
    ensures row.nextAttemptAt <= now ==> (DueEvent(ClaimedRow(row, until), now) <==> until <= now)
    ensures Holds(ClaimedRow(row, until), number) <==> number == row.attempts + 1
    ensures DueEvent(RescheduledRow(ClaimedRow(row, until), next), now) <==> next <= now
    ensures !Holds(RescheduledRow(ClaimedRow(row, until), next), number)
            && !Holds(ConfirmedRow(ClaimedRow(row, until), now), number)
    ensures !DueEvent(ConfirmedRow(ClaimedRow(row, until), now), next)
  {
  }

  // ----- Backoff -----

  /** One second doubled per claim and capped at five minutes. */
  function PublishBackoff(attempts: int): nat {
    if attempts <= 1 then BACKOFF_BASE
    else if 2 * PublishBackoff(attempts - 1) >= BACKOFF_CAP then BACKOFF_CAP
    else 2 * PublishBackoff(attempts - 1)
  }

  lemma {:induction false} PublishBackoffBounds(attempts: int)
    ensures BACKOFF_BASE <= PublishBackoff(attempts) <= BACKOFF_CAP
  {
    if attempts > 1 {
      PublishBackoffBounds(attempts - 1);
    }
  }

  /** The delay is min(2^(n-1) s, 300 s) for the n-th claim. */
  lemma {:induction false} PublishBackoffClosedForm(attempts: nat)
    requires attempts >= 1
    ensures PublishBackoff(attempts) == Backoff.Min(Backoff.Power2(attempts - 1), 300) * Backoff.SECOND
  {
    if attempts > 1 {
      PublishBackoffClosedForm(attempts - 1);
    }
  }

  lemma {:induction false} PublishBackoffStaysAtCap(attempts: nat, more: nat)
    requires attempts >= 1 && PublishBackoff(attempts) == BACKOFF_CAP
    ensures PublishBackoff(attempts + more) == BACKOFF_CAP
    decreases more
  {
    if more > 0 {
      PublishBackoffStaysAtCap(attempts + 1, more - 1);
    }
  }

  /** The publisher's loop, which returns as soon as the cap is reached. */
  method BackoffFor(attempts: int) returns (delay: nat)
    ensures delay == PublishBackoff(attempts)
  {
    var count: nat := if attempts < 1 then 1 else attempts;
    delay := BACKOFF_BASE;
    var i := 1;
    while i < count
      invariant 1 <= i <= count
      invariant delay == PublishBackoff(i) < BACKOFF_CAP
    {
      delay := delay * 2;
      i := i + 1;
      if delay >= BACKOFF_CAP {
        PublishBackoffStaysAtCap(i, count - i);
        return BACKOFF_CAP;
      }
    }
  }

  // ----- The store -----

  /** The due events no concurrent claim has locked, with the instants they are ordered by. */
  function DueEvents(rows: OutboxTable, now: Time, locked: set<EventId>): map<nat, Time> {
    map id | id in rows && id !in locked && DueEvent(rows[id], now) :: rows[id].nextAttemptAt
  }

  /** An event that was never published, whose attempt is due and whose lease, if any, is over; locked rows are
      skipped. */
  predicate Claimable(rows: OutboxTable, locked: set<EventId>, now: Time, id: EventId) {
    && id in rows && id !in locked
    && rows[id].publishedAt == 0 && rows[id].nextAttemptAt <= now && rows[id].claimedUntil <= now
  }

  predicate ComesFirst(rows: OutboxTable, a: EventId, b: EventId)
    requires a in rows && b in rows
  {
    rows[a].nextAttemptAt < rows[b].nextAttemptAt || (rows[a].nextAttemptAt == rows[b].nextAttemptAt && a <= b)
  }

  /** The picked events are claimable, in order; a claimable event is left out only if the batch is full of events that
      come no later. */
  ghost predicate ClaimsFirst(rows: OutboxTable, locked: set<EventId>, now: Time, limit: nat, picked: seq<EventId>) {
    && |picked| <= limit
    && (forall i | 0 <= i < |picked| :: Claimable(rows, locked, now, picked[i]))
    && (forall i, j | 0 <= i < j < |picked| :: picked[i] != picked[j] && ComesFirst(rows, picked[i], picked[j]))
    && (forall id | Claimable(rows, locked, now, id) && id !in picked ::
          |picked| == limit && forall i | 0 <= i < |picked| :: ComesFirst(rows, picked[i], id))
  }

  lemma PickedComeFirst(rows: OutboxTable, locked: set<EventId>, now: Time, limit: nat, picked: seq<EventId>)
    requires FirstDue(DueEvents(rows, now, locked), picked, limit)
    ensures ClaimsFirst(rows, locked, now, limit, picked)
  {
    var due := DueEvents(rows, now, locked);
    forall id ensures Claimable(rows, locked, now, id) <==> id in due {
    }
    forall i | 0 <= i < |picked| ensures Claimable(rows, locked, now, picked[i]) {
    }
    forall i, j | 0 <= i < j < |picked| ensures picked[i] != picked[j] && ComesFirst(rows, picked[i], picked[j]) {
      assert NoLater(due, picked[i], picked[j]);
    }
    forall id | Claimable(rows, locked, now, id) && id !in picked
      ensures |picked| == limit && forall i | 0 <= i < |picked| :: ComesFirst(rows, picked[i], id)
    {
      forall i | 0 <= i < |picked| ensures ComesFirst(rows, picked[i], id) {
        assert NoLater(due, picked[i], id);
      }
    }
  }

  class OutboxStore {
    var rows: OutboxTable

    constructor ()
      ensures rows == map[]
    {
      rows := map[];
    }

    /** Leases the first due events that no concurrent claim has locked and hands each out under the next number. */
    method ClaimDueEvents(now: Time, limit: nat, lease: nat, locked: set<EventId>) returns (records: seq<OutboxRecord>,
                          picked: seq<EventId>)
      modifies this
      ensures ClaimsFirst(old(rows), locked, now, limit, picked)
      ensures rows.Keys == old(rows).Keys
      ensures forall id | id in rows ::
                rows[id] == (if id in picked
                             then old(rows)[id].(claimedUntil := now + lease, attempts := old(rows)[id].attempts + 1)
                             else old(rows)[id])
      ensures |records| == |picked|
      ensures forall i | 0 <= i < |picked| ::
                picked[i] in old(rows)
                && records[i] == OutboxRecord(picked[i], old(rows)[picked[i]].payload,
                                              old(rows)[picked[i]].attempts + 1)
      ensures FirstDue(DueEvents(old(rows), now, locked), picked, limit)
      ensures rows == ClaimedRows(old(rows), picked, now + lease) && records == RecordsOf(rows, picked)
    {
      picked := PickFirst(DueEvents(rows, now, locked), limit);
      PickedComeFirst(rows, locked, now, limit, picked);
      ClaimedRowsAre(rows, picked, now + lease);
      rows := ClaimedRows(rows, picked, now + lease);
      records := RecordsOf(rows, picked);
    }

    /** False is a lost lease. */
    method ConfirmEvent(id: EventId, now: Time, attempts: nat) returns (ok: bool)
      modifies this
      ensures ok == (id in old(rows) && old(rows)[id].publishedAt == 0 && old(rows)[id].claimedUntil != 0
                     && old(rows)[id].attempts == attempts)
      ensures rows == if ok then old(rows)[id := old(rows)[id].(publishedAt := now, claimedUntil := 0)] else old(rows)
    {
      ok := id in rows && Holds(rows[id], attempts);
      if ok {
        rows := rows[id := ConfirmedRow(rows[id], now)];
      }
    }

    method RescheduleEvent(id: EventId, next: Time, attempts: nat) returns (ok: bool)
      modifies this
      ensures ok == (id in old(rows) && old(rows)[id].publishedAt == 0 && old(rows)[id].claimedUntil != 0
                     && old(rows)[id].attempts == attempts)
      ensures rows ==
              if ok then old(rows)[id := old(rows)[id].(nextAttemptAt := next, claimedUntil := 0)] else old(rows)
    {
      ok := id in rows && Holds(rows[id], attempts);
      if ok {
        rows := rows[id := RescheduledRow(rows[id], next)];
      }
    }
  }

  // ----- One publishing pass -----

  /** What happens to one record: the pass may be cancelled before it, the sender takes it or not, the store may fail,
      and others may have left the row as given by the time the pass comes back to it (a later claim, for one). */
  datatype Fate = Fate(cancelled: bool, accepted: bool, storeFails: bool, others: Option<OutboxRow>)

  /** The row as the pass finds it. */
  function FoundRow(claimed: OutboxRow, fate: Fate): OutboxRow {
    if fate.others.Some? then fate.others.value else claimed
  }

  /** The row a handled record leaves behind: untouched once the lease is lost. */
  function HandledRow(claimed: OutboxRow, record: OutboxRecord, fate: Fate, now: Time): OutboxRow {
    var found := FoundRow(claimed, fate);
    if !Holds(found, record.attempts) then found
    else if fate.accepted then ConfirmedRow(found, now)
    else RescheduledRow(found, now + PublishBackoff(record.attempts))
  }

  predicate Confirms(claimed: OutboxTable, record: OutboxRecord, fate: Fate)
    requires record.id in claimed
  {
    fate.accepted && Holds(FoundRow(claimed[record.id], fate), record.attempts)
  }

  /** How many of the first n records the pass confirms. */
  function CountConfirmed(claimed: OutboxTable, records: seq<OutboxRecord>, fates: seq<Fate>, n: nat): nat
    requires n <= |records| && n <= |fates| && forall i | 0 <= i < |records| :: records[i].id in claimed
  {
    if n == 0 then 0
    else CountConfirmed(claimed, records, fates, n - 1) + if Confirms(claimed, records[n - 1], fates[n - 1]) then 1
         else 0
  }

  /** How many records a pass gets through before it is cancelled or the store fails. */
  function Handled(fates: seq<Fate>): nat {
    if fates == [] || fates[0].cancelled || fates[0].storeFails then 0 else 1 + Handled(fates[1..])
  }

  lemma {:induction false} HandledPrefix(fates: seq<Fate>, n: nat)
    requires n <= |fates| && forall i | 0 <= i < n :: !fates[i].cancelled && !fates[i].storeFails
    requires n < |fates| ==> fates[n].cancelled || fates[n].storeFails
    ensures Handled(fates) == n
  {
    if n > 0 {
      HandledPrefix(fates[1..], n - 1);
    }
  }

  /** After n records of a pass: those are handled, the rest keep their lease, and nothing else has changed. */
  ghost predicate PassedOver(claimed: OutboxTable, picked: seq<EventId>, records: seq<OutboxRecord>, fates: seq<Fate>,
                             now: Time,
                             after: OutboxTable, n: nat)
  {
    && |records| == |picked| <= |fates| && n <= |picked| && after.Keys == claimed.Keys
    && (forall j | 0 <= j < |picked| ::
          picked[j] in claimed &&
          after[picked[j]] == if j < n then HandledRow(claimed[picked[j]], records[j], fates[j], now)
            else claimed[picked[j]])
    && (forall id | id in claimed && id !in picked :: after[id] == claimed[id])
  }

  lemma PassesOn(claimed: OutboxTable, picked: seq<EventId>, records: seq<OutboxRecord>, fates: seq<Fate>, now: Time,
                 after: OutboxTable, n: nat)
    requires PassedOver(claimed, picked, records, fates, now, after, n) && n < |picked|
    requires forall i, j | 0 <= i < j < |picked| :: picked[i] != picked[j]
    ensures PassedOver(claimed, picked, records, fates, now,
                       after[picked[n] := HandledRow(claimed[picked[n]], records[n], fates[n], now)], n + 1)
  {
    hide HandledRow;
  }

  lemma PassStarts(claimed: OutboxTable, picked: seq<EventId>, records: seq<OutboxRecord>, fates: seq<Fate>, now: Time)
    requires |records| == |picked| <= |fates| && forall i | 0 <= i < |picked| :: picked[i] in claimed
    ensures PassedOver(claimed, picked, records, fates, now, claimed, 0)
  {
  }

  /** A record not yet reached is as it was claimed. */
  lemma UnreachedRow(claimed: OutboxTable, picked: seq<EventId>, records: seq<OutboxRecord>, fates: seq<Fate>,
                     now: Time,
                     after: OutboxTable, n: nat)
    requires PassedOver(claimed, picked, records, fates, now, after, n) && n < |picked|
    ensures picked[n] in after && after[picked[n]] == claimed[picked[n]]
  {
  }

  /** Every record of a fresh batch holds its row. */
  lemma BatchHolds(rows: OutboxTable, picked: seq<EventId>, now: Time, limit: nat, locked: set<EventId>, lease: nat)
    requires FirstDue(DueEvents(rows, now, locked), picked, limit) && lease > 0
    ensures |RecordsOf(ClaimedRows(rows, picked, now + lease), picked)| == |picked|
    ensures forall i, j | 0 <= i < j < |picked| :: picked[i] != picked[j]
    ensures forall i | 0 <= i < |picked| ::
              var claimed := ClaimedRows(rows, picked, now + lease);
              picked[i] in claimed && RecordsOf(claimed, picked)[i].id == picked[i]
              && Holds(claimed[picked[i]], RecordsOf(claimed, picked)[i].attempts)
  {
    ClaimedRowsAre(rows, picked, now + lease);
  }

  /** One record: confirmed if the sender took it, rescheduled if not, left alone if its lease was lost meanwhile. */
  method PublishRecord(store: OutboxStore, record: OutboxRecord, fate: Fate, now: Time) returns (confirmed: bool)
    requires record.id in store.rows
    modifies store
    ensures store.rows == old(store.rows)[record.id := HandledRow(old(store.rows)[record.id], record, fate, now)]
    ensures confirmed == Confirms(old(store.rows), record, fate)
  {
    if fate.others.Some? {
      store.rows := store.rows[record.id := fate.others.value];
    }
    ghost var found := store.rows;
    confirmed := false;
    if !fate.accepted {
      var delay := BackoffFor(record.attempts);
      var _ := store.RescheduleEvent(record.id, now + delay, record.attempts);
    } else {
      confirmed := store.ConfirmEvent(record.id, now, record.attempts);
    }
    assert found == old(store.rows)[record.id := FoundRow(old(store.rows)[record.id], fate)];
    if !Holds(found[record.id], record.attempts) {
      assert found == old(store.rows)[record.id := found[record.id]];
    }
  }

  /** The loop over a claimed batch. */
  method PublishBatch(store: OutboxStore, records: seq<OutboxRecord>, fates: seq<Fate>, now: Time,
                      ghost picked: seq<EventId>)
    returns (published: nat)
    requires |records| == |picked| <= |fates|
    requires forall i, j | 0 <= i < j < |picked| :: picked[i] != picked[j]
    requires forall i | 0 <= i < |picked| :: picked[i] in store.rows && records[i].id == picked[i]
    modifies store
    ensures Handled(fates[..|picked|]) <= |picked|
    ensures PassedOver(old(store.rows), picked, records, fates, now, store.rows, Handled(fates[..|picked|]))
    ensures published == CountConfirmed(old(store.rows), records, fates, Handled(fates[..|picked|]))
  {
    hide PassedOver, Confirms, HandledRow, Handled, PublishBackoff;
    ghost var claimed := store.rows;
    published := 0;
    var i := 0;
    PassStarts(claimed, picked, records, fates, now);
    while i < |records| && !fates[i].cancelled && !fates[i].storeFails
      invariant 0 <= i <= |records|
      invariant forall j | 0 <= j < i :: !fates[j].cancelled && !fates[j].storeFails
      invariant PassedOver(claimed, picked, records, fates, now, store.rows, i)
      invariant published == CountConfirmed(claimed, records, fates, i)
    {
      PassesOn(claimed, picked, records, fates, now, store.rows, i);
      UnreachedRow(claimed, picked, records, fates, now, store.rows, i);
      SameRowSameFate(claimed, store.rows, records[i], fates[i]);
      var confirmed := PublishRecord(store, records[i], fates[i], now);
      published := published + if confirmed then 1 else 0;
      i := i + 1;
    }
    HandledPrefix(fates[..|picked|], i);
  }

  lemma SameRowSameFate(a: OutboxTable, b: OutboxTable, record: OutboxRecord, fate: Fate)
    requires record.id in a && record.id in b && a[record.id] == b[record.id]
    ensures Confirms(a, record, fate) == Confirms(b, record, fate)
  {
  }

  /** Publishes a claimed batch. Every record reached is confirmed if the sender took it and rescheduled by the backoff
      of its claim number if not, unless others have taken the row over meanwhile: then it is left as they left it and
      not counted. The rest keep their lease and become due when it ends. */
  method PublishOnce(store: OutboxStore, now: Time, locked: set<EventId>, fates: seq<Fate>)
    returns (published: nat, records: seq<OutboxRecord>, picked: seq<EventId>)
    requires |fates| == BATCH
    modifies store
    ensures |picked| <= |fates| && ClaimsFirst(old(store.rows), locked, now, 50, picked)
    ensures Handled(fates[..|picked|]) <= |picked|
    ensures (forall i | 0 <= i < |picked| :: picked[i] in old(store.rows))
            && var claimed := ClaimedRows(old(store.rows), picked, now + 30 * Backoff.SECOND);
            && records == RecordsOf(claimed, picked)
            && PassedOver(claimed, picked, records, fates, now, store.rows, Handled(fates[..|picked|]))
            && published == CountConfirmed(claimed, records, fates, Handled(fates[..|picked|]))
  {
    hide FirstDue, PassedOver, ClaimedRows, RecordsOf, Holds, CountConfirmed, Handled;
    ghost var before := store.rows;
    records, picked := store.ClaimDueEvents(now, BATCH, LEASE, locked);
    PickedWithin(DueEvents(before, now, locked), picked, BATCH);
    BatchHolds(before, picked, now, BATCH, locked, LEASE);
    published := PublishBatch(store, records, fates, now, picked);
  }

  /** Left alone by others, every record of a fresh batch still holds its row, so all the sender took are confirmed;
      a record claimed again meanwhile is never ended by this pass. */
  lemma OvertakenRecordsAreLeftAlone(claimed: OutboxRow, record: OutboxRecord, fate: Fate, now: Time, until: Time)
    requires Holds(claimed, record.attempts)
    ensures fate.others.None? ==>
              HandledRow(claimed, record, fate, now) ==
              if fate.accepted then ConfirmedRow(claimed, now)
                 else RescheduledRow(claimed, now + PublishBackoff(record.attempts))
    ensures fate.others == Some(ClaimedRow(claimed, until)) ==>
              HandledRow(claimed, record, fate, now) == ClaimedRow(claimed, until)
  {
  }
}
