/** Any number of stopping publishers over one outbox: `attempts` is a fencing number
    (internal/adapters/postgres/outbox_publisher.go:15-82, internal/adapters/outbox/publisher.go:118-153). */
module OutboxFencing {
  import opened Wager
  import opened Tables
  import opened Outbox
  import Backoff

  type PublisherId = nat

  /** One statement's place in a pass: the head record is to be published, was accepted, or was refused. */
  datatype Stage = ToPublish | Accepted | Refused

  datatype Pass = Pass(now: Time, records: seq<OutboxRecord>, stage: Stage)

  /** A claim handed out, a call of the sender, and a confirm or reschedule that succeeded. */
  datatype Claim = Claim(publisher: PublisherId, id: EventId, number: nat)
  datatype Call = Call(id: EventId, number: nat, payload: Event, accepted: bool)
  datatype Ended = Ended(id: EventId, number: nat, confirmed: bool)

  /** Every publisher reads its own clock, in any order; latest is the highest reading any claim or insert has taken. */
  datatype State = State(
    rows: map<EventId, OutboxRow>,
    passes: map<PublisherId, Pass>,
    latest: Time,
    claims: seq<Claim>,
    calls: seq<Call>,
    ended: seq<Ended>)

  datatype Step =
    | Insert(event: Event, now: Time)
    | ClaimBatch(p: PublisherId, now: Time, picked: seq<EventId>)
    | Publish(p: PublisherId, accepted: bool, heard: bool)
    | Confirm(p: PublisherId)
    | PutOff(p: PublisherId)
    | Stop(p: PublisherId)

  predicate Distinct(ids: seq<EventId>) {
    forall i, j | 0 <= i < j < |ids| :: ids[i] != ids[j]
  }

  predicate Busy(s: State, p: PublisherId, stage: Stage) {
    p in s.passes && s.passes[p].records != [] && s.passes[p].stage == stage
  }

  /** The sender may accept an event although its publisher hears an error, never the other way round. */
  predicate Enabled(s: State, step: Step) {
    match step
    case Insert(event, _) => event.id != 0 && event.id !in s.rows
    case ClaimBatch(p, now, picked) =>
      && p !in s.passes && |picked| <= BATCH && Distinct(picked) && now != 0
      && forall i | 0 <= i < |picked| :: picked[i] in s.rows && DueEvent(s.rows[picked[i]], now)
    case Publish(p, accepted, heard) => Busy(s, p, ToPublish) && (heard ==> accepted)
    case Confirm(p) => Busy(s, p, Accepted)
    case PutOff(p) => Busy(s, p, Refused)
    case Stop(p) => p in s.passes
  }

  function Later(a: Time, b: Time): Time {
    if a <= b then b else a
  }

  function ClaimsFor(p: PublisherId, records: seq<OutboxRecord>): seq<Claim> {
    seq(|records|, i requires 0 <= i < |records| => Claim(p, records[i].id, records[i].attempts))
  }

  /** The rest of a pass after its head record. */
  function Advanced(pass: Pass): Pass
    requires pass.records != []
  {
    pass.(records := pass.records[1..], stage := ToPublish)
  }

  function Do(s: State, step: Step): State
    requires Enabled(s, step)
  {
    match step
    case Insert(event, now) => s.(rows := s.rows[event.id := NewOutboxRow(event, now)], latest := Later(s.latest, now))
    case ClaimBatch(p, now, picked) =>
      var after := ClaimedRows(s.rows, picked, now + LEASE);
      var records := RecordsOf(after, picked);
      s.(rows := after, passes := s.passes[p := Pass(now, records, ToPublish)], latest := Later(s.latest, now),
         claims := s.claims + ClaimsFor(p, records))
    case Publish(p, accepted, heard) =>
      var pass := s.passes[p];
      var record := pass.records[0];
      s.(passes := s.passes[p := pass.(stage := if heard then Accepted else Refused)],
         calls := s.calls + [Call(record.id, record.attempts, record.payload, accepted)])
    case Confirm(p) =>
      var pass := s.passes[p];
      var record := pass.records[0];
      var next := s.(passes := s.passes[p := Advanced(pass)]);
      if record.id in s.rows && Holds(s.rows[record.id], record.attempts) then
        next.(rows := s.rows[record.id := ConfirmedRow(s.rows[record.id], pass.now)],
              ended := s.ended + [Ended(record.id, record.attempts, true)])
      else next
    case PutOff(p) =>
      var pass := s.passes[p];
      var record := pass.records[0];
      var next := s.(passes := s.passes[p := Advanced(pass)]);
      if record.id in s.rows && Holds(s.rows[record.id], record.attempts) then
        next.(rows := s.rows[record.id := RescheduledRow(s.rows[record.id],
                                                         pass.now + PublishBackoff(record.attempts))],
              ended := s.ended + [Ended(record.id, record.attempts, false)])
      else next
    case Stop(p) => s.(passes := s.passes - {p})
  }

  predicate Init(s: State) {
    s.rows == map[] && s.passes == map[] && s.latest == 0 && s.claims == [] && s.calls == [] && s.ended == []
  }

  ghost predicate Next(s: State, t: State) {
    exists step :: Enabled(s, step) && t == Do(s, step)
  }

  ghost predicate Run(trace: seq<State>) {
    && trace != [] && Init(trace[0])
    && forall i | 0 <= i < |trace| - 1 :: Next(trace[i], trace[i + 1])
  }

  /** What the store's claim statement picks, a publisher may claim here, and it hands out the same records. */
  lemma StoreClaimsAreSteps(s: State, p: PublisherId, now: Time, locked: set<EventId>, picked: seq<EventId>)
    requires p !in s.passes && now != 0 && ClaimsFirst(s.rows, locked, now, BATCH, picked)
    ensures Enabled(s, ClaimBatch(p, now, picked))
    ensures var t := Do(s, ClaimBatch(p, now, picked));
            && t.rows == ClaimedRows(s.rows, picked, now + LEASE)
            && t.passes == s.passes[p := Pass(now, RecordsOf(t.rows, picked), ToPublish)]
  {
    forall i | 0 <= i < |picked| ensures picked[i] in s.rows && DueEvent(s.rows[picked[i]], now) {
      assert Claimable(s.rows, locked, now, picked[i]);
    }
  }

  /** A new event is due from the reading it was inserted under, with its snapshot and no claim. */
  lemma NewEventsAreDue(s: State, event: Event, now: Time, later: Time)
    requires Enabled(s, Insert(event, now))
    ensures var row := Do(s, Insert(event, now)).rows[event.id];
            row.payload == event && row.attempts == 0 && row.publishedAt == 0
              && (DueEvent(row, later) <==> now <= later)
  {
  }

  // ----- What holds in every state -----

  predicate HasClaimed(claims: seq<Claim>, p: PublisherId, id: EventId, number: nat) {
    exists i | 0 <= i < |claims| :: claims[i] == Claim(p, id, number)
  }

  predicate WasCalled(calls: seq<Call>, id: EventId, number: nat) {
    exists i | 0 <= i < |calls| :: calls[i].id == id && calls[i].number == number
  }

  predicate WasAccepted(calls: seq<Call>, id: EventId) {
    exists i | 0 <= i < |calls| :: calls[i].id == id && calls[i].accepted
  }

  /** How many claims on an event have been handed out. */
  function ClaimCount(claims: seq<Claim>, id: EventId): nat {
    if claims == [] then 0
    else ClaimCount(claims[..|claims| - 1], id) + if claims[|claims| - 1].id == id then 1 else 0
  }

  predicate RowsOk(rows: map<EventId, OutboxRow>, latest: Time) {
    forall id | id in rows ::
      && rows[id].payload.id == id && id != 0
      && rows[id].nextAttemptAt <= latest + BACKOFF_CAP && rows[id].claimedUntil <= latest + LEASE
  }

  /** Claim numbers run from one to `attempts` and each is handed out once. */
  ghost predicate ClaimsOk(rows: map<EventId, OutboxRow>, claims: seq<Claim>) {
    && (forall id | id in rows :: ClaimCount(claims, id) == rows[id].attempts)
    && (forall i | 0 <= i < |claims| :: claims[i].id in rows && 1 <= claims[i].number <= rows[claims[i].id].attempts)
    && (forall i, j | 0 <= i < j < |claims| && claims[i].id == claims[j].id :: claims[i].number < claims[j].number)
  }

  /** A record held is one claim of its holder, with the stored payload. */
  predicate RecordOk(s: State, p: PublisherId, record: OutboxRecord) {
    && record.id in s.rows && record.payload == s.rows[record.id].payload
    && HasClaimed(s.claims, p, record.id, record.attempts)
  }

  /** Records still to be published have not been called; the head of a later stage has. */
  ghost predicate PassOk(s: State, p: PublisherId, pass: Pass) {
    && pass.now <= s.latest && pass.now != 0
    && (forall i | 0 <= i < |pass.records| :: RecordOk(s, p, pass.records[i]))
    && (forall i, j | 0 <= i < j < |pass.records| :: pass.records[i].id != pass.records[j].id)
    && (forall i | 0 <= i < |pass.records| && (i > 0 || pass.stage == ToPublish) ::
          !WasCalled(s.calls, pass.records[i].id, pass.records[i].attempts))
    && (pass.records != [] && pass.stage == Accepted ==> WasAccepted(s.calls, pass.records[0].id))
  }

  /** Every call was made under a claim handed out, once per claim number, with the stored payload. */
  ghost predicate CallsOk(rows: map<EventId, OutboxRow>, claims: seq<Claim>, calls: seq<Call>) {
    && (forall i | 0 <= i < |calls| ::
          calls[i].id in rows && 1 <= calls[i].number <= rows[calls[i].id].attempts
            && calls[i].payload == rows[calls[i].id].payload)
    && (forall i, j | 0 <= i < j < |calls| :: !(calls[i].id == calls[j].id && calls[i].number == calls[j].number))
  }

  /** A claim number ends at most once; once ended, it no longer holds its row. */
  ghost predicate EndedOk(rows: map<EventId, OutboxRow>, ended: seq<Ended>) {
    && (forall i | 0 <= i < |ended| ::
          && ended[i].id in rows && ended[i].number <= rows[ended[i].id].attempts
          && !Holds(rows[ended[i].id], ended[i].number)
          && (ended[i].confirmed ==>
                rows[ended[i].id].publishedAt != 0 && rows[ended[i].id].attempts == ended[i].number))
    && (forall i, j | 0 <= i < j < |ended| && ended[i].id == ended[j].id :: ended[i].number < ended[j].number)
  }

  predicate PublishedOk(rows: map<EventId, OutboxRow>, calls: seq<Call>) {
    forall id | id in rows && rows[id].publishedAt != 0 :: WasAccepted(calls, id)
  }

  ghost predicate Safe(s: State) {
    && RowsOk(s.rows, s.latest) && ClaimsOk(s.rows, s.claims) && CallsOk(s.rows, s.claims, s.calls)
    && EndedOk(s.rows, s.ended) && PublishedOk(s.rows, s.calls)
    && forall p | p in s.passes :: PassOk(s, p, s.passes[p])
  }

  // ----- Claims -----

  lemma ClaimCountOfAppend(claims: seq<Claim>, c: Claim, id: EventId)
    ensures ClaimCount(claims + [c], id) == ClaimCount(claims, id) + if c.id == id then 1 else 0
  {
    assert (claims + [c])[..|claims|] == claims;
  }

  lemma {:induction false} ClaimCountOfBatch(claims: seq<Claim>, more: seq<Claim>, id: EventId)
    requires forall i, j | 0 <= i < j < |more| :: more[i].id != more[j].id
    ensures ClaimCount(claims + more, id) ==
              ClaimCount(claims, id) + if (exists i | 0 <= i < |more| :: more[i].id == id) then 1 else 0
  {
    if more == [] {
      assert claims + more == claims;
    } else {
      var init, last := more[..|more| - 1], more[|more| - 1];
      ClaimCountOfBatch(claims, init, id);
      assert claims + more == claims + init + [last];
      ClaimCountOfAppend(claims + init, last, id);
      if last.id == id {
        assert !(exists i | 0 <= i < |init| :: init[i].id == id);
      } else if exists i | 0 <= i < |more| :: more[i].id == id {
        var i :| 0 <= i < |more| && more[i].id == id;
        assert init[i].id == id;
      } else {
        forall i | 0 <= i < |init| ensures init[i].id != id {
          assert more[i].id != id;
        }
      }
    }
  }

  lemma BatchRows(s: State, p: PublisherId, now: Time, picked: seq<EventId>)
    requires Enabled(s, ClaimBatch(p, now, picked))
    ensures var t := Do(s, ClaimBatch(p, now, picked));
            && t.rows.Keys == s.rows.Keys
            && (forall id | id in s.rows ::
                  if id in picked then t.rows[id] == s.rows[id].(claimedUntil := now + LEASE,
                                                                 attempts := s.rows[id].attempts + 1)
                  else t.rows[id] == s.rows[id])
            && |t.passes[p].records| == |picked|
            && (forall i | 0 <= i < |picked| ::
                  t.passes[p].records[i] == OutboxRecord(picked[i], s.rows[picked[i]].payload,
                                                         s.rows[picked[i]].attempts + 1))
  {
    ClaimedRowsAre(s.rows, picked, now + LEASE);
  }

  lemma BatchCounts(claims: seq<Claim>, more: seq<Claim>, picked: seq<EventId>, id: EventId)
    requires |more| == |picked| && Distinct(picked) && forall k | 0 <= k < |more| :: more[k].id == picked[k]
    ensures ClaimCount(claims + more, id) == ClaimCount(claims, id) + if id in picked then 1 else 0
  {
    ClaimCountOfBatch(claims, more, id);
    if id in picked {
      var i :| 0 <= i < |picked| && picked[i] == id;
      assert more[i].id == id;
    }
  }

  lemma BatchClaims(s: State, p: PublisherId, now: Time, picked: seq<EventId>)
    requires ClaimsOk(s.rows, s.claims) && Enabled(s, ClaimBatch(p, now, picked))
    ensures ClaimsOk(Do(s, ClaimBatch(p, now, picked)).rows, Do(s, ClaimBatch(p, now, picked)).claims)
  {
    BatchRows(s, p, now, picked);
    BatchLogs(s, p, now, picked);
    var t := Do(s, ClaimBatch(p, now, picked));
    var more := ClaimsFor(p, t.passes[p].records);
    assert Distinct(picked) && forall k | 0 <= k < |picked| :: picked[k] in s.rows;
    hide Do, Enabled, ClaimCount;
    assert forall k | 0 <= k < |more| :: more[k].id == picked[k] && more[k].number == s.rows[picked[k]].attempts + 1;
    forall id | id in t.rows ensures ClaimCount(t.claims, id) == t.rows[id].attempts {
      BatchCounts(s.claims, more, picked, id);
    }
    NumbersGrow(s, t.rows, picked, more);
  }

  /** The claims of a batch carry the next number of each picked row. */
  predicate NextNumbers(rows: map<EventId, OutboxRow>, picked: seq<EventId>, more: seq<Claim>) {
    |more| == |picked| && forall k | 0 <= k < |more| ::
      picked[k] in rows && more[k].id == picked[k] && more[k].number == rows[picked[k]].attempts + 1
  }

  predicate Bumped(before: map<EventId, OutboxRow>, after: map<EventId, OutboxRow>, picked: seq<EventId>) {
    after.Keys == before.Keys
    && forall id | id in before :: after[id].attempts == before[id].attempts + if id in picked then 1 else 0
  }

  lemma NumbersInRange(s: State, rows: map<EventId, OutboxRow>, picked: seq<EventId>, more: seq<Claim>, i: nat)
    requires ClaimsOk(s.rows, s.claims) && NextNumbers(s.rows, picked, more) && Bumped(s.rows, rows, picked)
    requires i < |s.claims + more|
    ensures var c := (s.claims + more)[i]; c.id in rows && 1 <= c.number <= rows[c.id].attempts
  {
    hide ClaimCount;
    if i >= |s.claims| {
      assert (s.claims + more)[i] == more[i - |s.claims|];
    }
  }

  lemma NumbersRise(s: State, picked: seq<EventId>, more: seq<Claim>, i: nat, j: nat)
    requires ClaimsOk(s.rows, s.claims) && NextNumbers(s.rows, picked, more) && Distinct(picked)
    requires i < j < |s.claims + more| && (s.claims + more)[i].id == (s.claims + more)[j].id
    ensures (s.claims + more)[i].number < (s.claims + more)[j].number
  {
    hide ClaimCount;
    if i < |s.claims| <= j {
      assert (s.claims + more)[j] == more[j - |s.claims|] && (s.claims + more)[i] == s.claims[i];
    }
  }

  lemma NumbersGrow(s: State, rows: map<EventId, OutboxRow>, picked: seq<EventId>, more: seq<Claim>)
    requires ClaimsOk(s.rows, s.claims) && Distinct(picked) && NextNumbers(s.rows, picked, more)
             && Bumped(s.rows, rows, picked)
    ensures var post := s.claims + more;
            && (forall i | 0 <= i < |post| :: post[i].id in rows && 1 <= post[i].number <= rows[post[i].id].attempts)
            && (forall i, j | 0 <= i < j < |post| && post[i].id == post[j].id :: post[i].number < post[j].number)
  {
    hide ClaimsOk, NextNumbers, Bumped, Distinct;
    var post := s.claims + more;
    forall i | 0 <= i < |post| ensures post[i].id in rows && 1 <= post[i].number <= rows[post[i].id].attempts {
      NumbersInRange(s, rows, picked, more, i);
    }
    forall i, j | 0 <= i < j < |post| && post[i].id == post[j].id ensures post[i].number < post[j].number {
      NumbersRise(s, picked, more, i, j);
    }
  }

  lemma BatchLogs(s: State, p: PublisherId, now: Time, picked: seq<EventId>)
    requires Enabled(s, ClaimBatch(p, now, picked))
    ensures var t := Do(s, ClaimBatch(p, now, picked));
            t.claims == s.claims + ClaimsFor(p, t.passes[p].records) && t.calls == s.calls && t.ended == s.ended
              && t.latest == Later(s.latest, now)
            && t.passes == s.passes[p := Pass(now, t.passes[p].records, ToPublish)]
  {
  }

  lemma ClaimSurvives(claims: seq<Claim>, more: seq<Claim>, p: PublisherId, id: EventId, number: nat)
    requires HasClaimed(claims, p, id, number)
    ensures HasClaimed(claims + more, p, id, number)
  {
    var i :| 0 <= i < |claims| && claims[i] == Claim(p, id, number);
    assert (claims + more)[i] == Claim(p, id, number);
  }

  /** A pass another publisher makes no call in stays as it was when rows keep their payloads and claims grow. */
  lemma PassSurvives(s: State, t: State, p: PublisherId, pass: Pass, more: seq<Claim>)
    requires PassOk(s, p, pass) && s.latest <= t.latest && t.calls == s.calls && t.claims == s.claims + more
    requires forall id | id in s.rows :: id in t.rows && t.rows[id].payload == s.rows[id].payload
    ensures PassOk(t, p, pass)
  {
    forall i | 0 <= i < |pass.records| ensures RecordOk(t, p, pass.records[i]) {
      assert RecordOk(s, p, pass.records[i]);
      ClaimSurvives(s.claims, more, p, pass.records[i].id, pass.records[i].attempts);
    }
  }

  lemma NewNumberNotCalled(s: State, id: EventId)
    requires CallsOk(s.rows, s.claims, s.calls) && id in s.rows
    ensures !WasCalled(s.calls, id, s.rows[id].attempts + 1)
  {
  }

  lemma BatchPass(s: State, p: PublisherId, now: Time, picked: seq<EventId>)
    requires Safe(s) && Enabled(s, ClaimBatch(p, now, picked))
    ensures PassOk(Do(s, ClaimBatch(p, now, picked)), p, Do(s, ClaimBatch(p, now, picked)).passes[p])
  {
    BatchRows(s, p, now, picked);
    BatchLogs(s, p, now, picked);
    var t := Do(s, ClaimBatch(p, now, picked));
    hide Do, DueEvent, ClaimsOk, EndedOk, PublishedOk, RowsOk, WasCalled, CallsOk;
    var pass := t.passes[p];
    forall i | 0 <= i < |pass.records|
      ensures RecordOk(t, p, pass.records[i]) && !WasCalled(t.calls, pass.records[i].id, pass.records[i].attempts)
    {
      assert t.claims[|s.claims| + i] == Claim(p, pass.records[i].id, pass.records[i].attempts);
      NewNumberNotCalled(s, picked[i]);
    }
  }

  lemma BatchHistory(s: State, p: PublisherId, now: Time, picked: seq<EventId>)
    requires Safe(s) && Enabled(s, ClaimBatch(p, now, picked))
    ensures var t := Do(s, ClaimBatch(p, now, picked));
            RowsOk(t.rows, t.latest) && CallsOk(t.rows, t.claims, t.calls) && EndedOk(t.rows, t.ended)
              && PublishedOk(t.rows, t.calls)
  {
    BatchRows(s, p, now, picked);
    BatchLogs(s, p, now, picked);
    hide Do, ClaimsOk, WasAccepted, PassOk;
  }

  lemma ClaimBatchKeeps(s: State, p: PublisherId, now: Time, picked: seq<EventId>)
    requires Safe(s) && Enabled(s, ClaimBatch(p, now, picked))
    ensures Safe(Do(s, ClaimBatch(p, now, picked)))
  {
    BatchHistory(s, p, now, picked);
    BatchRows(s, p, now, picked);
    BatchLogs(s, p, now, picked);
    BatchClaims(s, p, now, picked);
    BatchPass(s, p, now, picked);
    var t := Do(s, ClaimBatch(p, now, picked));
    hide Do, RowsOk, ClaimsOk, CallsOk, EndedOk, PublishedOk, PassOk;
    forall q | q in t.passes ensures PassOk(t, q, t.passes[q]) {
      if q != p {
        PassSurvives(s, t, q, s.passes[q], ClaimsFor(p, t.passes[p].records));
      }
    }
  }

  // ----- Publishing -----

  lemma CallSurvives(calls: seq<Call>, c: Call, id: EventId)
    requires WasAccepted(calls, id)
    ensures WasAccepted(calls + [c], id)
  {
    var i :| 0 <= i < |calls| && calls[i].id == id && calls[i].accepted;
    assert (calls + [c])[i] == calls[i];
  }

  lemma CalledOfAppend(calls: seq<Call>, c: Call, id: EventId, number: nat)
    ensures WasCalled(calls + [c], id, number) <==> WasCalled(calls, id, number) || (c.id == id && c.number == number)
  {
    var post := calls + [c];
    assert post[|calls|] == c;
    if WasCalled(calls, id, number) {
      var i :| 0 <= i < |calls| && calls[i].id == id && calls[i].number == number;
      assert post[i] == calls[i];
    }
  }

  /** A claim number belongs to one publisher. */
  lemma OneHolder(s: State, p: PublisherId, q: PublisherId, id: EventId, number: nat)
    requires ClaimsOk(s.rows, s.claims) && HasClaimed(s.claims, p, id, number) && HasClaimed(s.claims, q, id, number)
    ensures p == q
  {
    var i :| 0 <= i < |s.claims| && s.claims[i] == Claim(p, id, number);
    var j :| 0 <= j < |s.claims| && s.claims[j] == Claim(q, id, number);
    assert i == j;
  }

  /** Another publisher's records are not the one being called. */
  lemma OthersUncalled(s: State, p: PublisherId, q: PublisherId, c: Call, accepted: bool)
    requires Safe(s) && p in s.passes && q in s.passes && p != q && s.passes[p].records != []
    requires c == Call(s.passes[p].records[0].id, s.passes[p].records[0].attempts, s.passes[p].records[0].payload,
                       accepted)
    ensures PassOk(s.(calls := s.calls + [c]), q, s.passes[q])
  {
    hide ClaimsOk, EndedOk, PublishedOk, RowsOk, CallsOk;
    var t, pass := s.(calls := s.calls + [c]), s.passes[q];
    assert PassOk(s, q, pass) && PassOk(s, p, s.passes[p]);
    assert RecordOk(s, p, s.passes[p].records[0]);
    forall i | 0 <= i < |pass.records| ensures RecordOk(t, q, pass.records[i]) {
      assert RecordOk(s, q, pass.records[i]);
    }
    forall i | 0 <= i < |pass.records| && (i > 0 || pass.stage == ToPublish)
      ensures !WasCalled(t.calls, pass.records[i].id, pass.records[i].attempts)
    {
      assert RecordOk(s, q, pass.records[i]);
      CalledOfAppend(s.calls, c, pass.records[i].id, pass.records[i].attempts);
      if pass.records[i].id == c.id && pass.records[i].attempts == c.number {
        OneHolder(s, p, q, c.id, c.number);
      }
    }
    if pass.records != [] && pass.stage == Accepted {
      CallSurvives(s.calls, c, pass.records[0].id);
    }
  }

  lemma OwnCall(s: State, p: PublisherId, c: Call, accepted: bool, heard: bool)
    requires Safe(s) && Busy(s, p, ToPublish) && (heard ==> accepted)
    requires c == Call(s.passes[p].records[0].id, s.passes[p].records[0].attempts, s.passes[p].records[0].payload,
                       accepted)
    ensures PassOk(s.(calls := s.calls + [c]), p, s.passes[p].(stage := if heard then Accepted else Refused))
  {
    hide ClaimsOk, EndedOk, PublishedOk, RowsOk, CallsOk;
    var t, pass := s.(calls := s.calls + [c]), s.passes[p];
    assert PassOk(s, p, pass);
    forall i | 0 <= i < |pass.records| ensures RecordOk(t, p, pass.records[i]) {
      assert RecordOk(s, p, pass.records[i]);
    }
    forall i | 0 < i < |pass.records| ensures !WasCalled(t.calls, pass.records[i].id, pass.records[i].attempts) {
      CalledOfAppend(s.calls, c, pass.records[i].id, pass.records[i].attempts);
    }
    if heard {
      assert t.calls[|s.calls|] == c;
    }
  }

  lemma CallJoins(s: State, p: PublisherId, c: Call, accepted: bool)
    requires Safe(s) && Busy(s, p, ToPublish)
    requires c == Call(s.passes[p].records[0].id, s.passes[p].records[0].attempts, s.passes[p].records[0].payload,
                       accepted)
    ensures CallsOk(s.rows, s.claims, s.calls + [c]) && PublishedOk(s.rows, s.calls + [c])
  {
    hide EndedOk, RowsOk, WasAccepted;
    assert PassOk(s, p, s.passes[p]);
    assert RecordOk(s, p, s.passes[p].records[0]);
    var i :| 0 <= i < |s.claims| && s.claims[i] == Claim(p, c.id, c.number);
    assert !WasCalled(s.calls, c.id, c.number);
    forall id | id in s.rows && s.rows[id].publishedAt != 0 ensures WasAccepted(s.calls + [c], id) {
      CallSurvives(s.calls, c, id);
    }
  }

  lemma PublishKeeps(s: State, p: PublisherId, accepted: bool, heard: bool)
    requires Safe(s) && Enabled(s, Publish(p, accepted, heard))
    ensures Safe(Do(s, Publish(p, accepted, heard)))
  {
    var record := s.passes[p].records[0];
    var c := Call(record.id, record.attempts, record.payload, accepted);
    CallJoins(s, p, c, accepted);
    OwnCall(s, p, c, accepted, heard);
    var t := Do(s, Publish(p, accepted, heard));
    assert t == s.(calls := s.calls + [c],
                   passes := s.passes[p := s.passes[p].(stage := if heard then Accepted else Refused)]);
    hide ClaimsOk, EndedOk, PublishedOk, RowsOk, CallsOk, PassOk, Do;
    forall q | q in t.passes ensures PassOk(t, q, t.passes[q]) {
      if q != p {
        OthersUncalled(s, p, q, c, accepted);
        SamePass(s.(calls := s.calls + [c]), t, q, s.passes[q]);
      } else {
        SamePass(s.(calls := s.calls + [c]), t, q, t.passes[q]);
      }
    }
  }

  lemma SamePass(s: State, t: State, p: PublisherId, pass: Pass)
    requires PassOk(s, p, pass) && s.rows == t.rows && s.latest == t.latest && s.claims == t.claims
    requires s.calls == t.calls
    ensures PassOk(t, p, pass)
  {
    forall i | 0 <= i < |pass.records| ensures RecordOk(t, p, pass.records[i]) {
      assert RecordOk(s, p, pass.records[i]);
    }
  }

  // ----- Confirming and rescheduling -----

  lemma AdvancedPass(s: State, p: PublisherId, pass: Pass)
    requires PassOk(s, p, pass) && pass.records != []
    ensures PassOk(s, p, Advanced(pass))
  {
    forall i | 0 <= i < |Advanced(pass).records| ensures RecordOk(s, p, Advanced(pass).records[i]) {
      assert RecordOk(s, p, pass.records[i + 1]);
    }
  }

  /** A row its holder ends: published, or rescheduled with its lease released. */
  predicate EndsHold(before: OutboxRow, after: OutboxRow, confirmed: bool) {
    && after.payload == before.payload && after.attempts == before.attempts && after.claimedUntil == 0
    && (if confirmed then after.publishedAt != 0 else after.publishedAt == before.publishedAt)
  }

  lemma EndJoins(s: State, record: OutboxRecord, after: OutboxRow, confirmed: bool)
    requires EndedOk(s.rows, s.ended) && ClaimsOk(s.rows, s.claims) && CallsOk(s.rows, s.claims, s.calls)
    requires record.id in s.rows && Holds(s.rows[record.id], record.attempts)
             && EndsHold(s.rows[record.id], after, confirmed)
    ensures EndedOk(s.rows[record.id := after], s.ended + [Ended(record.id, record.attempts, confirmed)])
    ensures ClaimsOk(s.rows[record.id := after], s.claims) && CallsOk(s.rows[record.id := after], s.claims, s.calls)
  {
    var rows, post := s.rows[record.id := after], s.ended + [Ended(record.id, record.attempts, confirmed)];
    forall i | 0 <= i < |post|
      ensures post[i].id in rows && post[i].number <= rows[post[i].id].attempts
      ensures !Holds(rows[post[i].id], post[i].number)
              && (post[i].confirmed ==>
                    rows[post[i].id].publishedAt != 0 && rows[post[i].id].attempts == post[i].number)
    {
    }
    forall i, j | 0 <= i < j < |post| && post[i].id == post[j].id ensures post[i].number < post[j].number {
      if j == |s.ended| {
        assert !Holds(s.rows[record.id], post[i].number);
      }
    }
  }

  lemma EndKeeps(s: State, p: PublisherId, after: OutboxRow, confirmed: bool)
    requires Safe(s) && p in s.passes && s.passes[p].records != []
    requires var record := s.passes[p].records[0];
             && record.id in s.rows && Holds(s.rows[record.id], record.attempts)
                && EndsHold(s.rows[record.id], after, confirmed)
             && (confirmed ==> s.passes[p].stage == Accepted) && after.nextAttemptAt <= s.latest + BACKOFF_CAP
    ensures var record := s.passes[p].records[0];
            Safe(s.(rows := s.rows[record.id := after], passes := s.passes[p := Advanced(s.passes[p])],
                    ended := s.ended + [Ended(record.id, record.attempts, confirmed)]))
  {
    var record := s.passes[p].records[0];
    assert PassOk(s, p, s.passes[p]);
    EndJoins(s, record, after, confirmed);
    var t := s.(rows := s.rows[record.id := after], passes := s.passes[p := Advanced(s.passes[p])],
                ended := s.ended + [Ended(record.id, record.attempts, confirmed)]);
    assert confirmed ==> WasAccepted(s.calls, record.id);
    hide ClaimsOk, EndedOk, CallsOk, WasAccepted, PassOk, Holds;
    AdvancedPass(s, p, s.passes[p]);
    assert s.claims + [] == s.claims;
    forall q | q in t.passes ensures PassOk(t, q, t.passes[q]) {
      PassSurvives(s, t, q, t.passes[q], []);
    }
  }

  lemma LeaseLostKeeps(s: State, p: PublisherId)
    requires Safe(s) && p in s.passes && s.passes[p].records != []
    ensures Safe(s.(passes := s.passes[p := Advanced(s.passes[p])]))
  {
    hide ClaimsOk, EndedOk, CallsOk, PublishedOk, RowsOk, PassOk;
    var t := s.(passes := s.passes[p := Advanced(s.passes[p])]);
    AdvancedPass(s, p, s.passes[p]);
    forall q | q in t.passes ensures PassOk(t, q, t.passes[q]) {
      SamePass(s, t, q, t.passes[q]);
    }
  }

  lemma PassInstant(s: State, p: PublisherId)
    requires Safe(s) && p in s.passes
    ensures 0 < s.passes[p].now <= s.latest && RowsOk(s.rows, s.latest)
  {
    hide ClaimsOk, EndedOk, CallsOk, PublishedOk, RowsOk;
    assert PassOk(s, p, s.passes[p]);
  }

  lemma ConfirmKeeps(s: State, p: PublisherId)
    requires Safe(s) && Enabled(s, Confirm(p))
    ensures Safe(Do(s, Confirm(p)))
  {
    PassInstant(s, p);
    hide Safe;
    var record := s.passes[p].records[0];
    if record.id in s.rows && Holds(s.rows[record.id], record.attempts) {
      EndKeeps(s, p, ConfirmedRow(s.rows[record.id], s.passes[p].now), true);
    } else {
      LeaseLostKeeps(s, p);
    }
  }

  lemma RescheduledEnds(row: OutboxRow, now: Time, attempts: nat)
    ensures var after := RescheduledRow(row, now + PublishBackoff(attempts));
            EndsHold(row, after, false) && after.nextAttemptAt <= now + BACKOFF_CAP
  {
    PublishBackoffBounds(attempts);
  }

  /** The state after a reschedule that still found its row. */
  function Released(s: State, p: PublisherId, record: OutboxRecord, after: OutboxRow): State
    requires p in s.passes && s.passes[p].records != []
  {
    s.(rows := s.rows[record.id := after], passes := s.passes[p := Advanced(s.passes[p])],
       ended := s.ended + [Ended(record.id, record.attempts, false)])
  }

  lemma PutOffReleases(s: State, p: PublisherId, record: OutboxRecord, after: OutboxRow)
    requires Busy(s, p, Refused) && record == s.passes[p].records[0]
    requires record.id in s.rows && Holds(s.rows[record.id], record.attempts)
    requires after == RescheduledRow(s.rows[record.id], s.passes[p].now + PublishBackoff(record.attempts))
    ensures Do(s, PutOff(p)) == Released(s, p, record, after)
  {
    hide PublishBackoff, Holds, RescheduledRow, Advanced;
  }

  lemma PutOffLosesLease(s: State, p: PublisherId, record: OutboxRecord)
    requires Busy(s, p, Refused) && record == s.passes[p].records[0]
    requires !(record.id in s.rows && Holds(s.rows[record.id], record.attempts))
    ensures Do(s, PutOff(p)) == s.(passes := s.passes[p := Advanced(s.passes[p])])
  {
    hide PublishBackoff, Holds, RescheduledRow, Advanced;
  }

  lemma HeldIsPutOff(s: State, p: PublisherId, record: OutboxRecord, after: OutboxRow)
    requires Safe(s) && p in s.passes && s.passes[p].records != [] && record == s.passes[p].records[0]
    requires record.id in s.rows && Holds(s.rows[record.id], record.attempts)
    requires after == RescheduledRow(s.rows[record.id], s.passes[p].now + PublishBackoff(record.attempts))
    ensures Safe(Released(s, p, record, after))
  {
    PassInstant(s, p);
    hide Safe, RowsOk, PublishBackoff, EndsHold, Holds, RescheduledRow, Advanced;
    RescheduledEnds(s.rows[record.id], s.passes[p].now, record.attempts);
    EndKeeps(s, p, after, false);
  }

  lemma RescheduleKeeps(s: State, p: PublisherId)
    requires Safe(s) && Enabled(s, PutOff(p))
    ensures Safe(Do(s, PutOff(p)))
  {
    assert Busy(s, p, Refused);
    hide Safe, PublishBackoff, Do, Enabled, Holds, RescheduledRow, Advanced, Released;
    var record := s.passes[p].records[0];
    if record.id in s.rows && Holds(s.rows[record.id], record.attempts) {
      var after := RescheduledRow(s.rows[record.id], s.passes[p].now + PublishBackoff(record.attempts));
      PutOffReleases(s, p, record, after);
      HeldIsPutOff(s, p, record, after);
    } else {
      PutOffLosesLease(s, p, record);
      LeaseLostKeeps(s, p);
    }
  }

  // ----- The other steps -----

  lemma {:induction false} NoClaimsYet(claims: seq<Claim>, id: EventId)
    requires forall i | 0 <= i < |claims| :: claims[i].id != id
    ensures ClaimCount(claims, id) == 0
  {
    if claims != [] {
      NoClaimsYet(claims[..|claims| - 1], id);
    }
  }

  lemma InsertHistory(s: State, event: Event, now: Time)
    requires Safe(s) && Enabled(s, Insert(event, now))
    ensures var rows := s.rows[event.id := NewOutboxRow(event, now)];
            RowsOk(rows, Later(s.latest, now)) && ClaimsOk(rows, s.claims) && CallsOk(rows, s.claims, s.calls)
              && EndedOk(rows, s.ended) && PublishedOk(rows, s.calls)
  {
    NoClaimsYet(s.claims, event.id);
    hide WasAccepted, PassOk, ClaimCount;
  }

  lemma InsertKeeps(s: State, event: Event, now: Time)
    requires Safe(s) && Enabled(s, Insert(event, now))
    ensures Safe(Do(s, Insert(event, now)))
  {
    InsertHistory(s, event, now);
    var t := Do(s, Insert(event, now));
    assert s.claims + [] == s.claims;
    hide PassOk, RowsOk, ClaimsOk, CallsOk, EndedOk, PublishedOk;
    forall q | q in t.passes ensures PassOk(t, q, t.passes[q]) {
      PassSurvives(s, t, q, s.passes[q], []);
    }
  }

  lemma StopKeeps(s: State, p: PublisherId)
    requires Safe(s)
    ensures Safe(s.(passes := s.passes - {p}))
  {
    hide ClaimsOk, EndedOk, CallsOk, PublishedOk, RowsOk, PassOk;
    var t := s.(passes := s.passes - {p});
    forall q | q in t.passes ensures PassOk(t, q, t.passes[q]) {
      SamePass(s, t, q, s.passes[q]);
    }
  }

  lemma StepKeeps(s: State, step: Step)
    requires Safe(s) && Enabled(s, step)
    ensures Safe(Do(s, step))
  {
    hide Safe;
    match step
    case Insert(event, now) => InsertKeeps(s, event, now);
    case ClaimBatch(p, now, picked) => ClaimBatchKeeps(s, p, now, picked);
    case Publish(p, accepted, heard) => PublishKeeps(s, p, accepted, heard);
    case Confirm(p) => ConfirmKeeps(s, p);
    case PutOff(p) => RescheduleKeeps(s, p);
    case Stop(p) => StopKeeps(s, p);
  }

  lemma {:induction false} RunsAreFenced(trace: seq<State>, i: nat)
    requires Run(trace) && i < |trace|
    ensures Safe(trace[i])
  {
    hide Safe, Enabled, Do;
    if i == 0 {
      InitIsSafe(trace[0]);
    } else {
      RunsAreFenced(trace, i - 1);
      assert Next(trace[i - 1], trace[i - 1 + 1]);
      var step :| Enabled(trace[i - 1], step) && trace[i] == Do(trace[i - 1], step);
      StepKeeps(trace[i - 1], step);
    }
  }

  lemma InitIsSafe(s: State)
    requires Init(s)
    ensures Safe(s)
  {
  }

  // ----- The guarantees -----

  /** How often an event has been handed to the sender. */
  function CallCount(calls: seq<Call>, id: EventId): nat {
    if calls == [] then 0
    else CallCount(calls[..|calls| - 1], id) + if calls[|calls| - 1].id == id then 1 else 0
  }

  function NumbersCalled(calls: seq<Call>, id: EventId): set<nat> {
    set i | 0 <= i < |calls| && calls[i].id == id :: calls[i].number
  }

  lemma NumbersOfAppend(calls: seq<Call>, c: Call, id: EventId)
    ensures NumbersCalled(calls + [c], id) == NumbersCalled(calls, id) + if c.id == id then {c.number} else {}
  {
    var post := calls + [c];
    assert post[|calls|] == c;
    forall n | n in NumbersCalled(calls, id) ensures n in NumbersCalled(post, id) {
      var i :| 0 <= i < |calls| && calls[i].id == id && calls[i].number == n;
      assert post[i] == calls[i];
    }
  }

  lemma CallCountOfAppend(calls: seq<Call>, c: Call, id: EventId)
    ensures CallCount(calls + [c], id) == CallCount(calls, id) + if c.id == id then 1 else 0
  {
    assert (calls + [c])[..|calls|] == calls;
  }

  lemma {:induction false} CallsAreNumbers(calls: seq<Call>, id: EventId)
    requires forall i, j | 0 <= i < j < |calls| :: !(calls[i].id == calls[j].id && calls[i].number == calls[j].number)
    ensures CallCount(calls, id) == |NumbersCalled(calls, id)|
  {
    if calls != [] {
      var init, last := calls[..|calls| - 1], calls[|calls| - 1];
      assert calls == init + [last];
      assert last.id == id ==> last.number !in NumbersCalled(init, id);
      hide CallCount, NumbersCalled;
      CallsAreNumbers(init, id);
      CallCountOfAppend(init, last, id);
      NumbersOfAppend(init, last, id);
    }
  }

  lemma {:induction false} FewNumbers(numbers: set<nat>, bound: nat)
    requires forall n | n in numbers :: 1 <= n <= bound
    ensures |numbers| <= bound
  {
    if bound == 0 {
      assert numbers == {};
    } else {
      FewNumbers(numbers - {bound}, bound - 1);
    }
  }

  /** `attempts` equals the claims ever handed out, each claim number belongs to one publisher, and the sender is called
      at most once per claim, so never more often than `attempts`. */
  lemma AttemptsCountClaims(trace: seq<State>, i: nat, id: EventId)
    requires Run(trace) && i < |trace| && id in trace[i].rows
    ensures ClaimCount(trace[i].claims, id) == trace[i].rows[id].attempts
    ensures forall j, k | 0 <= j < k < |trace[i].claims| && trace[i].claims[j].id == trace[i].claims[k].id ::
              trace[i].claims[j].number != trace[i].claims[k].number
    ensures CallCount(trace[i].calls, id) <= trace[i].rows[id].attempts
  {
    RunsAreFenced(trace, i);
    hide Run, EndedOk, PublishedOk, RowsOk, PassOk, CallCount, ClaimCount;
    var s := trace[i];
    CallsAreNumbers(s.calls, id);
    FewNumbers(NumbersCalled(s.calls, id), s.rows[id].attempts);
  }

  /** At most one confirm or reschedule succeeds per claim number. A confirm is an event's last: nothing ends it
      afterwards. */
  lemma ClaimsEndOnce(trace: seq<State>, i: nat, j: nat, k: nat)
    requires Run(trace) && i < |trace| && j < k < |trace[i].ended| && trace[i].ended[j].id == trace[i].ended[k].id
    ensures trace[i].ended[j].number < trace[i].ended[k].number && !trace[i].ended[j].confirmed
  {
    RunsAreFenced(trace, i);
    hide Run, ClaimsOk, CallsOk, PublishedOk, RowsOk, PassOk;
  }

  /** What a step adds to the ends: at most one, by the holder of a record whose row still carries its number. */
  lemma EndIsHeld(s: State, step: Step)
    requires Enabled(s, step)
    ensures |Do(s, step).ended| > |s.ended| ==>
              && (step.Confirm? || step.PutOff?) && step.p in s.passes && s.passes[step.p].records != []
              && var record := s.passes[step.p].records[0];
                 && record.id in s.rows && Holds(s.rows[record.id], record.attempts)
                 && Do(s, step).ended == s.ended + [Ended(record.id, record.attempts, step.Confirm?)]
  {
  }

  /** Over every run a confirm or reschedule succeeds only under the newest claim: its number is the count of claims of
      that event handed out so far, it was handed out, and no claim of the event has a higher one. */
  lemma OnlyNewestClaimEnds(trace: seq<State>, i: nat)
    requires Run(trace) && i < |trace| - 1 && |trace[i + 1].ended| > |trace[i].ended|
    ensures var s, e := trace[i], trace[i + 1].ended[|trace[i].ended|];
            && trace[i + 1].ended == s.ended + [e] && e.id in s.rows && s.rows[e.id].publishedAt == 0
            && e.number == ClaimCount(s.claims, e.id)
            && (exists k :: 0 <= k < |s.claims| && s.claims[k].id == e.id && s.claims[k].number == e.number)
            && (forall k | 0 <= k < |s.claims| && s.claims[k].id == e.id :: s.claims[k].number <= e.number)
  {
    RunsAreFenced(trace, i);
    hide Enabled, Do, CallsOk, EndedOk, PublishedOk, RowsOk, ClaimCount, WasCalled, WasAccepted;
    var s := trace[i];
    assert Next(s, trace[i + 1]);
    var step :| Enabled(s, step) && trace[i + 1] == Do(s, step);
    EndIsHeld(s, step);
    var record := s.passes[step.p].records[0];
    assert PassOk(s, step.p, s.passes[step.p]);
    assert RecordOk(s, step.p, record);
    var k :| 0 <= k < |s.claims| && s.claims[k] == Claim(step.p, record.id, record.attempts);
  }

  /** A confirmed event was accepted by the sender at least once, and what was handed over is its stored snapshot. */
  lemma ConfirmedWasAccepted(trace: seq<State>, i: nat, id: EventId)
    requires Run(trace) && i < |trace| && id in trace[i].rows && trace[i].rows[id].publishedAt != 0
    ensures exists k | 0 <= k < |trace[i].calls| ::
              trace[i].calls[k].id == id && trace[i].calls[k].accepted
                && trace[i].calls[k].payload == trace[i].rows[id].payload
  {
    RunsAreFenced(trace, i);
    hide Run, ClaimsOk, EndedOk, RowsOk, PassOk;
    var s := trace[i];
    assert WasAccepted(s.calls, id);
    var k :| 0 <= k < |s.calls| && s.calls[k].id == id && s.calls[k].accepted;
    assert s.calls[k].payload == s.rows[id].payload;
  }

  lemma StepFreezesSnapshots(s: State, step: Step, id: EventId)
    requires Enabled(s, step) && id in s.rows
    ensures id in Do(s, step).rows && Do(s, step).rows[id].payload == s.rows[id].payload
    ensures s.rows[id].publishedAt != 0 ==> Do(s, step).rows[id] == s.rows[id]
    ensures s.rows[id].attempts <= Do(s, step).rows[id].attempts
  {
    if step.ClaimBatch? {
      BatchRows(s, step.p, step.now, step.picked);
    }
  }

  /** Events are never lost and their identity and snapshot never change; a published one is never touched again. */
  lemma {:induction false} SnapshotsNeverChange(trace: seq<State>, i: nat, j: nat, id: EventId)
    requires Run(trace) && i <= j < |trace| && id in trace[i].rows
    ensures id in trace[j].rows && trace[j].rows[id].payload == trace[i].rows[id].payload
    ensures trace[i].rows[id].publishedAt != 0 ==> trace[j].rows[id] == trace[i].rows[id]
    decreases j
  {
    hide Enabled, Do;
    if i < j {
      SnapshotsNeverChange(trace, i, j - 1, id);
      assert Next(trace[j - 1], trace[j - 1 + 1]);
      var step :| Enabled(trace[j - 1], step) && trace[j] == Do(trace[j - 1], step);
      StepFreezesSnapshots(trace[j - 1], step, id);
    }
  }

  /** No event is lost: whatever its publishers did, each under its own clock, from five minutes after the highest
      reading any of them has taken an event nobody has confirmed is due again. */
  lemma UnconfirmedBecomesClaimable(trace: seq<State>, i: nat, id: EventId, later: Time)
    requires Run(trace) && i < |trace| && id in trace[i].rows && later >= trace[i].latest + 300 * Backoff.SECOND
    ensures trace[i].rows[id].publishedAt != 0 || DueEvent(trace[i].rows[id], later)
  {
    RunsAreFenced(trace, i);
    hide Run, ClaimsOk, EndedOk, CallsOk, PublishedOk, PassOk;
  }
}
