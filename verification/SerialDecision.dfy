/** An operation decides alike on the interleaved tables it read and on the tables of the serial run,
    except that it may wait for a reference the serial run already refuses. */
module SerialDecision {
  import opened Results
  import opened Wager
  import opened Resolution
  import opened Tables
  import opened Settlement
  import opened SettlementSafety
  import opened Noninterference

  // ----- How the two sets of tables relate -----

  /** The reference exists and will never support the operation: it is on another wallet or was rejected. */
  predicate Hopeless(rows: RowTable, byExternal: map<ProviderExternal, TransactionId>, t: WagerTransaction) {
    var key := (t.providerId, t.referenceExternalId);
    && NeedsReference(t) && key in byExternal && byExternal[key] in rows
    && (rows[byExternal[key]].txn.walletId != t.walletId || rows[byExternal[key]].txn.state == Rejected)
  }

  /** The serial run has rejected a row over its hopeless reference; here it still waits for that reference,
      or has been rejected in another pass. */
  predicate Doomed(c: Row, s: Row, serial: Db) {
    && SameCommand(c.txn, s.txn) && s.txn.state == Rejected && Hopeless(serial.rows, serial.byExternal, c.txn)
    && (c.txn.state == Rejected || c.txn.state == PendingReference)
  }

  predicate RowsAlike(c: RowTable, s: RowTable, serial: Db) {
    && c.Keys == s.Keys
    && forall id | id in c :: c[id] == s[id] || Doomed(c[id], s[id], serial)
  }

  /** Balances, owners, keys, ledger, claims and deliveries are equal; rows are equal up to doomed waits. */
  predicate Alike(c: Db, s: Db) {
    && c.wallets == s.wallets && c.owners == s.owners && c.byKey == s.byKey && c.byExternal == s.byExternal
    && c.ledger == s.ledger && c.claims == s.claims && c.inbox == s.inbox
    && RowsAlike(c.rows, s.rows, s)
  }

  /** Alike rows differ at most in being rejected, and a rejected one here was rejected there. */
  lemma AlikeRows(c: Db, s: Db, id: TransactionId)
    requires Alike(c, s) && id in c.rows
    ensures id in s.rows && SameCommand(c.rows[id].txn, s.rows[id].txn)
    ensures c.rows[id].txn.state == s.rows[id].txn.state
            || (c.rows[id].txn.state == PendingReference && s.rows[id].txn.state == Rejected)
    ensures s.rows[id].txn.state != Rejected ==> c.rows[id] == s.rows[id]
  {
  }

  // ----- The decision -----

  /** The answer reads only the identity and the state of the reference. */
  lemma DecisionReadsIdentityAndState(t: WagerTransaction, a: WagerTransaction, b: WagerTransaction, claim: bool)
    requires SameIdentity(a, b) && a.state == b.state
    ensures Classify(t, Some(a), claim) == Classify(t, Some(b), claim)
    ensures NeedsClaimRead(t, Some(a)) == NeedsClaimRead(t, Some(b))
  {
    hide IdentityMatches;
    assert IdentityMatches(t, a) == IdentityMatches(t, b) by { IdentityOfSame(t, a, b); }
  }

  lemma IdentityOfSame(t: WagerTransaction, a: WagerTransaction, b: WagerTransaction)
    requires SameIdentity(a, b)
    ensures IdentityMatches(t, a) == IdentityMatches(t, b)
  {
  }

  lemma SameCommandSameIdentity(a: WagerTransaction, b: WagerTransaction)
    requires SameCommand(a, b)
    ensures SameIdentity(a, b) && a.origin == b.origin && KeyOf(a) == KeyOf(b) && ExternalOf(a) == ExternalOf(b)
            && a.digest == b.digest && a.digestVersion == b.digestVersion && a.idempotencyKey == b.idempotencyKey
            && NeedsReference(a) == NeedsReference(b)
  {
  }

  /** Here the operation waits, there it is refused. */
  predicate WaitsInVain(here: Plan, there: Plan) {
    here == PENDING && !there.pending && there.failure != NoFailure && there.failure != PermanentInfrastructure
    && there.movement.None?
  }

  /** What a lookup of the reference finds in the serial tables, the operation's own row included. */
  ghost predicate FoundThere(s: Db, t: WagerTransaction, ref: Option<WagerTransaction>) {
    var key := (t.providerId, t.referenceExternalId);
    if !NeedsReference(t) then ref.None?
    else if key == ExternalOf(t) then ref == Some(t)
    else if key in s.byExternal then
      s.byExternal[key] in s.rows && ref == Some(s.rows[s.byExternal[key]].txn) && ref.value.id == s.byExternal[key]
    else ref.None?
  }

  ghost predicate ReadThere(s: Db, t: WagerTransaction, ref: Option<WagerTransaction>, claimRead: bool) {
    FoundThere(s, t, ref) && (ref.Some? ==> ref.value.id != 0 && claimRead == HasClaim(s.claims, ref.value.id))
  }

  lemma AbsentHere(c: Db, s: Db, t: WagerTransaction, refS: Option<WagerTransaction>, claimS: bool)
    requires Alike(c, s) && Submittable(t) && NeedsReference(t) && StillAbsent(c, t) && FoundThere(s, t, refS)
    ensures PlanOperation(t, refS, claimS).Ok?
    ensures PlanOperation(t, refS, claimS).value == PENDING
            || (WaitsInVain(PENDING, PlanOperation(t, refS, claimS).value) && Hopeless(s.rows, s.byExternal, t))
  {
    if refS.Some? {
      var key := (t.providerId, t.referenceExternalId);
      AlikeRows(c, s, s.byExternal[key]);
      var claimExists := NeedsClaimRead(t, refS) && claimS;
      ForeignReferenceIsDecided(t, refS.value, refS.value, claimExists, claimExists);
    }
  }

  lemma FoundHere(c: Db, s: Db, t: WagerTransaction, r: WagerTransaction, q: WagerTransaction, claimC: bool,
                  claimS: bool)
    requires Alike(c, s) && Submittable(t) && NeedsReference(t) && ReferenceRead(c, t, Some(r), claimC) && r.id != t.id
             && r.id != 0
    requires FoundUnder(c, t, r.id) && r.id in s.rows && q == s.rows[r.id].txn && claimS == HasClaim(s.claims, r.id)
    ensures PlanOperation(t, Some(r), claimC).Ok? && PlanOperation(t, Some(q), claimS).Ok?
    ensures var here, there := PlanOperation(t, Some(r), claimC).value, PlanOperation(t, Some(q), claimS).value;
            here == there || (WaitsInVain(here, there) && Hopeless(s.rows, s.byExternal, t))
    ensures c.rows[r.id].txn.state == q.state ==> PlanOperation(t, Some(r), claimC) == PlanOperation(t, Some(q), claimS)
  {
    hide Classify, Alike, RowsAlike, HasClaim, Submittable, IdentityMatches;
    var p := c.rows[r.id].txn;
    AlikeRows(c, s, r.id);
    SameCommandSameIdentity(p, q);
    assert SameIdentity(r, q);
    AlikeIndexes(c, s);
    var claimHere := NeedsClaimRead(t, Some(r)) && claimC;
    var claimThere := NeedsClaimRead(t, Some(q)) && claimS;
    if r.walletId != t.walletId {
      ForeignReferenceIsDecided(t, r, q, claimHere, claimThere);
    } else if p.state == q.state {
      DecisionReadsIdentityAndState(t, r, q, claimHere);
      MoneyMovesExactlyWhen(t, Some(r), claimHere);
    } else {
      WaitingAgainstRejected(t, r, q, claimHere, claimThere);
      PlainRefusal(t, q, claimThere);
    }
  }

  lemma AlikeIndexes(c: Db, s: Db)
    requires Alike(c, s)
    ensures c.byExternal == s.byExternal && c.byKey == s.byKey && c.claims == s.claims && c.wallets == s.wallets
            && c.inbox == s.inbox
    ensures c.owners == s.owners && c.ledger == s.ledger && c.rows.Keys == s.rows.Keys
  {
  }

  lemma PlainRefusal(t: WagerTransaction, q: WagerTransaction, claim: bool)
    requires Classify(t, Some(q), claim).Ok?
    ensures Classify(t, Some(q), claim).value.failure != PermanentInfrastructure
  {
  }

  lemma NoReferenceWaits(t: WagerTransaction, claimRead: bool)
    requires NeedsReference(t)
    ensures PlanOperation(t, None, claimRead) == Ok(PENDING)
  {
  }

  /** The decision is the same, or the operation waits here for a reference that is hopeless there. */
  lemma DecidesAlike(c: Db, s: Db, t: WagerTransaction, ref: Option<WagerTransaction>, claimC: bool,
                     refS: Option<WagerTransaction>, claimS: bool)
    requires Alike(c, s) && Submittable(t) && ReferenceKnown(c, t, Ok(ref), claimC) && ReadThere(s, t, refS, claimS)
    requires t.id != 0 && (t.state == Pending || t.state == PendingReference)
    requires ExternalOf(t) in c.byExternal ==> c.byExternal[ExternalOf(t)] == t.id
    ensures PlanOperation(t, ref, claimC).Ok? && PlanOperation(t, refS, claimS).Ok?
    ensures var here, there := PlanOperation(t, ref, claimC).value, PlanOperation(t, refS, claimS).value;
            here == there || (WaitsInVain(here, there) && Hopeless(s.rows, s.byExternal, t))
  {
    hide Classify, Alike, RowsAlike, HasClaim, Submittable, Hopeless;
    AlikeIndexes(c, s);
    var key := (t.providerId, t.referenceExternalId);
    if ref.None? {
      if NeedsReference(t) {
        AbsentHere(c, s, t, refS, claimS);
        assert PlanOperation(t, None, claimC) == Ok(PENDING) by { NoReferenceWaits(t, claimC); }
      } else {
        MoneyMovesExactlyWhen(t, None, false);
      }
    } else if ref.value.id == t.id {
      MoneyMovesExactlyWhen(t, Some(t), false);
    } else {
      var r := ref.value;
      assert key in c.byExternal && c.byExternal[key] == r.id;
      assert r.id in s.rows;
      FoundHere(c, s, t, r, s.rows[r.id].txn, claimC, claimS);
    }
  }

  // ----- The exact condition -----

  /** The reference was read as absent, and a row has since been committed under its identity. */
  predicate Overtaken(c: Db, t: WagerTransaction, ref: Option<WagerTransaction>) {
    ref.None? && NeedsReference(t) && (t.providerId, t.referenceExternalId) in c.byExternal
  }

  lemma AlikeItself(c: Db)
    ensures Alike(c, c)
  {
  }

  /** Decided again on the tables it commits to, an operation decides the same, unless it was overtaken:
      then it waits for a reference that, decided again, refuses it. */
  lemma DecidesTheSameUnlessOvertaken(c: Db, t: WagerTransaction, ref: Option<WagerTransaction>, claimC: bool,
                                      refS: Option<WagerTransaction>, claimS: bool)
    requires Submittable(t) && ReferenceKnown(c, t, Ok(ref), claimC) && ReadThere(c, t, refS, claimS)
    requires t.id != 0 && (t.state == Pending || t.state == PendingReference)
    requires ExternalOf(t) in c.byExternal ==> c.byExternal[ExternalOf(t)] == t.id
    ensures PlanOperation(t, ref, claimC).Ok? && PlanOperation(t, refS, claimS).Ok?
    ensures var here, there := PlanOperation(t, ref, claimC).value, PlanOperation(t, refS, claimS).value;
            && (!Overtaken(c, t, ref) ==> here == there)
            && (Overtaken(c, t, ref) ==> WaitsInVain(here, there) && there.failure != ReferenceNotFound && refS.Some?)
  {
    hide Classify, Alike, RowsAlike, HasClaim, Submittable, Hopeless;
    AlikeItself(c);
    DecidesAlike(c, c, t, ref, claimC, refS, claimS);
    if ref.None? {
      if Overtaken(c, t, ref) {
        NoReferenceWaits(t, claimC);
        ForeignIsRefused(c, t, refS, claimS);
      } else if NeedsReference(t) {
        NoReferenceWaits(t, claimC);
        NoReferenceWaits(t, claimS);
      } else {
        MoneyMovesExactlyWhen(t, None, false);
      }
    } else if ref.value.id == t.id {
      MoneyMovesExactlyWhen(t, Some(t), false);
    } else {
      FoundHere(c, c, t, ref.value, c.rows[ref.value.id].txn, claimC, claimS);
    }
  }

  lemma ForeignIsRefused(c: Db, t: WagerTransaction, refS: Option<WagerTransaction>, claimS: bool)
    requires Submittable(t) && NeedsReference(t) && StillAbsent(c, t) && FoundThere(c, t, refS)
    requires (t.providerId, t.referenceExternalId) in c.byExternal
    ensures refS.Some? && refS.value.walletId != t.walletId && PlanOperation(t, refS, claimS).Ok?
    ensures var there := PlanOperation(t, refS, claimS).value;
            && !there.pending && there.movement.None? && there.failure != NoFailure
            && there.failure != PermanentInfrastructure && there.failure != ReferenceNotFound
  {
    var claimExists := NeedsClaimRead(t, refS) && claimS;
    ForeignReferenceIsDecided(t, refS.value, refS.value, claimExists, claimExists);
  }
}
