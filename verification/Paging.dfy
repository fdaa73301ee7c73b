/** Keyset pages of a wallet ledger (internal/application/service.go:387-419, internal/application/pagination.go,
    internal/adapters/postgres/ledger.go:35-78). */
module Paging {
  import opened Results
  import opened Wager
  import opened Wallets
  import opened AppErrors
  import opened Tables
  import opened Operations
  import opened Invariants
  import opened Guarantees

  const MAX_LIMIT := 100
  const CURSOR_VERSION := 1

  datatype Cursor = Cursor(createdAt: Time, id: EntryId)

  /** The decoded shape of an opaque cursor. */
  datatype CursorPayload = CursorPayload(version: int, createdAt: Time, id: EntryId)

  function EncodeCursor(c: Cursor): CursorPayload {
    CursorPayload(CURSOR_VERSION, c.createdAt, c.id)
  }

  function DecodeCursor(p: CursorPayload): Option<Cursor> {
    if p.version != CURSOR_VERSION || p.createdAt == 0 || p.id == 0 then None else Some(Cursor(p.createdAt, p.id))
  }

  // ----- Order -----

  predicate Before(a: Cursor, b: Cursor) {
    a.createdAt < b.createdAt || (a.createdAt == b.createdAt && a.id < b.id)
  }

  function PositionOf(e: LedgerEntry): Cursor {
    Cursor(e.createdAt, e.id)
  }

  /** Strictly ascending by (createdAt, id). */
  predicate Ascending(entries: seq<LedgerEntry>) {
    forall i, j | 0 <= i < j < |entries| :: Before(PositionOf(entries[i]), PositionOf(entries[j]))
  }

  function Inserted(entries: seq<LedgerEntry>, e: LedgerEntry): seq<LedgerEntry> {
    if entries == [] || Before(PositionOf(e), PositionOf(entries[0])) then [e] + entries
    else [entries[0]] + Inserted(entries[1..], e)
  }

  /** ORDER BY "createdAt", "id". */
  function Ordered(entries: seq<LedgerEntry>): seq<LedgerEntry> {
    if entries == [] then [] else Inserted(Ordered(entries[..|entries| - 1]), entries[|entries| - 1])
  }

  predicate DistinctIds(entries: seq<LedgerEntry>) {
    forall i, j | 0 <= i < j < |entries| :: entries[i].id != entries[j].id
  }

  lemma {:induction false} InsertedFacts(entries: seq<LedgerEntry>, e: LedgerEntry)
    requires Ascending(entries) && forall i | 0 <= i < |entries| :: entries[i].id != e.id
    ensures Ascending(Inserted(entries, e)) && multiset(Inserted(entries, e)) == multiset(entries) + multiset{e}
  {
    if entries != [] && !Before(PositionOf(e), PositionOf(entries[0])) {
      var rest := entries[1..];
      InsertedFacts(rest, e);
      var tail := Inserted(rest, e);
      assert entries == [entries[0]] + rest;
      forall i | 0 <= i < |tail| ensures Before(PositionOf(entries[0]), PositionOf(tail[i])) {
        assert tail[i] in multiset(tail);
        assert tail[i] == e || tail[i] in rest;
      }
    }
  }

  /** Ordering the postings of a wallet loses none, adds none and is strict. */
  lemma {:induction false} OrderedFacts(entries: seq<LedgerEntry>)
    requires DistinctIds(entries)
    ensures Ascending(Ordered(entries)) && multiset(Ordered(entries)) == multiset(entries)
  {
    if entries != [] {
      var init, last := entries[..|entries| - 1], entries[|entries| - 1];
      OrderedFacts(init);
      var sorted := Ordered(init);
      assert entries == init + [last];
      forall i | 0 <= i < |sorted| ensures sorted[i].id != last.id {
        assert sorted[i] in multiset(sorted);
        assert sorted[i] in init;
      }
      InsertedFacts(sorted, last);
    }
  }

  lemma {:induction false} PostingsAreDistinct(ledger: seq<LedgerEntry>, w: WalletId)
    requires DistinctIds(ledger)
    ensures DistinctIds(PostingsOf(ledger, w))
    ensures forall i | 0 <= i < |PostingsOf(ledger, w)| :: PostingsOf(ledger, w)[i] in ledger
  {
    if ledger != [] {
      var init := ledger[..|ledger| - 1];
      PostingsAreDistinct(init, w);
      assert ledger == init + [ledger[|ledger| - 1]];
    }
  }

  // ----- One page -----

  /** How many entries of an ascending ledger a cursor has passed. */
  function Passed(entries: seq<LedgerEntry>, after: Option<Cursor>): nat {
    if entries == [] || after.None? || Before(after.value, PositionOf(entries[0])) then 0
       else 1 + Passed(entries[1..], after)
  }

  lemma {:induction false} PassedBounds(entries: seq<LedgerEntry>, after: Option<Cursor>)
    ensures Passed(entries, after) <= |entries|
  {
    if entries != [] && after.Some? && !Before(after.value, PositionOf(entries[0])) {
      PassedBounds(entries[1..], after);
    }
  }

  /** The rows a page query may return: those after the cursor. */
  predicate IsAfter(e: LedgerEntry, after: Option<Cursor>) {
    after.None? || Before(after.value, PositionOf(e))
  }

  lemma {:induction false} PassedSplits(entries: seq<LedgerEntry>, after: Option<Cursor>, i: nat)
    requires Ascending(entries) && i < |entries|
    ensures IsAfter(entries[i], after) <==> i >= Passed(entries, after)
  {
    if after.Some? {
      if Before(after.value, PositionOf(entries[0])) {
        assert i > 0 ==> Before(PositionOf(entries[0]), PositionOf(entries[i]));
      } else if i > 0 {
        PassedSplits(entries[1..], after, i - 1);
      }
    }
  }

  function Least(a: nat, b: nat): nat {
    if a <= b then a else b
  }

  /** One ascending page: the rows after the cursor up to the limit, and whether more follow. The query reads one row
      more. */
  method ListPage(entries: seq<LedgerEntry>, after: Option<Cursor>, limit: nat) returns (items: seq<LedgerEntry>,
                  hasMore: bool)
    requires Ascending(entries)
    ensures Passed(entries, after) <= |entries|
    ensures var k := Passed(entries, after);
            && items == entries[k..Least(k + limit, |entries|)]
            && (hasMore <==> k + limit < |entries|)
  {
    PassedBounds(entries, after);
    ghost var k := Passed(entries, after);
    items := [];
    var i := 0;
    while i < |entries| && |items| < limit + 1
      invariant 0 <= i <= |entries|
      invariant i <= k ==> items == []
      invariant i > k ==> items == entries[k..i]
      invariant |items| <= limit + 1
    {
      PassedSplits(entries, after, i);
      if IsAfter(entries[i], after) {
        items := items + [entries[i]];
      }
      i := i + 1;
    }
    hasMore := |items| > limit;
    if hasMore {
      items := items[..limit];
    }
  }

  datatype Page = Page(items: seq<LedgerEntry>, nextCursor: Option<CursorPayload>)

  /** What a page holds once its position in the ordered ledger is known. */
  function PageAt(entries: seq<LedgerEntry>, k: nat, limit: nat): Page
    requires k <= |entries| && limit >= 1
  {
    var items := entries[k..Least(k + limit, |entries|)];
    Page(items, if k + limit < |entries| then Some(EncodeCursor(PositionOf(items[|items| - 1]))) else None)
  }

  /** The use case: input checks in source order, then one page of the wallet's ordered ledger. */
  method LedgerPage(db: Db, w: WalletId, rawCursor: Option<CursorPayload>, limit: int)
    returns (r: Result<Page, AppError>)
    requires DistinctIds(db.ledger)
    ensures w == "" ==> r == Err(Contract(InvalidRequest))
    ensures w != "" && !(1 <= limit <= 100) ==> r == Err(Contract(InvalidLimit))
    ensures w != "" && 1 <= limit <= 100 && rawCursor.Some? && DecodeCursor(rawCursor.value).None? ==>
              r == Err(Contract(InvalidCursor))
    ensures w != "" && 1 <= limit <= 100 && (rawCursor.Some? ==> DecodeCursor(rawCursor.value).Some?) ==>
              match LookupWallet(db, w)
              case Err(e) => r == Err(e)
              case Ok(None) => r == Err(NotFound)
              case Ok(Some(_)) =>
                var entries := Ordered(PostingsOf(db.ledger, w));
                var k := Passed(entries, AfterOf(rawCursor));
                k <= |entries| && r == Ok(PageAt(entries, k, limit))
  {
    hide PostingsOf, Ordered, DistinctIds, RehydrateWallet, Passed, Ascending, PositionOf, EncodeCursor, DecodeCursor;
    if w == "" {
      return Err(Contract(InvalidRequest));
    }
    if limit < 1 || limit > MAX_LIMIT {
      return Err(Contract(InvalidLimit));
    }
    var after: Option<Cursor> := None;
    if rawCursor.Some? {
      after := DecodeCursor(rawCursor.value);
      if after.None? {
        return Err(Contract(InvalidCursor));
      }
    }
    var wallet := LookupWallet(db, w);
    if wallet.Err? {
      return Err(wallet.error);
    }
    if wallet.value.None? {
      return Err(NotFound);
    }
    PostingsAreDistinct(db.ledger, w);
    OrderedFacts(PostingsOf(db.ledger, w));
    var items, hasMore := ListPage(Ordered(PostingsOf(db.ledger, w)), after, limit);
    var next: Option<CursorPayload> := None;
    if hasMore && |items| > 0 {
      next := Some(EncodeCursor(PositionOf(items[|items| - 1])));
    }
    return Ok(Page(items, next));
  }

  // ----- Following cursors -----

  /** Positions every entry of a reachable ledger has. */
  predicate Positioned(entries: seq<LedgerEntry>) {
    forall i | 0 <= i < |entries| :: entries[i].createdAt != 0 && entries[i].id != 0
  }

  /** The cursor of an entry has passed exactly the entries up to it. */
  lemma CursorOfEntry(entries: seq<LedgerEntry>, k: nat)
    requires Ascending(entries) && Positioned(entries) && 1 <= k <= |entries|
    ensures DecodeCursor(EncodeCursor(PositionOf(entries[k - 1]))) == Some(PositionOf(entries[k - 1]))
    ensures Passed(entries, Some(PositionOf(entries[k - 1]))) == k
  {
    var after := Some(PositionOf(entries[k - 1]));
    PassedBounds(entries, after);
    PassedSplits(entries, after, k - 1);
    if k < |entries| {
      PassedSplits(entries, after, k);
    }
  }

  function AfterOf(cursor: Option<CursorPayload>): Option<Cursor> {
    if cursor.None? then None else DecodeCursor(cursor.value)
  }

  /** All the items met by following cursors from a position, taking the page sizes in turn; the walk stops
      when a page carries no cursor, or when the sizes run out. */
  function Walk(entries: seq<LedgerEntry>, cursor: Option<CursorPayload>, limits: seq<nat>): seq<LedgerEntry>
    requires forall i | 0 <= i < |limits| :: limits[i] >= 1
    decreases |limits|
  {
    var k := Passed(entries, AfterOf(cursor));
    if limits == [] || k > |entries| then []
    else
      var page := PageAt(entries, k, limits[0]);
      page.items + if page.nextCursor.None? then [] else Walk(entries, page.nextCursor, limits[1..])
  }

  /** The cursor a page ending before entry k carries; none at the start. */
  function CursorAt(entries: seq<LedgerEntry>, k: nat): Option<CursorPayload>
    requires k <= |entries|
  {
    if k == 0 then None else Some(EncodeCursor(PositionOf(entries[k - 1])))
  }

  lemma CursorPosition(entries: seq<LedgerEntry>, k: nat)
    requires Ascending(entries) && Positioned(entries) && k <= |entries|
    ensures Passed(entries, AfterOf(CursorAt(entries, k))) == k
  {
    if k > 0 {
      CursorOfEntry(entries, k);
    }
  }

  lemma WalkStep(entries: seq<LedgerEntry>, k: nat, cursor: Option<CursorPayload>, limits: seq<nat>)
    requires k <= |entries| && Passed(entries, AfterOf(cursor)) == k
    requires (forall i | 0 <= i < |limits| :: limits[i] >= 1) && limits != []
    ensures Walk(entries, cursor, limits) ==
            (if k + limits[0] < |entries| then
               entries[k..k + limits[0]] + Walk(entries, CursorAt(entries, k + limits[0]), limits[1..])
             else entries[k..])
  {
    hide Passed, PositionOf, EncodeCursor, DecodeCursor;
    PageContents(entries, k, limits[0]);
  }

  /** From any entry on, a walk with enough pages returns the rest of the ledger, each entry once and in order. */
  lemma {:induction false} WalkFrom(entries: seq<LedgerEntry>, k: nat, limits: seq<nat>)
    requires Ascending(entries) && Positioned(entries) && k <= |entries|
    requires (forall i | 0 <= i < |limits| :: limits[i] >= 1) && |limits| > |entries| - k
    ensures Walk(entries, CursorAt(entries, k), limits) == entries[k..]
    decreases |entries| - k
  {
    hide Walk, Ascending, Positioned, Passed, CursorAt, AfterOf;
    CursorPosition(entries, k);
    WalkStep(entries, k, CursorAt(entries, k), limits);
    if k + limits[0] < |entries| {
      var next := k + limits[0];
      WalkFrom(entries, next, limits[1..]);
      assert entries[k..next] + entries[next..] == entries[k..];
    }
  }

  lemma PageContents(entries: seq<LedgerEntry>, k: nat, limit: nat)
    requires k <= |entries| && limit >= 1
    ensures var page := PageAt(entries, k, limit);
            if k + limit < |entries| then
              page.items == entries[k..k + limit] && page.nextCursor == CursorAt(entries, k + limit)
            else page.items == entries[k..] && page.nextCursor.None?
  {
  }

  lemma LedgerIsPositioned(db: Db, w: WalletId)
    requires Reachable(db)
    ensures DistinctIds(db.ledger)
    ensures forall i | 0 <= i < |db.ledger| :: db.ledger[i].id != 0 && db.ledger[i].createdAt != 0
  {
    hide Reachable, WalletsOk, RowsOk, Chained, ClaimsOk, EventsOk, TallyOk, EventsChained, WalletAgrees;
    ReachableParts(db);
    forall i | 0 <= i < |db.ledger| ensures db.ledger[i].id != 0 && db.ledger[i].createdAt != 0 {
      assert EntryOk(db.rows, db.ledger[i]);
    }
  }

  /** Following cursors from the start over a fixed ledger of any size, with any page sizes from 1 to 100, returns every
      posting of the wallet exactly once, in (createdAt, id) order, and stops. */
  lemma FollowingCursorsReturnsEverything(db: Db, w: WalletId, limits: seq<nat>)
    requires Reachable(db)
    requires (forall i | 0 <= i < |limits| :: 1 <= limits[i] <= 100) && |limits| > |PostingsOf(db.ledger, w)|
    ensures var entries := Ordered(PostingsOf(db.ledger, w));
            && Walk(entries, None, limits) == entries
            && Ascending(entries) && multiset(entries) == multiset(PostingsOf(db.ledger, w))
  {
    hide Reachable, Walk, Ordered;
    LedgerIsPositioned(db, w);
    var postings := PostingsOf(db.ledger, w);
    PostingsAreDistinct(db.ledger, w);
    OrderedFacts(postings);
    var entries := Ordered(postings);
    SameSize(entries, postings);
    forall i | 0 <= i < |entries| ensures entries[i].createdAt != 0 && entries[i].id != 0 {
      assert entries[i] in multiset(entries);
      assert entries[i] in postings;
      assert entries[i] in db.ledger;
    }
    WalkFrom(entries, 0, limits);
    assert entries[0..] == entries;
  }

  lemma SameSize(a: seq<LedgerEntry>, b: seq<LedgerEntry>)
    requires multiset(a) == multiset(b)
    ensures |a| == |b|
  {
    assert |multiset(a)| == |a| && |multiset(b)| == |b|;
  }
}
