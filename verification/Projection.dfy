/** The canonical business projection behind idempotency digests (internal/application/projection.go). */
module Projection {
  import opened MoneyValue
  import opened Wager
  import Commands

  // ----- Parsed identifier formats (internal/domain/financial/identifiers.go) -----

  predicate Lower(c: char) { 'a' <= c <= 'z' }
  predicate Upper(c: char) { 'A' <= c <= 'Z' }

  predicate ProviderIdPattern(s: string) {
    && 1 <= |s| <= 64 && (Lower(s[0]) || IsDigit(s[0]))
    && forall i | 0 <= i < |s| :: Lower(s[i]) || IsDigit(s[i]) || s[i] == '.' || s[i] == '_' || s[i] == '-'
  }

  predicate ExternalIdPattern(s: string) {
    && 1 <= |s| <= 128
    && forall i | 0 <= i < |s| ::
         Lower(s[i]) || Upper(s[i]) || IsDigit(s[i]) || s[i] == '.' || s[i] == '_' || s[i] == ':' || s[i] == '-'
  }

  /** The text of a UUID as uuid.String renders it. */
  predicate UuidText(s: string) {
    |s| == 36 && forall i | 0 <= i < |s| :: IsDigit(s[i]) || 'a' <= s[i] <= 'f' || s[i] == '-'
  }

  predicate ParsedIdentifiers(c: ProjectionInput) {
    && ProviderIdPattern(c.providerId) && ExternalIdPattern(c.externalId)
    && UuidText(c.playerId) && UuidText(c.walletId)
    && ExternalIdPattern(c.roundId) && ExternalIdPattern(c.gameId)
    && c.kind.IsExternal() && CurrencyPattern(c.amount.currency)
    && (c.referenceExternalId == "" || ExternalIdPattern(c.referenceExternalId))
  }

  // ----- The text -----

  function KindText(kind: Kind): string {
    match kind
    case Opening => "OPENING"
    case Bet => "BET"
    case Win => "WIN"
    case Loss => "LOSS"
    case Refund => "REFUND"
    case Rollback => "ROLLBACK"
    case Undocumented(text) => text
  }

  datatype Name =
    | AmountName | CurrencyName | ExternalName | GameName | KindName | PlayerName | ProviderName | ReferenceName
    | RoundName | WalletName

  function NameText(n: Name): string {
    match n
    case AmountName => "amount"
    case CurrencyName => "currency"
    case ExternalName => "externalTransactionId"
    case GameName => "gameId"
    case KindName => "kind"
    case PlayerName => "playerId"
    case ProviderName => "providerId"
    case ReferenceName => "referenceExternalTransactionId"
    case RoundName => "roundId"
    case WalletName => "walletId"
  }

  type Member = (Name, string)

  /** The members the source puts into its string map, the reference only when present. */
  function MemberMap(c: ProjectionInput): map<Name, string> {
    var required := map[
      ProviderName := c.providerId,
      ExternalName := c.externalId,
      PlayerName := c.playerId,
      WalletName := c.walletId,
      RoundName := c.roundId,
      GameName := c.gameId,
      KindName := KindText(c.kind),
      AmountName := String(c.amount),
      CurrencyName := c.amount.currency];
    if c.referenceExternalId != "" then required[ReferenceName := c.referenceExternalId] else required
  }

  function ReferenceMember(c: ProjectionInput): seq<Member> {
    if c.referenceExternalId != "" then [(ReferenceName, c.referenceExternalId)] else []
  }

  /** The same members in the order the encoder emits them. */
  function Members(c: ProjectionInput): seq<Member> {
    [(AmountName, String(c.amount)),
     (CurrencyName, c.amount.currency),
     (ExternalName, c.externalId),
     (GameName, c.gameId),
     (KindName, KindText(c.kind)),
     (PlayerName, c.playerId),
     (ProviderName, c.providerId)]
    + ReferenceMember(c)
    + [(RoundName, c.roundId), (WalletName, c.walletId)]
  }

  function Quoted(m: Member): string {
    "\"" + NameText(m.0) + "\":\"" + m.1 + "\""
  }

  /** Members separated by commas and closed by a brace. */
  function Tail(members: seq<Member>): string {
    if members == [] then "}" else "," + Quoted(members[0]) + Tail(members[1..])
  }

  function Encode(members: seq<Member>): string
    requires members != []
  {
    "{" + Quoted(members[0]) + Tail(members[1..])
  }

  function CanonicalJson(c: ProjectionInput): string {
    Encode(Members(c))
  }

  // ----- Order -----

  /** Comparison by code unit, as section 3.2.3 of RFC 8785 sorts member names. */
  predicate Less(a: string, b: string) {
    if b == "" then false
    else if a == "" then true
    else a[0] < b[0] || (a[0] == b[0] && Less(a[1..], b[1..]))
  }

  predicate Sorted(members: seq<Member>) {
    forall i | 0 <= i < |members| - 1 :: Less(NameText(members[i].0), NameText(members[i + 1].0))
  }

  predicate Holds(members: seq<Member>, name: Name, value: string) {
    exists i | 0 <= i < |members| :: members[i] == (name, value)
  }

  /** The names in the declaration order of Name are strictly increasing as texts. */
  function Rank(n: Name): nat {
    match n
    case AmountName => 0
    case CurrencyName => 1
    case ExternalName => 2
    case GameName => 3
    case KindName => 4
    case PlayerName => 5
    case ProviderName => 6
    case ReferenceName => 7
    case RoundName => 8
    case WalletName => 9
  }

  function Initial(n: Name): char {
    match n
    case AmountName => 'a'
    case CurrencyName => 'c'
    case ExternalName => 'e'
    case GameName => 'g'
    case KindName => 'k'
    case PlayerName => 'p'
    case ProviderName => 'p'
    case ReferenceName => 'r'
    case RoundName => 'r'
    case WalletName => 'w'
  }

  lemma InitialOfName(n: Name)
    ensures NameText(n) != "" && NameText(n)[0] == Initial(n)
  {
  }

  lemma LessByInitial(a: string, b: string)
    requires a != "" && b != "" && a[0] < b[0]
    ensures Less(a, b)
  {
  }

  lemma InitialsIncrease(a: Name, b: Name)
    requires Rank(a) < Rank(b)
    ensures Initial(a) < Initial(b) || (a == PlayerName && b == ProviderName) || (a == ReferenceName && b == RoundName)
  {
  }

  lemma LessBySecond(a: string, b: string)
    requires |a| >= 2 && |b| >= 2 && a[0] == b[0] && a[1] < b[1]
    ensures Less(a, b)
  {
    LessByInitial(a[1..], b[1..]);
  }

  lemma SecondLetters()
    ensures |NameText(PlayerName)| >= 2 && NameText(PlayerName)[1] == 'l'
    ensures |NameText(ProviderName)| >= 2 && NameText(ProviderName)[1] == 'r'
    ensures |NameText(ReferenceName)| >= 2 && NameText(ReferenceName)[1] == 'e'
    ensures |NameText(RoundName)| >= 2 && NameText(RoundName)[1] == 'o'
  {
  }

  lemma SharedInitials()
    ensures Less(NameText(PlayerName), NameText(ProviderName)) && Less(NameText(ReferenceName), NameText(RoundName))
  {
    SecondLetters();
    InitialOfName(PlayerName);
    InitialOfName(ProviderName);
    InitialOfName(ReferenceName);
    InitialOfName(RoundName);
    hide NameText, Less;
    LessBySecond(NameText(PlayerName), NameText(ProviderName));
    LessBySecond(NameText(ReferenceName), NameText(RoundName));
  }

  lemma NamesIncrease(a: Name, b: Name)
    requires Rank(a) < Rank(b)
    ensures Less(NameText(a), NameText(b))
  {
    InitialsIncrease(a, b);
    hide Rank, NameText, Less, Initial;
    InitialOfName(a);
    InitialOfName(b);
    SharedInitials();
    if Initial(a) < Initial(b) {
      LessByInitial(NameText(a), NameText(b));
    }
  }

  /** The members are emitted in strictly increasing name order. */
  lemma MembersAreSorted(c: ProjectionInput)
    ensures Sorted(Members(c))
  {
    var ms := Members(c);
    forall i | 0 <= i < |ms| - 1 ensures Less(NameText(ms[i].0), NameText(ms[i + 1].0)) {
      NamesIncrease(ms[i].0, ms[i + 1].0);
    }
  }

  /** The emitted list is exactly the source's map. */
  lemma MembersAreTheMap(c: ProjectionInput, name: Name, value: string)
    ensures name in MemberMap(c) && MemberMap(c)[name] == value <==> Holds(Members(c), name, value)
  {
    var ms := Members(c);
    if name in MemberMap(c) {
      var k := if Rank(name) < 8 then Rank(name) else |ms| - 10 + Rank(name);
      assert ms[k] == (name, MemberMap(c)[name]);
    }
  }

  // ----- Injectivity -----

  predicate QuoteFree(s: string) {
    forall i | 0 <= i < |s| :: s[i] != '"'
  }

  predicate Encodable(members: seq<Member>) {
    forall i | 0 <= i < |members| :: QuoteFree(members[i].1)
  }

  lemma NameIsQuoteFree(n: Name)
    ensures QuoteFree(NameText(n))
  {
  }

  lemma NameTextInjective(a: Name, b: Name)
    requires NameText(a) == NameText(b)
    ensures a == b
  {
    assert NameText(a)[0] == NameText(b)[0] && |NameText(a)| == |NameText(b)|;
  }

  /** A quote-free field ends at the first quote, whatever follows. */
  lemma FieldEndsAtQuote(a: string, restA: string, b: string, restB: string)
    requires QuoteFree(a) && QuoteFree(b)
    requires a + "\"" + restA == b + "\"" + restB
    ensures a == b && restA == restB
  {
    var whole := a + "\"" + restA;
    assert whole[|a|] == '"' && whole[|b|] == '"';
    assert forall i | 0 <= i < |a| :: whole[i] == a[i];
    assert forall i | 0 <= i < |b| :: whole[i] == b[i];
    assert |a| == |b|;
    assert a == whole[..|a|] && b == whole[..|b|];
    assert restA == whole[|a| + 1..] && restB == whole[|b| + 1..];
  }

  lemma QuotedShape(m: Member, rest: string)
    ensures Quoted(m) + rest == "\"" + (NameText(m.0) + "\"" + (":\"" + (m.1 + "\"" + rest)))
  {
  }

  lemma QuotedIsPrefixFree(m: Member, restM: string, n: Member, restN: string)
    requires QuoteFree(m.1) && QuoteFree(n.1)
    requires Quoted(m) + restM == Quoted(n) + restN
    ensures m == n && restM == restN
  {
    var valueM, valueN := m.1 + "\"" + restM, n.1 + "\"" + restN;
    QuotedShape(m, restM);
    QuotedShape(n, restN);
    DropFirst('"', NameText(m.0) + "\"" + (":\"" + valueM), NameText(n.0) + "\"" + (":\"" + valueN));
    NameIsQuoteFree(m.0);
    NameIsQuoteFree(n.0);
    FieldEndsAtQuote(NameText(m.0), ":\"" + valueM, NameText(n.0), ":\"" + valueN);
    NameTextInjective(m.0, n.0);
    assert valueM == (":\"" + valueM)[2..] && valueN == (":\"" + valueN)[2..];
    FieldEndsAtQuote(m.1, restM, n.1, restN);
  }

  lemma DropLeading(p: string, a: string, restA: string, b: string, restB: string)
    requires p + a + restA == p + b + restB
    ensures a + restA == b + restB
  {
    assert a + restA == (p + a + restA)[|p|..] && b + restB == (p + b + restB)[|p|..];
  }

  lemma DropFirst(c: char, a: string, b: string)
    requires [c] + a == [c] + b
    ensures a == b
  {
    assert a == ([c] + a)[1..] && b == ([c] + b)[1..];
  }

  lemma TailStart(ms: seq<Member>)
    ensures Tail(ms) != "" && (Tail(ms)[0] == '}' <==> ms == [])
  {
  }

  lemma {:induction false} TailInjective(ms: seq<Member>, ns: seq<Member>)
    requires Encodable(ms) && Encodable(ns) && Tail(ms) == Tail(ns)
    ensures ms == ns
  {
    if ms == [] || ns == [] {
      TailStart(ms);
      TailStart(ns);
    } else {
      DropLeading(",", Quoted(ms[0]), Tail(ms[1..]), Quoted(ns[0]), Tail(ns[1..]));
      QuotedIsPrefixFree(ms[0], Tail(ms[1..]), ns[0], Tail(ns[1..]));
      TailInjective(ms[1..], ns[1..]);
      assert ms == [ms[0]] + ms[1..] && ns == [ns[0]] + ns[1..];
    }
  }

  lemma AmountTextIsQuoteFree(m: Money)
    requires m.IsInitialized()
    ensures QuoteFree(String(m))
  {
    StringExact(m);
    var text := Hundredths(Magnitude(m.minorUnits));
    HundredthsDenotes(Magnitude(m.minorUnits));
    forall i | 0 <= i < |text| ensures text[i] != '"' {
      if i < |text| - 3 {
        assert text[i] == text[..|text| - 3][i];
      }
    }
  }

  lemma KindTextIsQuoteFree(k: Kind)
    requires k.IsExternal()
    ensures QuoteFree(KindText(k))
  {
  }

  lemma FieldsAreQuoteFree(c: ProjectionInput)
    requires ParsedIdentifiers(c)
    ensures QuoteFree(c.providerId) && QuoteFree(c.externalId) && QuoteFree(c.playerId) && QuoteFree(c.walletId)
    ensures QuoteFree(c.roundId) && QuoteFree(c.gameId) && QuoteFree(c.amount.currency)
    ensures QuoteFree(c.referenceExternalId)
  {
  }

  lemma MembersAreEncodable(c: ProjectionInput)
    requires QuoteFree(c.providerId) && QuoteFree(c.externalId) && QuoteFree(c.playerId) && QuoteFree(c.walletId)
    requires QuoteFree(c.roundId) && QuoteFree(c.gameId) && QuoteFree(c.amount.currency)
    requires QuoteFree(c.referenceExternalId)
    requires QuoteFree(KindText(c.kind)) && QuoteFree(String(c.amount))
    ensures Encodable(Members(c))
  {
    var ms := Members(c);
    forall i | 0 <= i < |ms| ensures QuoteFree(ms[i].1) {
    }
  }

  lemma {:induction false} EncodeInjective(ms: seq<Member>, ns: seq<Member>)
    requires ms != [] && ns != [] && Encodable(ms) && Encodable(ns) && Encode(ms) == Encode(ns)
    ensures ms == ns
  {
    DropLeading("{", Quoted(ms[0]), Tail(ms[1..]), Quoted(ns[0]), Tail(ns[1..]));
    QuotedIsPrefixFree(ms[0], Tail(ms[1..]), ns[0], Tail(ns[1..]));
    TailInjective(ms[1..], ns[1..]);
    assert ms == [ms[0]] + ms[1..] && ns == [ns[0]] + ns[1..];
  }

  lemma ParsedMembersAreEncodable(c: ProjectionInput)
    requires ParsedIdentifiers(c)
    ensures Encodable(Members(c))
  {
    FieldsAreQuoteFree(c);
    KindTextIsQuoteFree(c.kind);
    AmountTextIsQuoteFree(c.amount);
    MembersAreEncodable(c);
  }

  lemma MembersDetermineFields(a: ProjectionInput, b: ProjectionInput)
    requires ParsedIdentifiers(a) && ParsedIdentifiers(b) && Members(a) == Members(b)
    ensures a == b
  {
    var ms, ns := Members(a), Members(b);
    assert ms[0] == ns[0] && ms[1] == ns[1] && ms[2] == ns[2] && ms[3] == ns[3] && ms[4] == ns[4] && ms[5] == ns[5]
           && ms[6] == ns[6];
    assert ms[|ms| - 1] == ns[|ns| - 1] && ms[|ms| - 2] == ns[|ns| - 2];
    assert |ms| == 9 + |ReferenceMember(a)| && |ns| == 9 + |ReferenceMember(b)|;
    if a.referenceExternalId != "" {
      assert ms[7] == (ReferenceName, a.referenceExternalId);
    }
    assert KindText(a.kind) == KindText(b.kind);
    KindTextInjective(a.kind, b.kind);
    StringInjective(a.amount, b.amount);
  }

  lemma KindTextInjective(a: Kind, b: Kind)
    requires a.IsExternal() && b.IsExternal() && KindText(a) == KindText(b)
    ensures a == b
  {
    assert KindText(a)[0] == KindText(b)[0];
    assert |KindText(a)| == |KindText(b)|;
  }

  /** Two parsed projections have the same canonical text exactly when all nine business fields agree,
      the absence of the reference included. */
  lemma CanonicalJsonInjective(a: ProjectionInput, b: ProjectionInput)
    requires ParsedIdentifiers(a) && ParsedIdentifiers(b)
    ensures CanonicalJson(a) == CanonicalJson(b) <==> a == b
  {
    if CanonicalJson(a) == CanonicalJson(b) {
      ParsedMembersAreEncodable(a);
      ParsedMembersAreEncodable(b);
      EncodeInjective(Members(a), Members(b));
      MembersDetermineFields(a, b);
    }
  }

  /** Replacing SHA-256 of the canonical text by the projection itself loses nothing: two parsed commands have the same
      text exactly when they have the same digest here, which is when their nine business fields agree. */
  lemma TextDecidesDigest(a: Commands.SubmitWagerCommand, b: Commands.SubmitWagerCommand)
    requires ParsedIdentifiers(Commands.ProjectionOf(a)) && ParsedIdentifiers(Commands.ProjectionOf(b))
    ensures CanonicalJson(Commands.ProjectionOf(a)) == CanonicalJson(Commands.ProjectionOf(b)) <==>
              Commands.DigestOf(a) == Commands.DigestOf(b)
    ensures CanonicalJson(Commands.ProjectionOf(a)) == CanonicalJson(Commands.ProjectionOf(b)) <==>
            a == b.(idempotencyKey := a.idempotencyKey)
  {
    CanonicalJsonInjective(Commands.ProjectionOf(a), Commands.ProjectionOf(b));
    hide CanonicalJson, ParsedIdentifiers;
    Commands.DigestsAgreeWhen(a, b);
  }
}
