/**
 * The challenge ledger as a value: entry and ledger validation, the three
 * transitions (issue, consume, revoke) and what each of them commits.
 * Timestamps are milliseconds; a file's text is identified with the value it spells.
 */
module ChallengeLedger {
  import opened Basics

  const MAX_ENTRIES := 128
  const MAX_LIFETIME_MS := 300_000
  const MAX_CLOCK_SKEW_MS := 30_000
  const RECOVERY_MARGIN_MS := 60_000
  const MAX_RETENTION_MS := 604_800_000
  const MAX_CANONICAL_BYTES := 65_536
  const MAX_SAFE_INTEGER := 9_007_199_254_740_991
  /** The largest instant a `Date` can hold. */
  const MAX_DATE_MS := 8_640_000_000_000_000
  /** 9999-12-31T23:59:59.999Z: later instants print with a signed six-digit year. */
  const MAX_CANONICAL_MS := 253_402_300_799_999
  const ISSUE_ATTEMPTS := 4

  datatype Status = Issued | Consumed | Revoked

  datatype Entry = Entry(
    keyId: string,
    challenge: string,
    status: Status,
    issuedAt: nat,
    expiresAt: nat,
    retainUntil: nat,
    consumedAt: Option<nat>,
    revokedAt: Option<nat>)

  datatype Ledger = Ledger(
    generation: nat,
    lastOperationId: Option<string>,
    updatedAt: nat,
    entries: seq<Entry>)

  /** What a transition commits, with the entry it acted on. */
  datatype Change = Change(post: Ledger, entry: Entry)

  // ---------------------------------------------------------------- identities

  predicate KeyChar(c: char) {
    'A' <= c <= 'Z' || 'a' <= c <= 'z' || '0' <= c <= '9' || c in "._/@-"
  }

  predicate ValidKeyId(s: string) {
    1 <= |s| <= 128 && forall i | 0 <= i < |s| :: KeyChar(s[i])
  }

  predicate ValidChallenge(s: string) {
    |s| == 64 && forall i | 0 <= i < |s| :: '0' <= s[i] <= '9' || 'a' <= s[i] <= 'f'
  }

  predicate ValidOperationId(s: string) {
    1 <= |s| <= 160 &&
    forall i | 0 <= i < |s| ::
      'A' <= s[i] <= 'Z' || 'a' <= s[i] <= 'z' || '0' <= s[i] <= '9' || s[i] in "._-"
  }

  /**
   * An operation id begins with the digits of its clock's printed form. Past year 9999
   * that form begins with a sign, which neither a receipt nor a ledger accepts in an id.
   */
  predicate StampedBy(id: string, nowMs: int) {
    |id| <= 160 && if nowMs <= MAX_CANONICAL_MS then ValidOperationId(id) else id != "" && id[0] == '+'
  }

  lemma StampValid(id: string, nowMs: nat)
    requires StampedBy(id, nowMs)
    ensures ValidOperationId(id) <==> CanonicalTime(nowMs)
  {
  }

  function LedgerKey(keyId: string, challenge: string): string {
    keyId + ":" + challenge
  }

  function Key(e: Entry): string {
    LedgerKey(e.keyId, e.challenge)
  }

  predicate Names(e: Entry, keyId: string, challenge: string) {
    e.keyId == keyId && e.challenge == challenge
  }

  /** The joined key determines both parts: challenges have one length. */
  lemma KeyInjective(k1: string, c1: string, k2: string, c2: string)
    requires |c1| == |c2|
    requires LedgerKey(k1, c1) == LedgerKey(k2, c2)
    ensures k1 == k2 && c1 == c2
  {
    var a, b := LedgerKey(k1, c1), LedgerKey(k2, c2);
    assert |k1| == |k2|;
    assert k1 == a[..|k1|] && k2 == b[..|k2|];
    assert c1 == a[|k1| + 1..] && c2 == b[|k2| + 1..];
  }

  // ------------------------------------------------------------------ ordering

  /** JavaScript's `<` on strings. */
  predicate Less(a: string, b: string) {
    |b| > 0 && (|a| == 0 || a[0] < b[0] || (a[0] == b[0] && Less(a[1..], b[1..])))
  }

  lemma LessTotal(a: string, b: string)
    ensures a == b || Less(a, b) || Less(b, a)
  {
    if |a| > 0 && |b| > 0 && a[0] == b[0] {
      LessTotal(a[1..], b[1..]);
      assert a == [a[0]] + a[1..] && b == [b[0]] + b[1..];
    }
  }

  lemma {:induction false} LessTransitive(a: string, b: string, c: string)
    requires Less(a, b) && Less(b, c)
    ensures Less(a, c)
  {
    if |a| > 0 && a[0] == b[0] && b[0] == c[0] {
      LessTransitive(a[1..], b[1..], c[1..]);
    }
  }

  lemma {:induction false} LessIrreflexive(a: string, b: string)
    requires Less(a, b)
    ensures !Less(b, a)
  {
    if |a| > 0 && a[0] == b[0] {
      LessIrreflexive(a[1..], b[1..]);
    }
  }

  ghost predicate StrictlySorted(es: seq<Entry>) {
    forall i, j | 0 <= i < j < |es| :: Less(Key(es[i]), Key(es[j]))
  }

  ghost predicate UniqueKeys(es: seq<Entry>) {
    forall i, j | 0 <= i < j < |es| :: Key(es[i]) != Key(es[j])
  }

  function Insert(e: Entry, es: seq<Entry>): (r: seq<Entry>)
    ensures |r| == |es| + 1
    ensures multiset(r) == multiset(es) + multiset{e}
  {
    if |es| == 0 || !Less(Key(es[0]), Key(e)) then
      [e] + es
    else
      assert es == [es[0]] + es[1..];
      [es[0]] + Insert(e, es[1..])
  }

  /** The stable sort by joined key. */
  function Sort(es: seq<Entry>): (r: seq<Entry>)
    ensures |r| == |es|
    ensures multiset(r) == multiset(es)
  {
    if es == [] then
      []
    else
      assert es == [es[0]] + es[1..];
      Insert(es[0], Sort(es[1..]))
  }

  lemma SortMembers(es: seq<Entry>, e: Entry)
    ensures e in Sort(es) <==> e in es
  {
    assert e in multiset(Sort(es)) <==> e in multiset(es);
  }

  lemma {:induction false} InsertSorted(e: Entry, es: seq<Entry>)
    requires StrictlySorted(es)
    requires forall x | x in es :: Key(x) != Key(e)
    ensures StrictlySorted(Insert(e, es))
  {
    if |es| == 0 {
      return;
    }
    var r := Insert(e, es);
    if !Less(Key(es[0]), Key(e)) {
      LessTotal(Key(es[0]), Key(e));
      forall i, j | 0 <= i < j < |r| ensures Less(Key(r[i]), Key(r[j])) {
        if i == 0 && j > 1 {
          assert r[j] == es[j - 1];
          LessTransitive(Key(e), Key(es[0]), Key(es[j - 1]));
        }
      }
    } else {
      var t := Insert(e, es[1..]);
      InsertSorted(e, es[1..]);
      forall i, j | 0 <= i < j < |r| ensures Less(Key(r[i]), Key(r[j])) {
        if i == 0 {
          assert r[j] == t[j - 1] && t[j - 1] in multiset(t);
          assert r[j] == e || r[j] in es[1..];
        } else {
          assert r[i] == t[i - 1] && r[j] == t[j - 1];
        }
      }
    }
  }

  lemma {:induction false} SortSorts(es: seq<Entry>)
    requires UniqueKeys(es)
    ensures StrictlySorted(Sort(es))
  {
    if es != [] {
      SortSorts(es[1..]);
      forall x | x in Sort(es[1..]) ensures Key(x) != Key(es[0]) {
        SortMembers(es[1..], x);
      }
      InsertSorted(es[0], Sort(es[1..]));
    }
  }

  lemma StrictlySortedUnique(es: seq<Entry>)
    requires StrictlySorted(es)
    ensures UniqueKeys(es)
  {
    forall i, j | 0 <= i < j < |es| ensures Key(es[i]) != Key(es[j]) {
      if Key(es[i]) == Key(es[j]) {
        LessIrreflexive(Key(es[i]), Key(es[j]));
      }
    }
  }

  /** Sorting fixes exactly the strictly sorted lists, among lists with unique keys. */
  lemma {:induction false} SortFixes(es: seq<Entry>)
    requires StrictlySorted(es)
    ensures Sort(es) == es
  {
    if |es| > 0 {
      SortFixes(es[1..]);
      if |es| > 1 {
        LessIrreflexive(Key(es[0]), Key(es[1]));
      }
    }
  }

  // ---------------------------------------------------------------- timestamps

  /** `timestamp`: the clock check, then `toISOString`, which throws past MAX_DATE_MS. */
  function Timestamp(ms: int): Result<nat, string> {
    if ms < 0 || ms > MAX_SAFE_INTEGER then
      Failure("challenge-ledger-clock-invalid")
    else if ms > MAX_DATE_MS then
      Failure("Invalid time value")
    else
      Success(ms)
  }

  /** `canonicalTimestamp` accepts the printed form of exactly these instants. */
  predicate CanonicalTime(ms: nat) {
    ms <= MAX_CANONICAL_MS
  }

  // ---------------------------------------------------------------- validation

  /** `parseEntry` on a value of the right shape, checks in source order. */
  function ParseEntry(e: Entry): Result<Entry, string> {
    if !ValidKeyId(e.keyId) || !ValidChallenge(e.challenge) then
      Failure("challenge-ledger-entry-identity-invalid")
    else if !CanonicalTime(e.issuedAt) || !CanonicalTime(e.expiresAt) || !CanonicalTime(e.retainUntil) then
      Failure("challenge-ledger-entry-time-invalid")
    else if e.expiresAt <= e.issuedAt
         || e.expiresAt - e.issuedAt > MAX_LIFETIME_MS
         || e.retainUntil < e.expiresAt + MAX_CLOCK_SKEW_MS + RECOVERY_MARGIN_MS
         || e.retainUntil - e.expiresAt > MAX_RETENTION_MS then
      Failure("challenge-ledger-entry-window-invalid")
    else if e.status.Issued? && (e.consumedAt.Some? || e.revokedAt.Some?) then
      Failure("challenge-ledger-issued-terminal-time-invalid")
    else if e.status.Consumed?
         && (e.consumedAt.None? || !CanonicalTime(e.consumedAt.value) || e.revokedAt.Some?
             || e.consumedAt.value < e.issuedAt || e.consumedAt.value >= e.expiresAt) then
      Failure("challenge-ledger-consumed-time-invalid")
    else if e.status.Revoked?
         && (e.revokedAt.None? || !CanonicalTime(e.revokedAt.value) || e.consumedAt.Some?
             || e.revokedAt.value < e.issuedAt) then
      Failure("challenge-ledger-revoked-time-invalid")
    else
      Success(e)
  }

  /** Characters of a decimal numeral. */
  function Digits(n: nat): nat {
    if n < 10 then 1 else 1 + Digits(n / 10)
  }

  /** Characters of a printed instant, quotes included. */
  function TimeSize(ms: nat): nat {
    if CanonicalTime(ms) then 26 else 29
  }

  function OptionalTimeSize(t: Option<nat>): nat {
    if t.Some? then TimeSize(t.value) else 4
  }

  function StatusSize(s: Status): nat {
    if s.Issued? then 8 else if s.Consumed? then 10 else 9
  }

  /** Length of the canonical JSON of an entry; names, quotes and punctuation take 104 characters. */
  function EntrySize(e: Entry): nat {
    104 + |e.challenge| + |e.keyId| + StatusSize(e.status)
    + TimeSize(e.issuedAt) + TimeSize(e.expiresAt) + TimeSize(e.retainUntil)
    + OptionalTimeSize(e.consumedAt) + OptionalTimeSize(e.revokedAt)
  }

  function EntriesSize(es: seq<Entry>): nat {
    if es == [] then 0 else EntrySize(es[0]) + (if |es| > 1 then 1 else 0) + EntriesSize(es[1..])
  }

  /** Length of the canonical JSON of a ledger; everything but its five varying parts takes 128 characters. */
  function LedgerSize(l: Ledger): nat {
    128 + EntriesSize(l.entries) + Digits(l.generation) + TimeSize(l.updatedAt)
    + (if l.lastOperationId.Some? then 2 + |l.lastOperationId.value| else 4)
  }

  predicate AllEntriesParse(es: seq<Entry>) {
    forall i | 0 <= i < |es| :: ParseEntry(es[i]).Success?
  }

  predicate HasDuplicateKey(es: seq<Entry>) {
    exists i, j | 0 <= i < j < |es| :: Key(es[i]) == Key(es[j])
  }

  /** `parseCanonical(raw, parseChallengeLedger)`: size, metadata, entries, uniqueness, order. */
  function ParseLedger(l: Ledger): Result<Ledger, string> {
    if LedgerSize(l) > MAX_CANONICAL_BYTES then
      Failure("challenge-ledger-json-oversized")
    else if l.generation > MAX_SAFE_INTEGER || l.generation < 1
         || l.lastOperationId.None? || !ValidOperationId(l.lastOperationId.value)
         || !CanonicalTime(l.updatedAt) || |l.entries| > MAX_ENTRIES then
      Failure("challenge-ledger-metadata-invalid")
    else if !AllEntriesParse(l.entries) then
      Failure("challenge-ledger-entry-invalid")
    else if HasDuplicateKey(l.entries) then
      Failure("challenge-ledger-entry-duplicate")
    else if Sort(l.entries) != l.entries then
      Failure("challenge-ledger-entry-order-invalid")
    else
      Success(l)
  }

  predicate Parses(l: Ledger) {
    ParseLedger(l).Success?
  }

  /** Acceptance in plain terms; the sort-and-compare of the source means strict order. */
  lemma ParsesMeans(l: Ledger)
    ensures Parses(l) <==>
              && LedgerSize(l) <= MAX_CANONICAL_BYTES
              && 1 <= l.generation <= MAX_SAFE_INTEGER
              && l.lastOperationId.Some? && ValidOperationId(l.lastOperationId.value)
              && CanonicalTime(l.updatedAt)
              && |l.entries| <= MAX_ENTRIES
              && AllEntriesParse(l.entries)
              && StrictlySorted(l.entries)
  {
    if StrictlySorted(l.entries) {
      SortFixes(l.entries);
      StrictlySortedUnique(l.entries);
    }
    if UniqueKeys(l.entries) {
      SortSorts(l.entries);
    }
  }

  // --------------------------------------------------------------- transitions

  const INITIAL := Ledger(0, None, 0, [])

  function Prune(es: seq<Entry>, nowMs: int): (r: seq<Entry>)
    ensures forall e :: e in r <==> e in es && e.retainUntil > nowMs
    ensures |r| <= |es|
  {
    if es == [] then [] else
    (if es[0].retainUntil > nowMs then [es[0]] else []) + Prune(es[1..], nowMs)
  }

  function NextState(previous: Ledger, operationId: string, updatedAt: nat, es: seq<Entry>): Ledger {
    Ledger(previous.generation + 1, Some(operationId), updatedAt, Sort(es))
  }

  function EntryFor(es: seq<Entry>, keyId: string, challenge: string): (r: Option<Entry>)
    ensures r.Some? ==> r.value in es && Names(r.value, keyId, challenge)
    ensures r.None? ==> forall e | e in es :: !Names(e, keyId, challenge)
  {
    if es == [] then None
    else if Names(es[0], keyId, challenge) then Some(es[0])
    else EntryFor(es[1..], keyId, challenge)
  }

  function Replace(es: seq<Entry>, entry: Entry): (r: seq<Entry>)
    ensures |r| == |es|
    ensures forall i | 0 <= i < |es| ::
              r[i] == if Names(es[i], entry.keyId, entry.challenge) then entry else es[i]
  {
    seq(|es|, i requires 0 <= i < |es| =>
      if Names(es[i], entry.keyId, entry.challenge) then entry else es[i])
  }

  predicate ChallengeTaken(es: seq<Entry>, challenge: string) {
    exists i | 0 <= i < |es| :: es[i].challenge == challenge
  }

  /** The first unused candidate among the attempts from `attempt` on. */
  function FirstFresh(es: seq<Entry>, generate: nat -> string, attempt: nat): (r: Option<string>)
    requires attempt <= ISSUE_ATTEMPTS
    ensures r.Some? ==> !ChallengeTaken(es, r.value)
    ensures r.Some? ==> exists i | attempt <= i < ISSUE_ATTEMPTS :: generate(i) == r.value
    decreases ISSUE_ATTEMPTS - attempt
  {
    if attempt == ISSUE_ATTEMPTS then None
    else if !ChallengeTaken(es, generate(attempt)) then Some(generate(attempt))
    else FirstFresh(es, generate, attempt + 1)
  }

  /** The generation loop of `issueProbeChallenge`. */
  method PickChallenge(es: seq<Entry>, generate: nat -> string) returns (challenge: Option<string>)
    ensures challenge == FirstFresh(es, generate, 0)
    ensures challenge.None? ==> forall i | 0 <= i < ISSUE_ATTEMPTS :: ChallengeTaken(es, generate(i))
  {
    challenge := None;
    var attempt := 0;
    while attempt < ISSUE_ATTEMPTS
      invariant 0 <= attempt <= ISSUE_ATTEMPTS
      invariant challenge.None?
      invariant FirstFresh(es, generate, 0) == FirstFresh(es, generate, attempt)
      invariant forall i | 0 <= i < attempt :: ChallengeTaken(es, generate(i))
    {
      var candidate := generate(attempt);
      if !ChallengeTaken(es, candidate) {
        challenge := Some(candidate);
        return;
      }
      attempt := attempt + 1;
    }
  }

  datatype IssueRequest = IssueRequest(keyId: string, nowMs: int, lifetimeMs: int, retentionMs: int)

  /** The canonical serialization every commit passes before it writes anything. */
  function Sized(post: Ledger, entry: Entry): Result<Change, string> {
    if post.generation > MAX_SAFE_INTEGER then
      Failure("canonical-number-not-safe-integer")
    else if LedgerSize(post) > MAX_CANONICAL_BYTES then
      Failure("canonical-byte-limit-exceeded")
    else
      Success(Change(post, entry))
  }

  /** The argument checks of `issueProbeChallenge`, made before the lock is taken. */
  function CheckIssue(q: IssueRequest): Result<nat, string> {
    if !ValidKeyId(q.keyId) then
      Failure("challenge-ledger-key-id-invalid")
    else
      var now :- Timestamp(q.nowMs);
      if q.lifetimeMs < 1 || q.lifetimeMs > MAX_LIFETIME_MS then
        Failure("challenge-ledger-lifetime-invalid")
      else if q.retentionMs < MAX_CLOCK_SKEW_MS + RECOVERY_MARGIN_MS || q.retentionMs > MAX_RETENTION_MS then
        Failure("challenge-ledger-retention-invalid")
      else
        Success(now)
  }

  /** The entry `issueProbeChallenge` adds, given the entries that survive pruning. */
  function IssueEntry(kept: seq<Entry>, q: IssueRequest, generate: nat -> string): Result<Entry, string> {
    var now :- CheckIssue(q);
    if |kept| >= MAX_ENTRIES then
      Failure("challenge-ledger-capacity-entries-exhausted")
    else
      var picked := FirstFresh(kept, generate, 0);
      if picked.None? then
        Failure("challenge-ledger-random-collision-limit")
      else
        var expires :- Timestamp(q.nowMs + q.lifetimeMs);
        var retain :- Timestamp(q.nowMs + q.lifetimeMs + q.retentionMs);
        Success(Entry(q.keyId, picked.value, Issued, now, expires, retain, None, None))
  }

  /** What `issueProbeChallenge` commits on the ledger it read under the lock. */
  function Issue(pre: Ledger, q: IssueRequest, generate: nat -> string, operationId: string)
    : Result<Change, string>
  {
    var kept := Prune(pre.entries, q.nowMs);
    var entry :- IssueEntry(kept, q, generate);
    Sized(NextState(pre, operationId, entry.issuedAt, kept + [entry]), entry)
  }

  /** What `consumeProbeChallenge` commits. */
  function Consume(pre: Ledger, keyId: string, challenge: string, nowMs: int, operationId: string)
    : Result<Change, string>
  {
    if !ValidKeyId(keyId) || !ValidChallenge(challenge) then
      Failure("challenge-ledger-consume-identity-invalid")
    else
      var now :- Timestamp(nowMs);
      var found := EntryFor(pre.entries, keyId, challenge);
      if found.None? then
        Failure("challenge-ledger-challenge-missing")
      else
        var existing := found.value;
        if existing.status.Consumed? then
          Failure("challenge-ledger-challenge-consumed")
        else if existing.status.Revoked? then
          Failure("challenge-ledger-challenge-revoked")
        else if nowMs < existing.issuedAt then
          Failure("challenge-ledger-challenge-not-yet-active")
        else if nowMs >= existing.expiresAt then
          Failure("challenge-ledger-challenge-expired")
        else
          var entry := existing.(status := Consumed, consumedAt := Some(now));
          Sized(NextState(pre, operationId, now, Replace(pre.entries, entry)), entry)
  }

  /** What `rollbackIssuedChallenge` commits once its drift check has passed. */
  function Revoke(pre: Ledger, keyId: string, challenge: string, nowMs: int, operationId: string)
    : Result<Change, string>
  {
    var now :- Timestamp(nowMs);
    var found := EntryFor(pre.entries, keyId, challenge);
    if found.None? || !found.value.status.Issued? then
      Failure("challenge-ledger-rollback-would-reopen-terminal-state")
    else
      var entry := found.value.(status := Revoked, revokedAt := Some(now));
      Sized(NextState(pre, operationId, now, Replace(pre.entries, entry)), entry)
  }

  // ------------------------------------------- what the transitions preserve

  /** What every reader may rely on: the empty starting point or an accepted file. */
  predicate Readable(l: Ledger) {
    l == INITIAL || Parses(l)
  }

  lemma ReadableFacts(l: Ledger)
    requires Readable(l)
    ensures StrictlySorted(l.entries) && UniqueKeys(l.entries)
    ensures AllEntriesParse(l.entries) && |l.entries| <= MAX_ENTRIES
    ensures forall e | e in l.entries :: ParseEntry(e).Success?
  {
    ParsesMeans(l);
    StrictlySortedUnique(l.entries);
  }

  lemma {:induction false} PruneUnique(es: seq<Entry>, nowMs: int)
    requires UniqueKeys(es)
    ensures UniqueKeys(Prune(es, nowMs))
  {
    if es != [] {
      var t := Prune(es[1..], nowMs);
      PruneUnique(es[1..], nowMs);
      forall e | e in t ensures Key(e) != Key(es[0]) {
        assert e in es[1..];
      }
    }
  }

  // ----------------------------------------------------------- the byte limit

  function PowerOfTen(k: nat): nat {
    if k == 0 then 1 else 10 * PowerOfTen(k - 1)
  }

  lemma {:induction false} DigitsBound(n: nat, k: nat)
    requires 0 < k && n < PowerOfTen(k)
    ensures Digits(n) <= k
  {
    if n >= 10 {
      assert k > 1;
      DigitsBound(n / 10, k - 1);
    }
  }

  /** The identity of an entry, as far as its size goes. */
  predicate Bounded(e: Entry) {
    |e.keyId| <= 128 && |e.challenge| == 64
  }

  lemma {:induction false} EntriesBound(es: seq<Entry>)
    requires forall e | e in es :: Bounded(e)
    ensures EntriesSize(es) <= 452 * |es|
  {
    if es != [] {
      assert Bounded(es[0]);
      EntriesBound(es[1..]);
    }
  }

  /** 128 entries of the largest size, the longest id and the largest generation still fit. */
  lemma CommitFits(pre: Ledger, operationId: string, now: nat, es: seq<Entry>)
    requires |es| <= MAX_ENTRIES && forall e | e in es :: Bounded(e)
    requires |operationId| <= 160 && pre.generation < MAX_SAFE_INTEGER
    ensures LedgerSize(NextState(pre, operationId, now, es)) <= MAX_CANONICAL_BYTES
  {
    var post := NextState(pre, operationId, now, es);
    forall e | e in post.entries ensures Bounded(e) {
      SortMembers(es, e);
    }
    EntriesBound(post.entries);
    assert PowerOfTen(4) == 10_000 && PowerOfTen(8) == 10_000 * PowerOfTen(4);
    assert PowerOfTen(12) == 10_000 * PowerOfTen(8) && PowerOfTen(16) == 10_000 * PowerOfTen(12);
    DigitsBound(post.generation, 16);
  }

  /** The sorted, committed list of entries with unique keys is accepted when each entry is. */
  lemma CommitParses(pre: Ledger, operationId: string, now: nat, es: seq<Entry>)
    requires UniqueKeys(es) && |es| <= MAX_ENTRIES && forall e | e in es :: Bounded(e)
    requires StampedBy(operationId, now) && pre.generation < MAX_SAFE_INTEGER
    ensures Parses(NextState(pre, operationId, now, es)) <==>
            CanonicalTime(now) && forall e | e in es :: ParseEntry(e).Success?
  {
    var post := NextState(pre, operationId, now, es);
    SortSorts(es);
    StampValid(operationId, now);
    CommitFits(pre, operationId, now, es);
    ParsesMeans(post);
    forall e | e in es ensures e in post.entries {
      SortMembers(es, e);
    }
    forall i | 0 <= i < |post.entries| ensures post.entries[i] in es {
      SortMembers(es, post.entries[i]);
    }
  }

  lemma IssueEntryForm(kept: seq<Entry>, q: IssueRequest, generate: nat -> string)
    requires IssueEntry(kept, q, generate).Success?
    ensures var entry := IssueEntry(kept, q, generate).value;
            && q.nowMs >= 0 && CheckIssue(q).Success? && |kept| < MAX_ENTRIES
            && entry == Entry(q.keyId, entry.challenge, Issued, q.nowMs, q.nowMs + q.lifetimeMs,
                              q.nowMs + q.lifetimeMs + q.retentionMs, None, None)
            && !ChallengeTaken(kept, entry.challenge)
            && (exists i | 0 <= i < ISSUE_ATTEMPTS :: generate(i) == entry.challenge)
  {
    assert CheckIssue(q).Success? && CheckIssue(q).value == q.nowMs;
  }

  lemma IssueForm(pre: Ledger, q: IssueRequest, generate: nat -> string, operationId: string)
    requires Issue(pre, q, generate, operationId).Success?
    ensures var c := Issue(pre, q, generate, operationId).value;
            && IssueEntry(Prune(pre.entries, q.nowMs), q, generate) == Success(c.entry)
            && c.post == NextState(pre, operationId, c.entry.issuedAt, Prune(pre.entries, q.nowMs) + [c.entry])
            && c.post.generation <= MAX_SAFE_INTEGER
  {
  }

  lemma IssuedEntryParses(q: IssueRequest, challenge: string)
    requires CheckIssue(q).Success? && ValidChallenge(challenge)
    ensures var e := Entry(q.keyId, challenge, Issued, q.nowMs, q.nowMs + q.lifetimeMs,
                           q.nowMs + q.lifetimeMs + q.retentionMs, None, None);
            ParseEntry(e).Success? <==> CanonicalTime(e.retainUntil)
  {
  }

  /** Adding an entry with an untaken challenge keeps the joined keys unique. */
  lemma AppendUnique(es: seq<Entry>, e: Entry)
    requires UniqueKeys(es) && !ChallengeTaken(es, e.challenge)
    requires ValidChallenge(e.challenge) && forall x | x in es :: ValidChallenge(x.challenge)
    ensures UniqueKeys(es + [e])
  {
    forall i | 0 <= i < |es| ensures Key(es[i]) != Key(e) {
      if Key(es[i]) == Key(e) {
        assert es[i] in es;
        KeyInjective(es[i].keyId, es[i].challenge, e.keyId, e.challenge);
      }
    }
  }

  /**
   * An issued ledger is accepted by the next reader exactly when the retention
   * deadline still prints with a four-digit year.
   */
  lemma IssueReadable(pre: Ledger, q: IssueRequest, generate: nat -> string, operationId: string)
    requires Readable(pre) && StampedBy(operationId, q.nowMs)
    requires forall i :: ValidChallenge(generate(i))
    requires Issue(pre, q, generate, operationId).Success?
    ensures Parses(Issue(pre, q, generate, operationId).value.post) <==>
            q.nowMs + q.lifetimeMs + q.retentionMs <= MAX_CANONICAL_MS
  {
    var entry := Issue(pre, q, generate, operationId).value.entry;
    IssueForm(pre, q, generate, operationId);
    IssueEntryForm(Prune(pre.entries, q.nowMs), q, generate);
    IssuedParses(pre, q, entry, operationId);
  }

  lemma IssuedParses(pre: Ledger, q: IssueRequest, entry: Entry, operationId: string)
    requires Readable(pre) && StampedBy(operationId, q.nowMs) && pre.generation < MAX_SAFE_INTEGER
    requires CheckIssue(q).Success? && ValidChallenge(entry.challenge)
    requires entry == Entry(q.keyId, entry.challenge, Issued, q.nowMs, q.nowMs + q.lifetimeMs,
                            q.nowMs + q.lifetimeMs + q.retentionMs, None, None)
    requires !ChallengeTaken(Prune(pre.entries, q.nowMs), entry.challenge)
    requires |Prune(pre.entries, q.nowMs)| < MAX_ENTRIES
    ensures Parses(NextState(pre, operationId, q.nowMs, Prune(pre.entries, q.nowMs) + [entry])) <==>
            CanonicalTime(entry.retainUntil)
  {
    var kept := Prune(pre.entries, q.nowMs);
    ReadableFacts(pre);
    PruneUnique(pre.entries, q.nowMs);
    AppendUnique(kept, entry);
    IssuedEntryParses(q, entry.challenge);
    assert entry in kept + [entry];
    CommitParses(pre, operationId, q.nowMs, kept + [entry]);
  }

  lemma ReplaceFacts(es: seq<Entry>, was: Entry, entry: Entry)
    requires UniqueKeys(es) && was in es && Names(entry, was.keyId, was.challenge)
    ensures UniqueKeys(Replace(es, entry))
    ensures forall e :: e in Replace(es, entry) <==> e == entry || (e in es && e != was)
  {
    var r := Replace(es, entry);
    forall i, j | 0 <= i < j < |r| ensures Key(r[i]) != Key(r[j]) {
      assert Key(r[i]) == Key(es[i]) && Key(r[j]) == Key(es[j]);
    }
    var at :| 0 <= at < |es| && es[at] == was;
    assert r[at] == entry;
    forall i | 0 <= i < |es| && i != at ensures r[i] == es[i] && es[i] != was {
      assert Key(es[i]) != Key(was);
    }
    forall e | e in es && e != was ensures e in r {
      var i :| 0 <= i < |es| && es[i] == e;
      assert r[i] == e;
    }
  }

  lemma ConsumeForm(pre: Ledger, keyId: string, challenge: string, nowMs: int, operationId: string)
    requires Consume(pre, keyId, challenge, nowMs, operationId).Success?
    ensures var c := Consume(pre, keyId, challenge, nowMs, operationId).value;
            && EntryFor(pre.entries, keyId, challenge).Some? && nowMs >= 0
            && var was := EntryFor(pre.entries, keyId, challenge).value;
            && was.status.Issued? && was.issuedAt <= nowMs < was.expiresAt
            && c.entry == was.(status := Consumed, consumedAt := Some(nowMs))
            && c.post == NextState(pre, operationId, nowMs, Replace(pre.entries, c.entry))
            && c.post.generation <= MAX_SAFE_INTEGER
  {
  }

  lemma ConsumedEntryParses(was: Entry, nowMs: nat)
    requires ParseEntry(was).Success? && was.status.Issued? && was.issuedAt <= nowMs < was.expiresAt
    ensures ParseEntry(was.(status := Consumed, consumedAt := Some(nowMs))).Success?
    ensures CanonicalTime(nowMs)
  {
  }

  /** Every consumed ledger is accepted: the entry's own window keeps the clock canonical. */
  lemma ConsumeReadable(pre: Ledger, keyId: string, challenge: string, nowMs: int, operationId: string)
    requires Readable(pre) && StampedBy(operationId, nowMs)
    requires Consume(pre, keyId, challenge, nowMs, operationId).Success?
    ensures Parses(Consume(pre, keyId, challenge, nowMs, operationId).value.post)
  {
    var entry := Consume(pre, keyId, challenge, nowMs, operationId).value.entry;
    ConsumeForm(pre, keyId, challenge, nowMs, operationId);
    ReadableFacts(pre);
    ConsumedEntryParses(EntryFor(pre.entries, keyId, challenge).value, nowMs);
    ReplacedParses(pre, EntryFor(pre.entries, keyId, challenge).value, entry, nowMs, operationId);
  }

  lemma ReplacedParses(pre: Ledger, was: Entry, entry: Entry, now: nat, operationId: string)
    requires Readable(pre) && StampedBy(operationId, now) && pre.generation < MAX_SAFE_INTEGER
    requires was in pre.entries && Names(entry, was.keyId, was.challenge)
    ensures Parses(NextState(pre, operationId, now, Replace(pre.entries, entry))) <==>
            ParseEntry(entry).Success? && CanonicalTime(now)
  {
    ReadableFacts(pre);
    ReplaceFacts(pre.entries, was, entry);
    assert entry in Replace(pre.entries, entry);
    CommitParses(pre, operationId, now, Replace(pre.entries, entry));
  }

  lemma RevokeForm(pre: Ledger, keyId: string, challenge: string, nowMs: int, operationId: string)
    requires Revoke(pre, keyId, challenge, nowMs, operationId).Success?
    ensures var c := Revoke(pre, keyId, challenge, nowMs, operationId).value;
            && EntryFor(pre.entries, keyId, challenge).Some? && nowMs >= 0
            && var was := EntryFor(pre.entries, keyId, challenge).value;
            && was.status.Issued?
            && c.entry == was.(status := Revoked, revokedAt := Some(nowMs))
            && c.post == NextState(pre, operationId, nowMs, Replace(pre.entries, c.entry))
            && c.post.generation <= MAX_SAFE_INTEGER
  {
  }

  lemma RevokedEntryParses(was: Entry, nowMs: nat)
    requires ParseEntry(was).Success? && was.status.Issued?
    ensures ParseEntry(was.(status := Revoked, revokedAt := Some(nowMs))).Success?
            <==> was.issuedAt <= nowMs && CanonicalTime(nowMs)
  {
  }

  /**
   * A revoked ledger is accepted exactly when the rollback clock is neither behind the issue
   * it undoes nor past year 9999: the source checks both only when it reads the file back.
   */
  lemma RevokeReadable(pre: Ledger, keyId: string, challenge: string, nowMs: int, operationId: string)
    requires Readable(pre) && StampedBy(operationId, nowMs)
    requires Revoke(pre, keyId, challenge, nowMs, operationId).Success?
    ensures EntryFor(pre.entries, keyId, challenge).Some?
    ensures Parses(Revoke(pre, keyId, challenge, nowMs, operationId).value.post) <==>
            EntryFor(pre.entries, keyId, challenge).value.issuedAt <= nowMs <= MAX_CANONICAL_MS
  {
    var entry := Revoke(pre, keyId, challenge, nowMs, operationId).value.entry;
    RevokeForm(pre, keyId, challenge, nowMs, operationId);
    ReadableFacts(pre);
    RevokedEntryParses(EntryFor(pre.entries, keyId, challenge).value, nowMs);
    ReplacedParses(pre, EntryFor(pre.entries, keyId, challenge).value, entry, nowMs, operationId);
  }

  /** One candidate for the two examples below. */
  function SampleChallenge(): (c: string)
    ensures ValidChallenge(c)
  {
    seq(64, _ => 'a')
  }

  function SampleEntry(issuedAt: nat): Entry {
    Entry("k", SampleChallenge(), Issued, issuedAt, issuedAt + 1, issuedAt + 90_001, None, None)
  }

  lemma SampleIssue(issuedAt: nat)
    requires issuedAt <= MAX_CANONICAL_MS
    ensures Issue(INITIAL, IssueRequest("k", issuedAt, 1, 90_000), _ => SampleChallenge(), "op")
            == Success(Change(Ledger(1, Some("op"), issuedAt, [SampleEntry(issuedAt)]), SampleEntry(issuedAt)))
  {
    var generate := (_: nat) => SampleChallenge();
    var entry := SampleEntry(issuedAt);
    assert FirstFresh([], generate, 0) == Some(generate(0));
    assert IssueEntry([], IssueRequest("k", issuedAt, 1, 90_000), generate) == Success(entry);
    assert Prune([], issuedAt) + [entry] == [entry];
    assert Sort([entry]) == [entry];
    assert EntriesSize([entry]) == EntrySize(entry);
  }

  lemma SampleRevoke(nowMs: nat, operationId: string)
    requires nowMs <= MAX_DATE_MS && |operationId| <= 160
    ensures Revoke(Ledger(1, Some("op"), 10, [SampleEntry(10)]), "k", SampleChallenge(), nowMs, operationId).Success?
  {
    var gone := SampleEntry(10).(status := Revoked, revokedAt := Some(nowMs));
    assert EntryFor([SampleEntry(10)], "k", SampleChallenge()) == Some(SampleEntry(10));
    assert Replace([SampleEntry(10)], gone) == [gone];
    assert Sort([gone]) == [gone];
    assert EntriesSize([gone]) == EntrySize(gone);
  }

  /** Issuing at the last four-digit instant commits a ledger the code then refuses to read. */
  lemma LateIssueUnreadable()
    ensures var r := Issue(INITIAL, IssueRequest("k", MAX_CANONICAL_MS, 1, 90_000), _ => SampleChallenge(), "op");
            r.Success? && !Parses(r.value.post)
  {
    SampleIssue(MAX_CANONICAL_MS);
    IssueReadable(INITIAL, IssueRequest("k", MAX_CANONICAL_MS, 1, 90_000), _ => SampleChallenge(), "op");
  }

  /** So does rolling an issue back one millisecond before its own clock. */
  lemma EarlyRevokeUnreadable()
    ensures var issued := Ledger(1, Some("op"), 10, [SampleEntry(10)]);
            var r := Revoke(issued, "k", SampleChallenge(), 9, "op");
            Parses(issued) && r.Success? && !Parses(r.value.post)
  {
    var issued := Ledger(1, Some("op"), 10, [SampleEntry(10)]);
    SampleIssue(10);
    IssueReadable(INITIAL, IssueRequest("k", 10, 1, 90_000), _ => SampleChallenge(), "op");
    SampleRevoke(9, "op");
    assert EntryFor(issued.entries, "k", SampleChallenge()) == Some(SampleEntry(10));
    RevokeReadable(issued, "k", SampleChallenge(), 9, "op");
  }

  lemma ReadableBounded(l: Ledger, nowMs: int)
    requires Readable(l)
    ensures |l.entries| <= MAX_ENTRIES && |Prune(l.entries, nowMs)| <= |l.entries|
    ensures forall e | e in l.entries :: Bounded(e)
    ensures forall e | e in Prune(l.entries, nowMs) :: Bounded(e)
  {
    ReadableFacts(l);
  }

  lemma AppendFits(pre: Ledger, nowMs: int, entry: Entry, operationId: string)
    requires Readable(pre) && |operationId| <= 160 && Bounded(entry)
    requires |Prune(pre.entries, nowMs)| < MAX_ENTRIES
    ensures Sized(NextState(pre, operationId, entry.issuedAt, Prune(pre.entries, nowMs) + [entry]), entry)
            != Failure("canonical-byte-limit-exceeded")
  {
    ReadableBounded(pre, nowMs);
    if pre.generation < MAX_SAFE_INTEGER {
      CommitFits(pre, operationId, entry.issuedAt, Prune(pre.entries, nowMs) + [entry]);
    }
  }

  /** The byte limit never stops a commit: the limit on the number of entries always binds first. */
  lemma IssueFits(pre: Ledger, q: IssueRequest, generate: nat -> string, operationId: string)
    requires Readable(pre) && StampedBy(operationId, q.nowMs)
    requires forall i :: ValidChallenge(generate(i))
    ensures Issue(pre, q, generate, operationId) != Failure("canonical-byte-limit-exceeded")
  {
    var kept := Prune(pre.entries, q.nowMs);
    hide Readable, Prune, FirstFresh, Sized, NextState, ValidOperationId, KeyChar;
    if IssueEntry(kept, q, generate).Success? {
      var entry := IssueEntry(kept, q, generate).value;
      IssueEntryForm(kept, q, generate);
      AppendFits(pre, q.nowMs, entry, operationId);
    }
  }

  lemma ReplaceFits(pre: Ledger, was: Entry, entry: Entry, now: nat, operationId: string)
    requires Readable(pre) && |operationId| <= 160
    requires was in pre.entries && Names(entry, was.keyId, was.challenge)
    ensures Sized(NextState(pre, operationId, now, Replace(pre.entries, entry)), entry)
            != Failure("canonical-byte-limit-exceeded")
  {
    ReadableBounded(pre, now);
    if pre.generation < MAX_SAFE_INTEGER {
      CommitFits(pre, operationId, now, Replace(pre.entries, entry));
    }
  }

  lemma ReplacementsFit(pre: Ledger, keyId: string, challenge: string, nowMs: int, operationId: string)
    requires Readable(pre) && StampedBy(operationId, nowMs)
    ensures Consume(pre, keyId, challenge, nowMs, operationId) != Failure("canonical-byte-limit-exceeded")
    ensures Revoke(pre, keyId, challenge, nowMs, operationId) != Failure("canonical-byte-limit-exceeded")
  {
    hide Readable, Replace, NextState, LedgerSize, EntryFor, ValidKeyId, ValidChallenge, Sized;
    var found := EntryFor(pre.entries, keyId, challenge);
    if found.Some? && nowMs >= 0 {
      var was := found.value;
      ReplaceFits(pre, was, was.(status := Consumed, consumedAt := Some(nowMs)), nowMs, operationId);
      ReplaceFits(pre, was, was.(status := Revoked, revokedAt := Some(nowMs)), nowMs, operationId);
    }
  }

  // -------------------------------------------------------- entry evolution

  predicate SameIdentity(e: Entry, f: Entry) {
    e.keyId == f.keyId && e.challenge == f.challenge && e.issuedAt == f.issuedAt
    && e.expiresAt == f.expiresAt && e.retainUntil == f.retainUntil
  }

  /** The only moves of an entry: stay, issued to consumed, issued to revoked. */
  predicate Advances(e: Entry, f: Entry) {
    e == f || (SameIdentity(e, f) && e.status.Issued? && !f.status.Issued?)
  }

  /** Every entry of `t` that `s` also names has only advanced. */
  ghost predicate Later(s: Ledger, t: Ledger) {
    forall e, f | e in s.entries && f in t.entries && Names(f, e.keyId, e.challenge) :: Advances(e, f)
  }

  /** How one transition changes the entries: an untouched entry, a fresh one, or one advance. */
  ghost predicate Evolves(pre: Ledger, post: Ledger, minted: Option<string>) {
    && post.generation == pre.generation + 1
    && forall f | f in post.entries ::
         || f in pre.entries
         || (minted == Some(f.challenge) && f.status.Issued?)
         || exists e | e in pre.entries :: Names(f, e.keyId, e.challenge) && Advances(e, f) && !f.status.Issued?
  }

  lemma AppendEvolves(pre: Ledger, post: Ledger, nowMs: int, entry: Entry)
    requires entry.status.Issued? && post.generation == pre.generation + 1
    requires post.entries == Sort(Prune(pre.entries, nowMs) + [entry])
    ensures Evolves(pre, post, Some(entry.challenge))
    ensures forall f :: f in post.entries <==> f == entry || (f in pre.entries && f.retainUntil > nowMs)
  {
    var es := Prune(pre.entries, nowMs) + [entry];
    forall f ensures f in post.entries <==> f == entry || (f in pre.entries && f.retainUntil > nowMs) {
      SortMembers(es, f);
      assert f in es <==> f in Prune(pre.entries, nowMs) || f == entry;
    }
  }

  lemma IssueEvolves(pre: Ledger, q: IssueRequest, generate: nat -> string, operationId: string)
    requires Issue(pre, q, generate, operationId).Success?
    ensures var c := Issue(pre, q, generate, operationId).value;
            && Evolves(pre, c.post, Some(c.entry.challenge))
            && c.entry.status.Issued? && c.entry.keyId == q.keyId
            && (exists i :: 0 <= i < ISSUE_ATTEMPTS && generate(i) == c.entry.challenge)
            // pruning drops exactly the entries past retention, nothing else is touched
            && (forall f :: f in c.post.entries <==> f == c.entry || (f in pre.entries && f.retainUntil > q.nowMs))
  {
    var c := Issue(pre, q, generate, operationId).value;
    IssueForm(pre, q, generate, operationId);
    IssueEntryForm(Prune(pre.entries, q.nowMs), q, generate);
    AppendEvolves(pre, c.post, q.nowMs, c.entry);
  }

  lemma ReplaceEvolves(pre: Ledger, post: Ledger, was: Entry, entry: Entry)
    requires UniqueKeys(pre.entries) && was in pre.entries && SameIdentity(was, entry)
    requires was.status.Issued? && !entry.status.Issued?
    requires post.generation == pre.generation + 1 && post.entries == Sort(Replace(pre.entries, entry))
    ensures Evolves(pre, post, None)
    ensures forall f :: f in post.entries <==> f == entry || (f in pre.entries && f != was)
  {
    ReplaceFacts(pre.entries, was, entry);
    forall f ensures f in post.entries <==> f == entry || (f in pre.entries && f != was) {
      SortMembers(Replace(pre.entries, entry), f);
    }
  }

  lemma ConsumeEvolves(pre: Ledger, keyId: string, challenge: string, nowMs: int, operationId: string)
    requires UniqueKeys(pre.entries)
    requires Consume(pre, keyId, challenge, nowMs, operationId).Success?
    ensures var c := Consume(pre, keyId, challenge, nowMs, operationId).value;
            var was := EntryFor(pre.entries, keyId, challenge).value;
            && Evolves(pre, c.post, None)
            && was.status.Issued? && was.issuedAt <= nowMs < was.expiresAt
            && c.entry == was.(status := Consumed, consumedAt := Some(nowMs))
            // no other entry changes
            && (forall f :: f in c.post.entries <==> f == c.entry || (f in pre.entries && f != was))
  {
    var c := Consume(pre, keyId, challenge, nowMs, operationId).value;
    ReplaceEvolves(pre, c.post, EntryFor(pre.entries, keyId, challenge).value, c.entry);
  }

  lemma RevokeEvolves(pre: Ledger, keyId: string, challenge: string, nowMs: int, operationId: string)
    requires UniqueKeys(pre.entries)
    requires Revoke(pre, keyId, challenge, nowMs, operationId).Success?
    ensures var c := Revoke(pre, keyId, challenge, nowMs, operationId).value;
            var was := EntryFor(pre.entries, keyId, challenge).value;
            && Evolves(pre, c.post, None)
            && c.entry == was.(status := Revoked, revokedAt := Some(nowMs))
            && (forall f :: f in c.post.entries <==> f == c.entry || (f in pre.entries && f != was))
  {
    var c := Revoke(pre, keyId, challenge, nowMs, operationId).value;
    ReplaceEvolves(pre, c.post, EntryFor(pre.entries, keyId, challenge).value, c.entry);
  }

  lemma ParsedWindow(e: Entry)
    requires ParseEntry(e).Success?
    ensures e.issuedAt < e.expiresAt < e.retainUntil
  {
  }

  /** Among unique keys, looking an entry up finds that entry. */
  lemma EntryForFinds(es: seq<Entry>, e: Entry)
    requires UniqueKeys(es) && e in es
    ensures EntryFor(es, e.keyId, e.challenge) == Some(e)
  {
    var found := EntryFor(es, e.keyId, e.challenge);
    assert Names(e, e.keyId, e.challenge);
    assert Key(found.value) == Key(e);
  }

  /** An entry that issuing dropped could not have been consumed at that clock or any later one. */
  lemma PruneForgetsNothingUsable(pre: Ledger, e: Entry, nowMs: int, laterMs: int, operationId: string)
    requires Readable(pre) && e in pre.entries
    requires e !in Prune(pre.entries, nowMs)
    requires nowMs <= laterMs
    ensures Consume(pre, e.keyId, e.challenge, laterMs, operationId).Failure?
  {
    ReadableFacts(pre);
    ParsedWindow(e);
    EntryForFinds(pre.entries, e);
    if Consume(pre, e.keyId, e.challenge, laterMs, operationId).Success? {
      ConsumeForm(pre, e.keyId, e.challenge, laterMs, operationId);
    }
  }
}
