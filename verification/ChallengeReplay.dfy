/** The receipt verifier's view of the ledger: two key lists and a replay status. */
module ChallengeReplay {
  import opened Basics
  import opened ChallengeLedger

  datatype Lists = Lists(issued: seq<string>, consumed: seq<string>)

  datatype ReplayStatus = Open | Unissued | AlreadyConsumed

  /** The verifier's per-entry checks; they ask less than `ParseEntry`. */
  predicate EntryListable(e: Entry) {
    && ValidKeyId(e.keyId) && ValidChallenge(e.challenge)
    && CanonicalTime(e.issuedAt) && CanonicalTime(e.expiresAt) && CanonicalTime(e.retainUntil)
    && match e.status
       case Issued => e.consumedAt.None? && e.revokedAt.None?
       case Consumed => e.consumedAt.Some? && CanonicalTime(e.consumedAt.value) && e.revokedAt.None?
       case Revoked => e.revokedAt.Some? && CanonicalTime(e.revokedAt.value) && e.consumedAt.None?
  }

  predicate HeaderListable(l: Ledger) {
    && 1 <= l.generation <= MAX_SAFE_INTEGER && l.lastOperationId.Some?
    && CanonicalTime(l.updatedAt) && |l.entries| <= MAX_ENTRIES
  }

  /** Keys of all entries, or of the entries that are no longer issued. */
  function Keys(es: seq<Entry>, onlyTerminal: bool): (r: seq<string>)
    ensures forall k :: k in r <==> exists e | e in es :: Key(e) == k && (onlyTerminal ==> !e.status.Issued?)
  {
    if es == [] then [] else
    var rest := Keys(es[..|es| - 1], onlyTerminal);
    var e := Last(es);
    assert es == es[..|es| - 1] + [e];
    if onlyTerminal && e.status.Issued? then rest else rest + [Key(e)]
  }

  /** `challengeListsFromLedger`: one pass that checks each entry and fills both lists. */
  method ListsFromLedger(l: Ledger) returns (r: Result<Lists, string>)
    ensures r.Success? <==> HeaderListable(l) && (forall e | e in l.entries :: EntryListable(e))
                            && NoDuplicates(Keys(l.entries, false))
    ensures r.Success? ==> r.value == Lists(Keys(l.entries, false), Keys(l.entries, true))
  {
    if !HeaderListable(l) {
      return Failure("signed-probe-ledger-invalid");
    }
    var issued: seq<string>, consumed: seq<string> := [], [];
    var i := 0;
    while i < |l.entries|
      invariant 0 <= i <= |l.entries|
      invariant forall e | e in l.entries[..i] :: EntryListable(e)
      invariant issued == Keys(l.entries[..i], false)
      invariant consumed == Keys(l.entries[..i], true)
    {
      var e := l.entries[i];
      if !EntryListable(e) {
        return Failure("signed-probe-ledger-invalid");
      }
      assert l.entries[..i + 1][..i] == l.entries[..i];
      issued := issued + [Key(e)];
      if !e.status.Issued? {
        consumed := consumed + [Key(e)];
      }
      i := i + 1;
    }
    assert l.entries[..i] == l.entries;
    if !NoDuplicates(issued) {
      return Failure("signed-probe-ledger-invalid");
    }
    return Success(Lists(issued, consumed));
  }

  /** The replay part of `verifySignedProbeReceipt`. */
  function Replay(lists: Lists, keyId: string, challenge: string): ReplayStatus {
    var key := LedgerKey(keyId, challenge);
    if key in lists.consumed then AlreadyConsumed
    else if key in lists.issued then Open
    else Unissued
  }

  /** A stored key matches only the query with the very same parts, whatever the query holds. */
  lemma StoredKeyInjective(k: string, c: string, k2: string, c2: string)
    requires ValidKeyId(k) && ValidChallenge(c)
    requires LedgerKey(k, c) == LedgerKey(k2, c2)
    ensures k == k2 && c == c2
  {
    var a, b := LedgerKey(k, c), LedgerKey(k2, c2);
    assert b[|k2|] == ':';
    assert forall i | 0 <= i < |k| :: a[i] == k[i];
    assert forall i | |k| < i < |a| :: a[i] == c[i - |k| - 1];
    assert |k2| == |k|;
    KeyInjective(k, c, k2, c2);
  }

  lemma ParsedListable(e: Entry)
    requires ParseEntry(e).Success?
    ensures EntryListable(e)
  {
  }

  lemma {:induction false} KeysUnique(es: seq<Entry>)
    requires UniqueKeys(es)
    ensures NoDuplicates(Keys(es, false))
  {
    if es != [] {
      var front := es[..|es| - 1];
      KeysUnique(front);
      forall k | k in Keys(front, false) ensures k != Key(Last(es)) {
        var e :| e in front && Key(e) == k;
        var i :| 0 <= i < |front| && front[i] == e;
        assert es[i] == e;
      }
      assert forall i | 0 <= i < |Keys(front, false)| :: Keys(front, false)[i] in Keys(front, false);
    }
  }

  /** Everything the ledger module accepts, the verifier accepts too. */
  lemma ReadableListable(l: Ledger)
    requires Parses(l)
    ensures HeaderListable(l) && (forall e | e in l.entries :: EntryListable(e))
            && NoDuplicates(Keys(l.entries, false))
  {
    ParsesMeans(l);
    ReadableFacts(l);
    KeysUnique(l.entries);
    forall e | e in l.entries ensures EntryListable(e) {
      ParsedListable(e);
    }
  }

  /** On an accepted ledger the status of any query is decided by the entry of that name. */
  lemma ReplayMeans(l: Ledger, keyId: string, challenge: string)
    requires Parses(l)
    ensures var status := Replay(Lists(Keys(l.entries, false), Keys(l.entries, true)), keyId, challenge);
            var entry := EntryFor(l.entries, keyId, challenge);
            status == if entry.None? then Unissued
                      else if entry.value.status.Issued? then Open else AlreadyConsumed
  {
    ReadableFacts(l);
    ReadableListable(l);
    var key := LedgerKey(keyId, challenge);
    forall e | e in l.entries && Key(e) == key
      ensures EntryFor(l.entries, keyId, challenge) == Some(e)
    {
      assert EntryListable(e);
      StoredKeyInjective(e.keyId, e.challenge, keyId, challenge);
      EntryForFinds(l.entries, e);
    }
  }

  /** Consuming turns exactly the consumed query from open to consumed. */
  lemma ConsumeClosesReplay(
    pre: Ledger, keyId: string, challenge: string, nowMs: int, operationId: string,
    otherKey: string, otherChallenge: string)
    requires Parses(pre) && StampedBy(operationId, nowMs)
    requires Consume(pre, keyId, challenge, nowMs, operationId).Success?
    ensures var post := Consume(pre, keyId, challenge, nowMs, operationId).value.post;
            var before := Replay(Lists(Keys(pre.entries, false), Keys(pre.entries, true)), otherKey, otherChallenge);
            var after := Replay(Lists(Keys(post.entries, false), Keys(post.entries, true)), otherKey, otherChallenge);
            if otherKey == keyId && otherChallenge == challenge
            then before == Open && after == AlreadyConsumed
            else before == after
  {
    var c := Consume(pre, keyId, challenge, nowMs, operationId).value;
    var was := EntryFor(pre.entries, keyId, challenge).value;
    ReadableFacts(pre);
    ConsumeForm(pre, keyId, challenge, nowMs, operationId);
    ConsumeEvolves(pre, keyId, challenge, nowMs, operationId);
    ConsumeReadable(pre, keyId, challenge, nowMs, operationId);
    ReadableFacts(c.post);
    ReplayMeans(pre, otherKey, otherChallenge);
    ReplayMeans(c.post, otherKey, otherChallenge);
    if otherKey == keyId && otherChallenge == challenge {
      EntryForFinds(c.post.entries, c.entry);
    } else {
      var x := EntryFor(pre.entries, otherKey, otherChallenge);
      if x.Some? {
        assert x.value != was;
        EntryForFinds(c.post.entries, x.value);
      }
    }
  }
}
