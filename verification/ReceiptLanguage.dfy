/** The receipt language: a sealed receipt, its text, and what can be read back from a text. */
module ReceiptLanguage {
  import opened Basics
  import opened CodeUnits
  import opened JsonGrammar
  import opened StrictJson
  import opened MemberOrder
  import opened CanonicalJson
  import opened ObservationReceipt

  ghost predicate ShowsCount(host: Host, n: nat) {
    Shows(Finite(n as real, false), host.show, host.round) && |host.show(Finite(n as real, false))| <= 5
  }

  /** Digests are 64 lower-case hexadecimal digits, and small naturals read back from what they print as. */
  ghost predicate Sound(host: Host) {
    && (forall t :: LowerHex(host.sha256(t), 64))
    && (forall n: nat | n <= MAX_COUNT :: ShowsCount(host, n))
  }

  /** Decimal digits without leading zeros, as the host prints a natural number. */
  function Decimal(n: nat): (t: Text)
    ensures t != [] && Digits(t) && (t[0] == ZERO ==> n == 0 && |t| == 1)
    ensures n < 10 ==> |t| == 1
    ensures n < 100 ==> |t| <= 2
    ensures n < 1000 ==> |t| <= 3
    ensures n < 10000 ==> |t| <= 4
    ensures n < 100000 ==> |t| <= 5
  {
    if n < 10 then [ZERO + n] else Decimal(n / 10) + [ZERO + n % 10]
  }

  function DecimalValue(t: Text): nat {
    if t == [] then 0 else 10 * DecimalValue(t[..|t| - 1]) + if Digit(Last(t)) then Last(t) - ZERO else 0
  }

  lemma {:induction false} DecimalReadsBack(n: nat)
    ensures DecimalValue(Decimal(n)) == n
  {
    if n >= 10 {
      DecimalReadsBack(n / 10);
      assert Decimal(n)[..|Decimal(n)| - 1] == Decimal(n / 10);
    } else {
      assert Decimal(n)[..0] == [];
    }
  }

  lemma DecimalIsToken(n: nat)
    ensures NumberToken(Decimal(n))
  {
    var parts := NumberParts(false, Decimal(n), [], [], [], []);
    assert parts.Valid() && parts.Print() == Decimal(n);
  }

  /** The assumptions on the host can be met: plain decimal printing and reading meets them. */
  lemma DecimalHostIsSound(sha256: Text -> Text, instant: Text -> Option<int>)
    requires forall t :: LowerHex(sha256(t), 64)
    ensures Sound(Host(t => Finite(DecimalValue(t) as real, false),
                       (n: Number) => if n.Finite? && n.value.Floor >= 0 then Decimal(n.value.Floor) else [ZERO],
                       sha256, instant))
  {
    var host := Host(t => Finite(DecimalValue(t) as real, false),
                     (n: Number) => if n.Finite? && n.value.Floor >= 0 then Decimal(n.value.Floor) else [ZERO],
                     sha256, instant);
    forall n: nat | n <= MAX_COUNT ensures ShowsCount(host, n) {
      DecimalReadsBack(n);
      DecimalIsToken(n);
      assert (n as real).Floor == n;
    }
  }

  // -------------------------------------------------------------- plain values

  ghost predicate PlainValue(v: Json, depth: nat, host: Host) {
    && depth <= MAX_DEPTH
    && match v
       case JNull => true
       case JBool(_) => true
       case JNumber(n) => Shows(n, host.show, host.round) && |host.show(n)| <= 5
       case JString(text) => Simple(text)
       case JObject(fields) => forall k | k in fields :: Simple(k) && PlainValue(fields[k], depth + 1, host)
  }

  predicate AllAscii(text: Text) {
    forall i | 0 <= i < |text| :: text[i] < 0x80
  }

  lemma {:induction false} AsciiIsWellFormed(text: Text)
    requires AllAscii(text)
    ensures WellFormed(text) && Utf8Length(text) == |text|
  {
    if text != [] {
      AsciiIsWellFormed(text[1..]);
    }
  }

  lemma SimpleIsAscii(text: Text)
    requires Simple(text)
    ensures AllAscii(text) && WellFormed(text)
  {
    AsciiIsWellFormed(text);
  }

  lemma {:induction false} StringifySimple(text: Text)
    requires Simple(text)
    ensures PrintPieces(PiecesOf(text)) == text
  {
    if text != [] {
      StringifySimple(text[1..]);
      var p := PiecesOf(text);
      assert p[0] == Plain(text[0]) && p[1..] == PiecesOf(text[1..]);
      assert text == [text[0]] + text[1..];
    }
  }

  lemma {:induction false} PlainIsPrintable(v: Json, depth: nat, host: Host)
    requires PlainValue(v, depth, host)
    ensures Printable(v, depth, host.show, host.round)
    decreases v
  {
    if v.JString? {
      SimpleIsAscii(v.text);
    }
    if v.JObject? {
      forall k | k in v.fields ensures WellFormed(k) && Printable(v.fields[k], depth + 1, host.show, host.round) {
        SimpleIsAscii(k);
        PlainIsPrintable(v.fields[k], depth + 1, host);
      }
    }
  }

  lemma StringifyAscii(text: Text)
    requires Simple(text)
    ensures AllAscii(Stringify(text)) && |Stringify(text)| == |text| + 2
  {
    StringifySimple(text);
  }

  lemma LeafIsAscii(v: Json, depth: nat, host: Host)
    requires PlainValue(v, depth, host) && !v.JObject?
    ensures AllAscii(Canonical(v, host.show)) && Canonical(v, host.show) != []
  {
    match v
    case JNull =>
    case JBool(_) =>
    case JNumber(n) =>
      ScalarUnits(host.show(n));
      hide NumberToken;
    case JString(text) =>
      StringifyAscii(text);
      hide Stringify;
  }

  lemma ObjectText(v: Json, show: Printing)
    requires v.JObject?
    ensures Canonical(v, show) == [OPEN_BRACE] + Joined(v, SortedKeys(v.fields.Keys), show) + [CLOSE_BRACE]
  {
    hide Joined;
  }

  lemma {:induction false} PlainIsAscii(v: Json, depth: nat, host: Host)
    requires PlainValue(v, depth, host)
    ensures AllAscii(Canonical(v, host.show)) && Canonical(v, host.show) != []
    decreases v, 1, 0
  {
    hide PlainValue, Canonical, Joined, SortedKeys;
    if v.JObject? {
      var inside := Joined(v, SortedKeys(v.fields.Keys), host.show);
      JoinedIsAscii(v, SortedKeys(v.fields.Keys), depth, host);
      ObjectText(v, host.show);
      hide *;
      AsciiConcat([OPEN_BRACE], inside);
      AsciiConcat([OPEN_BRACE] + inside, [CLOSE_BRACE]);
    } else {
      LeafIsAscii(v, depth, host);
    }
  }

  lemma AsciiConcat(a: Text, b: Text)
    requires AllAscii(a) && AllAscii(b)
    ensures AllAscii(a + b)
  {
  }

  lemma {:induction false} JoinedIsAscii(v: Json, keys: seq<Text>, depth: nat, host: Host)
    requires PlainValue(v, depth, host) && SomeKeys(v, keys)
    ensures AllAscii(Joined(v, keys, host.show))
    decreases v, 0, |keys|
  {
    if keys != [] {
      var key, value := Stringify(keys[0]), Canonical(v.fields[keys[0]], host.show);
      StringifyAscii(keys[0]);
      PlainIsAscii(v.fields[keys[0]], depth + 1, host);
      JoinedIsAscii(v, keys[1..], depth, host);
      var others := Joined(v, keys[1..], host.show);
      var last := if |keys| == 1 then [] else [COMMA] + others;
      assert Joined(v, keys, host.show) == key + [COLON] + value + last;
      hide *;
      AsciiConcat(key, [COLON]);
      AsciiConcat(key + [COLON], value);
      AsciiConcat([COMMA], others);
      AsciiConcat(key + [COLON] + value, last);
    }
  }

  // ----------------------------------------------------------- valid is plain

  lemma SimpleConcat(text: Text, n: nat)
    requires n <= |text| && Simple(text[..n]) && Simple(text[n..])
    ensures Simple(text)
  {
    assert text == text[..n] + text[n..];
  }

  lemma PrefixedIsSimple(text: Text)
    requires ProjectShape(text) || ObservationShape(text) || ReceiptShape(text)
    ensures Simple(text)
  {
    if ReceiptShape(text) {
      SimpleConcat(text, 3);
    } else {
      SimpleConcat(text, 4);
    }
  }

  lemma ProvenanceIsPlain(v: Json, host: Host)
    requires ValidProvenance(v)
    ensures PlainValue(v, 1, host)
  {
  }

  lemma RequestIsPlain(v: Json, host: Host)
    requires ValidRequest(v)
    ensures PlainValue(v, 1, host)
  {
  }

  lemma CountIsPlain(v: Json, key: Text, host: Host)
    requires Sound(host) && CountField(v, key, 0)
    ensures PlainValue(v.fields[key], 2, host)
  {
    assert ShowsCount(host, CountAt(v, key));
  }

  lemma AttributionIsPlain(v: Json, p: Policy, host: Host)
    requires Sound(host) && ValidAttribution(v, p)
    ensures PlainValue(v, 1, host)
  {
    if NameField(v, STATE, {OBSERVED}) {
      CountIsPlain(v, ATTEMPT_ORDINAL, host);
    }
  }

  lemma ToolsArePlain(v: Json, host: Host)
    requires Sound(host) && ValidTools(v)
    ensures PlainValue(v, 1, host)
  {
    if !NameField(v, STATE, {UNAVAILABLE}) {
      CountIsPlain(v, STARTED, host);
      CountIsPlain(v, COMPLETED, host);
      CountIsPlain(v, FAILED, host);
    }
  }

  /** The fields of a valid content that are strings. */
  lemma TextFieldIsPlain(c: Json, p: Policy, hasId: bool, host: Host, key: Text)
    requires ValidContent(c, p, hasId, host) && key in c.fields
    requires key != PROVENANCE && key != REQUEST && key != ATTRIBUTION && key != TOOLS
    ensures Simple(key) && PlainValue(c.fields[key], 1, host)
  {
    hide ValidProvenance, ValidRequest, ValidAttribution, ValidTools, ValidPolicy;
    if key == OBSERVATION_ID || key == PROJECT_REF || key == RECEIPT_ID {
      PrefixedIsSimple(c.fields[key].text);
    }
    hide ProjectShape, ObservationShape, ReceiptShape;
  }

  lemma ContentIsPlain(c: Json, p: Policy, hasId: bool, host: Host)
    requires Sound(host) && ValidContent(c, p, hasId, host)
    ensures PlainValue(c, 0, host)
  {
    hide ValidProvenance, ValidRequest, ValidAttribution, ValidTools, Fresh, TextField, NameField, Simple;
    ProvenanceIsPlain(c.fields[PROVENANCE], host);
    RequestIsPlain(c.fields[REQUEST], host);
    AttributionIsPlain(c.fields[ATTRIBUTION], p, host);
    ToolsArePlain(c.fields[TOOLS], host);
    assert c.JObject?;
    forall key | key in c.fields ensures Simple(key) && PlainValue(c.fields[key], 1, host) {
      if key != PROVENANCE && key != REQUEST && key != ATTRIBUTION && key != TOOLS {
        TextFieldIsPlain(c, p, hasId, host, key);
      }
    }
  }

  // ---------------------------------------------------------------- the seal

  lemma ReceiptIdIsNew()
    ensures RECEIPT_ID !in CONTENT_KEYS
  {
    assert RECEIPT_ID[0] != PROVENANCE[0];
  }

  /** Validity depends on the content fields and, where there is one, the shape of the id. */
  lemma SameFieldsValid(c: Json, r: Json, p: Policy, hasId: bool, nowId: bool, host: Host)
    requires ValidContent(c, p, hasId, host)
    requires Exact(r, if nowId then CONTENT_KEYS + {RECEIPT_ID} else CONTENT_KEYS)
    requires forall k | k in CONTENT_KEYS :: r.fields[k] == c.fields[k]
    requires nowId ==> TextField(r, RECEIPT_ID, ReceiptShape)
    ensures ValidContent(r, p, nowId, host)
  {
    hide ValidProvenance, ValidRequest, ValidAttribution, ValidTools, TimestampShape, ProjectShape, ObservationShape;
    hide ReceiptShape;
  }

  lemma IdShape(digest: Text)
    requires LowerHex(digest, 64)
    ensures ReceiptShape(Ascii("ro_") + digest)
  {
    Cut(Ascii("ro_"), digest);
  }

  /** Sealing adds a receipt id of the right shape and changes nothing else. */
  lemma SealIsValid(c: Json, p: Policy, host: Host)
    requires Sound(host) && ValidContent(c, p, false, host)
    ensures Unsealed(c) == c
    ensures ValidContent(Seal(c, host), p, true, host) && Unsealed(Seal(c, host)) == c
  {
    hide ValidContent, ReceiptShape, Canonical, Sound;
    ReceiptIdIsNew();
    ValidIsExact(c, p, false, host);
    DigestShape(c, host);
    var r := Seal(c, host);
    assert Unsealed(c).fields == c.fields && Unsealed(r).fields == c.fields;
    assert r.fields.Keys == CONTENT_KEYS + {RECEIPT_ID};
    SameFieldsValid(c, r, p, false, true, host);
  }

  lemma DigestShape(c: Json, host: Host)
    requires Sound(host)
    ensures ReceiptShape(Ascii("ro_") + host.sha256(Canonical(c, host.show)))
  {
    IdShape(host.sha256(Canonical(c, host.show)));
  }

  lemma ValidIsExact(c: Json, p: Policy, hasId: bool, host: Host)
    requires ValidContent(c, p, hasId, host)
    ensures Exact(c, if hasId then CONTENT_KEYS + {RECEIPT_ID} else CONTENT_KEYS)
  {
  }

  /** Taking the id away from a valid receipt leaves valid content. */
  lemma UnsealIsValid(r: Json, p: Policy, host: Host)
    requires ValidContent(r, p, true, host)
    ensures ValidContent(Unsealed(r), p, false, host) && Unsealed(Unsealed(r)) == Unsealed(r)
  {
    hide ValidContent;
    ReceiptIdIsNew();
    ValidIsExact(r, p, true, host);
    var c := Unsealed(r);
    assert c.fields.Keys == CONTENT_KEYS;
    assert Unsealed(c).fields == c.fields;
    SameFieldsValid(r, c, p, true, false, host);
  }

  /** The checks that `parseReceipt` makes before it parses. */
  predicate Readable(raw: Text) {
    && |raw| <= MAX_RECEIPT_BYTES && WellFormed(raw) && Utf8Length(raw) <= MAX_RECEIPT_BYTES
    && (raw == [] || raw[0] != BYTE_ORDER_MARK)
  }

  lemma CanonicalIsReadable(r: Json, p: Policy, host: Host)
    requires Sound(host) && ValidContent(r, p, true, host)
    requires Utf8Length(Canonical(r, host.show)) <= MAX_RECEIPT_BYTES
    ensures Readable(Canonical(r, host.show)) && ParseStrict(Canonical(r, host.show), host.round) == Success(r)
    ensures Utf8Length(Canonical(r, host.show)) == |Canonical(r, host.show)|
  {
    hide ValidContent, PlainValue, Canonical, Printable, ParseStrict, WellFormed, Utf8Length;
    ContentIsPlain(r, p, true, host);
    PlainIsAscii(r, 0, host);
    AsciiIsWellFormed(Canonical(r, host.show));
    PlainIsPrintable(r, 0, host);
    CanonicalRoundTrip(r, host.show, host.round);
  }

  // ------------------------------------------------------------- main results

  /** Reading the canonical text of a receipt that was built gives back that receipt and that text. */
  lemma BuildThenParse(content: Json, p: Policy, host: Host)
    requires Sound(host) && Finished(content, p, false, host).Accepted?
    ensures var built := Finished(content, p, false, host);
            && ParsedReceipt(built.canonical, p, host) == built
            && Finished(built.receipt, p, true, host) == built
  {
    SealIsValid(content, p, host);
    var r := Seal(content, host);
    hide ValidContent, Canonical, ParseStrict, WellFormed, Utf8Length, Seal, Unsealed;
    CanonicalIsReadable(r, p, host);
  }

  /** Reading is idempotent, and every receipt read is one that could have been built from its content. */
  lemma ParseThenBuild(raw: Text, p: Policy, host: Host)
    requires Sound(host) && ParsedReceipt(raw, p, host).Accepted?
    ensures var read := ParsedReceipt(raw, p, host);
            && ParseStrict(raw, host.round) == Success(read.receipt)
            && ParsedReceipt(read.canonical, p, host) == read
            && read.receipt.JObject? && Finished(Unsealed(read.receipt), p, false, host) == read
  {
    hide Canonical, ParseStrict, WellFormed, Utf8Length, Seal, Unsealed;
    var r := ParsedReceipt(raw, p, host).receipt;
    assert ValidContent(r, p, true, host);
    UnsealIsValid(r, p, host);
    hide ValidContent;
    CanonicalIsReadable(r, p, host);
  }

  /** Distinct contents print differently. */
  lemma ContentsPrintDifferently(c1: Json, c2: Json, p1: Policy, p2: Policy, host: Host)
    requires Sound(host) && Finished(c1, p1, false, host).Accepted? && Finished(c2, p2, false, host).Accepted?
    requires Finished(c1, p1, false, host).canonical == Finished(c2, p2, false, host).canonical
    ensures c1 == c2
  {
    hide Canonical, ParseStrict, WellFormed, Utf8Length, Seal, ValidContent;
    SealIsValid(c1, p1, host);
    SealIsValid(c2, p2, host);
    CanonicalIsReadable(Seal(c1, host), p1, host);
    CanonicalIsReadable(Seal(c2, host), p2, host);
  }

  /**
   * Rearranging the members of the objects of a text, at any depth, leaves an accepted text accepted,
   * with the same result, as long as it still fits the limits that are checked before it is parsed.
   */
  lemma KeyOrderIrrelevant(d1: Document, d2: Document, p: Policy, host: Host)
    requires ValidDocument(d1) && ValidDocument(d2) && Rearranged(d1.root, d2.root)
    requires Readable(PrintDocument(d2))
    ensures ParsedReceipt(PrintDocument(d1), p, host).Accepted? ==>
              ParsedReceipt(PrintDocument(d2), p, host) == ParsedReceipt(PrintDocument(d1), p, host)
    // a text that parses is treated alike even if its content is refused, and none gets accepted by being rearranged
    ensures Readable(PrintDocument(d1)) && Eval(d1.root, 0, host.round).Success? ==>
              ParsedReceipt(PrintDocument(d2), p, host) == ParsedReceipt(PrintDocument(d1), p, host)
    ensures Readable(PrintDocument(d1)) ==>
              (ParsedReceipt(PrintDocument(d2), p, host).Accepted? <==> ParsedReceipt(PrintDocument(d1), p, host).Accepted?)
  {
    ParseIsEval(d1, host.round);
    ParseIsEval(d2, host.round);
    RearrangedValue(d1.root, d2.root, 0, host.round);
    hide ParseStrict, Eval, Finished, PrintDocument, WellFormed, Utf8Length, Rearranged;
  }

  /** A text in which some object repeats a key is never accepted. */
  lemma RepeatedKeyNeverAccepted(doc: Document, p: Policy, host: Host)
    requires ValidDocument(doc) && RepeatsKey(doc.root)
    ensures ParsedReceipt(PrintDocument(doc), p, host).Rejected?
  {
    RepeatedKeyRejected(doc, host.round);
    hide ParseStrict, PrintDocument, RepeatsKey, WellFormed, Utf8Length;
  }
}
