/** Observation receipts: what content is valid, how a receipt is sealed, and how one is read back. */
module ObservationReceipt {
  import opened Basics
  import opened CodeUnits
  import opened JsonGrammar
  import opened StrictJson
  import opened StrictParser
  import opened CanonicalJson

  const MAX_RECEIPT_BYTES := 4096
  const MAX_COUNT: nat := 10_000
  const MAX_FRESHNESS_MS := 86_400_000
  const BYTE_ORDER_MARK: CodeUnit := 0xFEFF

  // --------------------------------------------------------------------- names

  /** Printable ASCII that needs no escape. */
  predicate Simple(text: Text) {
    forall i | 0 <= i < |text| :: 0x20 <= text[i] < 0x7F && text[i] != QUOTE && text[i] != BACKSLASH
  }

  predicate SimpleChars(s: string) {
    forall i | 0 <= i < |s| :: 0x20 <= s[i] as int < 0x7F && s[i] != '"' && s[i] != '\\'
  }

  function Ascii(s: string): (t: Text)
    requires SimpleChars(s)
    ensures |t| == |s| && Simple(t) && forall i | 0 <= i < |s| :: t[i] == s[i] as int
  {
    seq(|s|, i requires 0 <= i < |s| => s[i] as int)
  }

  const SCHEMA: Text := Ascii("schema")
  const OBSERVATION_ID: Text := Ascii("observation_id")
  const PROJECT_REF: Text := Ascii("project_ref")
  const OBSERVED_AT: Text := Ascii("observed_at")
  const FRESH_UNTIL: Text := Ascii("fresh_until")
  const SOURCE: Text := Ascii("source")
  const EVIDENCE_MODE: Text := Ascii("evidence_mode")
  const PROVENANCE: Text := Ascii("provenance")
  const REQUEST: Text := Ascii("request")
  const ATTRIBUTION: Text := Ascii("attribution")
  const TOOLS: Text := Ascii("tools")
  const RECEIPT_ID: Text := Ascii("receipt_id")
  const COMMIT: Text := Ascii("product_source_commit")
  const CLOSURE: Text := Ascii("closure_sha256")
  const CONTRACT: Text := Ascii("contract_sha256")
  const OUTCOME: Text := Ascii("outcome")
  const STATE: Text := Ascii("state")
  const PROVIDER: Text := Ascii("provider")
  const MODEL: Text := Ascii("model")
  const ATTEMPT_ORDINAL: Text := Ascii("successful_attempt_ordinal")
  const BASIS: Text := Ascii("evidence_basis")
  const REASON: Text := Ascii("reason_code")
  const STARTED: Text := Ascii("started_count")
  const COMPLETED: Text := Ascii("completed_count")
  const FAILED: Text := Ascii("failed_count")

  const CONTENT_KEYS := {SCHEMA, OBSERVATION_ID, PROJECT_REF, OBSERVED_AT, FRESH_UNTIL, SOURCE, EVIDENCE_MODE,
                         PROVENANCE, REQUEST, ATTRIBUTION, TOOLS}

  const SCHEMA_NAME: Text := Ascii("temperance.routing-observation-receipt.v1")
  const ADAPTER_NAME: Text := Ascii("product-routing-adapter")
  const BASIS_NAME: Text := Ascii("terminal-attempt-record")
  const OBSERVED: Text := Ascii("observed")
  const UNAVAILABLE: Text := Ascii("unavailable")
  const AMBIGUOUS: Text := Ascii("ambiguous")
  const COMPLETED_STATE: Text := Ascii("completed")
  const INCOMPLETE: Text := Ascii("incomplete")
  const OPEN_TOOLS: Text := Ascii("open_tools")
  const TOOL_FAILED: Text := Ascii("tool_failed")
  const COVERAGE_INCOMPLETE: Text := Ascii("coverage_incomplete")
  const NO_SUCCESS: Text := Ascii("no_successful_attempt")
  const MISSING_ATTRIBUTION: Text := Ascii("missing_attribution")
  const EVIDENCE_UNAVAILABLE: Text := Ascii("evidence_unavailable")
  const UNSUPPORTED_IDENTITY: Text := Ascii("unsupported_identity")
  const CONFLICTING: Text := Ascii("conflicting_attribution")
  const MULTIPLE_SUCCESSES: Text := Ascii("multiple_successful_bindings")
  const NOT_INSTRUMENTED: Text := Ascii("not_instrumented")

  const MODES := {Ascii("synthetic"), Ascii("local-observation")}
  const OUTCOMES := {Ascii("succeeded"), Ascii("failed"), UNAVAILABLE}
  const UNAVAILABLE_REASONS := {NO_SUCCESS, MISSING_ATTRIBUTION, EVIDENCE_UNAVAILABLE, UNSUPPORTED_IDENTITY}
  const AMBIGUOUS_REASONS := {CONFLICTING, MULTIPLE_SUCCESSES}
  const INCOMPLETE_REASONS := {OPEN_TOOLS, TOOL_FAILED, COVERAGE_INCOMPLETE}
  const NO_TOOLS_REASONS := {NOT_INSTRUMENTED, EVIDENCE_UNAVAILABLE}

  // -------------------------------------------------------------------- shapes

  predicate LowerLetter(c: CodeUnit) {
    0x61 <= c <= 0x7A
  }

  predicate Letter(c: CodeUnit) {
    LowerLetter(c) || 0x41 <= c <= 0x5A
  }

  predicate LowerHex(text: Text, n: nat) {
    |text| == n && forall i | 0 <= i < n :: Digit(text[i]) || 0x61 <= text[i] <= 0x66
  }

  predicate ProjectShape(text: Text) {
    && 12 <= |text| <= 64 && text[..4] == Ascii("prj_")
    && forall i | 4 <= i < |text| :: LowerLetter(text[i]) || Digit(text[i]) || text[i] == 0x2D
  }

  predicate ProviderShape(text: Text) {
    && 1 <= |text| <= 64 && LowerLetter(text[0])
    && forall i | 1 <= i < |text| :: LowerLetter(text[i]) || Digit(text[i]) || text[i] == 0x5F || text[i] == 0x2D
  }

  predicate ModelShape(text: Text) {
    && 1 <= |text| <= 128 && (Letter(text[0]) || Digit(text[0]))
    && forall i | 1 <= i < |text| ::
         Letter(text[i]) || Digit(text[i]) || text[i] == 0x2E || text[i] == 0x5F || text[i] == 0x2F || text[i] == 0x2D
  }

  predicate ObservationShape(text: Text) {
    |text| == 36 && text[..4] == Ascii("obs_") && LowerHex(text[4..], 32)
  }

  predicate ReceiptShape(text: Text) {
    |text| == 67 && text[..3] == Ascii("ro_") && LowerHex(text[3..], 64)
  }

  const TIMESTAMP_PATTERN: Text := Ascii("0000-00-00T00:00:00.000Z")

  predicate TimestampShape(text: Text) {
    && |text| == 24
    && forall i | 0 <= i < 24 ::
         if TIMESTAMP_PATTERN[i] == ZERO then Digit(text[i]) else text[i] == TIMESTAMP_PATTERN[i]
  }

  // ------------------------------------------------------------------- content

  datatype Policy = Policy(projects: seq<Text>, catalog: seq<(Text, Text)>, maxFreshnessMs: int)

  /** The host's number printing and reading, its digest, and the instant a timestamp denotes, if it is canonical. */
  datatype Host = Host(round: Rounding, show: Printing, sha256: Text -> Text, instant: Text -> Option<int>)

  predicate ValidPolicy(p: Policy) {
    && p.projects != [] && p.catalog != [] && 0 < p.maxFreshnessMs <= MAX_FRESHNESS_MS
    && |p.projects| <= MAX_COUNT && |p.catalog| <= MAX_COUNT
    && (forall i | 0 <= i < |p.projects| :: ProjectShape(p.projects[i]))
    && NoDuplicates(p.projects)
    && (forall i | 0 <= i < |p.catalog| :: ProviderShape(p.catalog[i].0) && ModelShape(p.catalog[i].1))
    && NoDuplicates(p.catalog)
  }

  function CountOf(n: nat): Json {
    JNumber(Finite(n as real, false))
  }

  /** An object with exactly these keys. */
  predicate Exact(v: Json, keys: set<Text>) {
    v.JObject? && v.fields.Keys == keys
  }

  predicate TextField(v: Json, key: Text, shape: Text -> bool) {
    v.JObject? && key in v.fields && v.fields[key].JString? && shape(v.fields[key].text)
  }

  predicate NameField(v: Json, key: Text, names: set<Text>) {
    v.JObject? && key in v.fields && v.fields[key].JString? && v.fields[key].text in names
  }

  predicate CountField(v: Json, key: Text, minimum: nat) {
    && v.JObject? && key in v.fields && v.fields[key].JNumber? && v.fields[key].number.Finite?
    && !v.fields[key].number.negativeZero
    && v.fields[key].number.value.Floor as real == v.fields[key].number.value
    && minimum as real <= v.fields[key].number.value <= MAX_COUNT as real
  }

  function CountAt(v: Json, key: Text): (n: nat)
    requires CountField(v, key, 0)
    ensures n <= MAX_COUNT && v.fields[key] == CountOf(n)
  {
    v.fields[key].number.value.Floor
  }

  predicate ValidProvenance(v: Json) {
    && Exact(v, {COMMIT, CLOSURE, CONTRACT})
    && TextField(v, COMMIT, t => LowerHex(t, 40)) && TextField(v, CLOSURE, t => LowerHex(t, 64))
    && TextField(v, CONTRACT, t => LowerHex(t, 64))
  }

  predicate ValidRequest(v: Json) {
    Exact(v, {OUTCOME}) && NameField(v, OUTCOME, OUTCOMES)
  }

  predicate ValidAttribution(v: Json, p: Policy) {
    if NameField(v, STATE, {OBSERVED}) then
      && Exact(v, {STATE, PROVIDER, MODEL, ATTEMPT_ORDINAL, BASIS})
      && TextField(v, PROVIDER, ProviderShape) && TextField(v, MODEL, ModelShape) && CountField(v, ATTEMPT_ORDINAL, 1)
      && NameField(v, BASIS, {BASIS_NAME})
      && (v.fields[PROVIDER].text, v.fields[MODEL].text) in p.catalog
    else
      && Exact(v, {STATE, REASON})
      && (if NameField(v, STATE, {UNAVAILABLE}) then NameField(v, REASON, UNAVAILABLE_REASONS)
          else NameField(v, STATE, {AMBIGUOUS}) && NameField(v, REASON, AMBIGUOUS_REASONS))
  }

  predicate ValidTools(v: Json) {
    if NameField(v, STATE, {UNAVAILABLE}) then
      Exact(v, {STATE, REASON}) && NameField(v, REASON, NO_TOOLS_REASONS)
    else
      && NameField(v, STATE, {COMPLETED_STATE, INCOMPLETE})
      && Exact(v, {STATE, STARTED, COMPLETED, FAILED} + if v.fields[STATE].text == INCOMPLETE then {REASON} else {})
      && CountField(v, STARTED, 0) && CountField(v, COMPLETED, 0) && CountField(v, FAILED, 0)
      && var started, completed, failed := CountAt(v, STARTED), CountAt(v, COMPLETED), CountAt(v, FAILED);
      && completed + failed <= started
      && if v.fields[STATE].text == COMPLETED_STATE then started == completed && failed == 0
         else
           && NameField(v, REASON, INCOMPLETE_REASONS)
           && (v.fields[REASON].text == OPEN_TOOLS ==> started > completed + failed)
           && (v.fields[REASON].text == TOOL_FAILED ==> failed > 0)
  }

  predicate Fresh(c: Json, p: Policy, host: Host) {
    && TextField(c, FRESH_UNTIL, TimestampShape) && TextField(c, OBSERVED_AT, TimestampShape)
    && var until, from := host.instant(c.fields[FRESH_UNTIL].text), host.instant(c.fields[OBSERVED_AT].text);
    && until.Some? && from.Some? && 0 < until.value - from.value <= p.maxFreshnessMs
  }

  predicate ValidContent(c: Json, p: Policy, hasId: bool, host: Host) {
    && Exact(c, if hasId then CONTENT_KEYS + {RECEIPT_ID} else CONTENT_KEYS)
    && NameField(c, SCHEMA, {SCHEMA_NAME}) && NameField(c, SOURCE, {ADAPTER_NAME})
    && (hasId ==> TextField(c, RECEIPT_ID, ReceiptShape))
    && TextField(c, OBSERVATION_ID, ObservationShape)
    && TextField(c, PROJECT_REF, ProjectShape) && c.fields[PROJECT_REF].text in p.projects
    && NameField(c, EVIDENCE_MODE, MODES)
    && Fresh(c, p, host)
    && ValidProvenance(c.fields[PROVENANCE]) && ValidRequest(c.fields[REQUEST])
    && ValidAttribution(c.fields[ATTRIBUTION], p) && ValidTools(c.fields[TOOLS])
  }

  // ------------------------------------------------------------------- sealing

  datatype ReceiptResult = Accepted(receipt: Json, canonical: Text) | Rejected(code: Code)

  function Unsealed(c: Json): Json
    requires c.JObject?
  {
    JObject(c.fields - {RECEIPT_ID})
  }

  function Seal(content: Json, host: Host): Json
    requires content.JObject?
  {
    JObject(content.fields[RECEIPT_ID := JString(Ascii("ro_") + host.sha256(Canonical(content, host.show)))])
  }

  /** What `finish` comes to. */
  function Finished(input: Json, policy: Policy, hasId: bool, host: Host): ReceiptResult {
    if !ValidPolicy(policy) then Rejected(InvalidPolicy)
    else if !ValidContent(input, policy, hasId, host) then Rejected(InvalidReceipt)
    else
      var receipt := Seal(Unsealed(input), host);
      if hasId && receipt != input then Rejected(DigestMismatch)
      else if Utf8Length(Canonical(receipt, host.show)) > MAX_RECEIPT_BYTES then Rejected(InputTooLarge)
      else Accepted(receipt, Canonical(receipt, host.show))
  }

  /** The source removes the supplied digest from the object and puts the computed one in its place. */
  method Finish(input: Json, policy: Policy, hasId: bool, host: Host) returns (r: ReceiptResult)
    ensures r == Finished(input, policy, hasId, host)
  {
    if !ValidPolicy(policy) {
      return Rejected(InvalidPolicy);
    }
    if !ValidContent(input, policy, hasId, host) {
      return Rejected(InvalidReceipt);
    }
    var c := input.fields;
    var suppliedId := if RECEIPT_ID in c then Some(c[RECEIPT_ID]) else None;
    c := c - {RECEIPT_ID};
    var id := JString(Ascii("ro_") + host.sha256(Canonical(JObject(c), host.show)));
    if hasId && suppliedId != Some(id) {
      return Rejected(DigestMismatch);
    }
    c := c[RECEIPT_ID := id];
    assert hasId ==> c == input.fields;
    var serialized := Canonical(JObject(c), host.show);
    if Utf8Length(serialized) > MAX_RECEIPT_BYTES {
      return Rejected(InputTooLarge);
    }
    r := Accepted(JObject(c), serialized);
  }

  /** What `parseReceipt` comes to on a string. */
  function ParsedReceipt(raw: Text, policy: Policy, host: Host): ReceiptResult {
    if |raw| > MAX_RECEIPT_BYTES then Rejected(InputTooLarge)
    else if !WellFormed(raw) then Rejected(InvalidEncoding)
    else if Utf8Length(raw) > MAX_RECEIPT_BYTES then Rejected(InputTooLarge)
    else if raw != [] && raw[0] == BYTE_ORDER_MARK then Rejected(InvalidEncoding)
    else
      var parsed := ParseStrict(raw, host.round);
      if parsed.Failure? then Rejected(parsed.error) else Finished(parsed.value, policy, true, host)
  }

  method ParseReceipt(raw: Text, policy: Policy, host: Host) returns (r: ReceiptResult)
    ensures r == ParsedReceipt(raw, policy, host)
  {
    if |raw| > MAX_RECEIPT_BYTES {
      return Rejected(InputTooLarge);
    }
    var ok := CheckWellFormed(raw);
    if !ok {
      return Rejected(InvalidEncoding);
    }
    if Utf8Length(raw) > MAX_RECEIPT_BYTES {
      return Rejected(InputTooLarge);
    }
    if raw != [] && raw[0] == BYTE_ORDER_MARK {
      return Rejected(InvalidEncoding);
    }
    var parsed := ParseText(raw, host.round);
    if parsed.Failure? {
      return Rejected(parsed.error);
    }
    r := Finish(parsed.value, policy, true, host);
  }
}
