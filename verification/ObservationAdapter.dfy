/** The whole adapter: evidence and context in, a sealed receipt out, and never anything in between. */
module ObservationAdapter {
  import opened CodeUnits
  import opened StrictJson
  import opened CanonicalJson
  import opened ObservationReceipt
  import opened ReceiptLanguage
  import opened ReceiptSize
  import opened RoutingObservation

  /** Everything but the policy is passed on unread until the receipt rules have accepted it. */
  datatype Context = Context(
    observationId: Json, projectRef: Json, observedAt: Json, freshUntil: Json, evidenceMode: Json, provenance: Json,
    policy: Policy)

  datatype AdapterResult = Adapted(receipt: ReceiptResult) | InvalidEvidence | InvalidContext

  predicate ValidAttempt(r: Attempt) {
    && (r.observationId.Some? ==> ObservationShape(r.observationId.value))
    && 1 <= r.ordinal <= MAX_COUNT
    && (r.identity.Known? ==> ProviderShape(r.identity.provider) && ModelShape(r.identity.model))
  }

  predicate ValidEvidence(e: Evidence) {
    && e.outcome in OUTCOMES
    && (e.attempts.Records? ==>
          |e.attempts.records| <= MAX_COUNT && forall r | r in e.attempts.records :: ValidAttempt(r))
    && match e.tools
       case NoTools(reason) => reason in NO_TOOLS_REASONS
       case Tools(_, _, started, completed, failed) =>
         started <= MAX_COUNT && completed <= MAX_COUNT && failed <= MAX_COUNT && completed + failed <= started
  }

  function StateOf(tools: ToolEvidence): ToolState {
    match tools
    case NoTools(reason) => ToolsUnavailable(reason)
    case Tools(complete, terminal, started, completed, failed) =>
      if failed > 0 then ToolsIncomplete(TOOL_FAILED, started, completed, failed)
      else if started > completed then ToolsIncomplete(OPEN_TOOLS, started, completed, failed)
      else if !complete || !terminal then ToolsIncomplete(COVERAGE_INCOMPLETE, started, completed, failed)
      else ToolsCompleted(started, completed, failed)
  }

  function RequestJson(outcome: Text): Json {
    JObject(map[OUTCOME := JString(outcome)])
  }

  function AttributionJson(a: Attribution): Json {
    match a
    case Observed(provider, model, ordinal) =>
      JObject(map[STATE := JString(OBSERVED), PROVIDER := JString(provider), MODEL := JString(model),
                  ATTEMPT_ORDINAL := CountOf(ordinal), BASIS := JString(BASIS_NAME)])
    case Unattributed(reason) => JObject(map[STATE := JString(UNAVAILABLE), REASON := JString(reason)])
    case Ambiguous(reason) => JObject(map[STATE := JString(AMBIGUOUS), REASON := JString(reason)])
  }

  function ToolsJson(t: ToolState): Json {
    match t
    case ToolsUnavailable(reason) => JObject(map[STATE := JString(UNAVAILABLE), REASON := JString(reason)])
    case ToolsIncomplete(reason, started, completed, failed) =>
      JObject(map[STATE := JString(INCOMPLETE), REASON := JString(reason), STARTED := CountOf(started),
                  COMPLETED := CountOf(completed), FAILED := CountOf(failed)])
    case ToolsCompleted(started, completed, failed) =>
      JObject(map[STATE := JString(COMPLETED_STATE), STARTED := CountOf(started), COMPLETED := CountOf(completed),
                  FAILED := CountOf(failed)])
  }

  /** The declaration that says nothing yet. */
  function Base(c: Context): (base: Json)
    ensures base.JObject?
  {
    JObject(map[
      SCHEMA := JString(SCHEMA_NAME), SOURCE := JString(ADAPTER_NAME), OBSERVATION_ID := c.observationId,
      PROJECT_REF := c.projectRef, OBSERVED_AT := c.observedAt, FRESH_UNTIL := c.freshUntil,
      EVIDENCE_MODE := c.evidenceMode, PROVENANCE := c.provenance, REQUEST := RequestJson(UNAVAILABLE),
      ATTRIBUTION := AttributionJson(Unattributed(EVIDENCE_UNAVAILABLE)),
      TOOLS := ToolsJson(ToolsUnavailable(EVIDENCE_UNAVAILABLE))])
  }

  function Declared(base: Json, outcome: Text, a: Attribution, t: ToolState): Json
    requires base.JObject?
  {
    JObject(base.fields[REQUEST := RequestJson(outcome)][ATTRIBUTION := AttributionJson(a)][TOOLS := ToolsJson(t)])
  }

  function IdOf(c: Context): Text {
    if c.observationId.JString? then c.observationId.text else []
  }

  ghost function Outcome(e: Evidence, c: Context, host: Host): AdapterResult {
    if Finished(Base(c), c.policy, false, host).Rejected? then InvalidContext
    else if !ValidEvidence(e) then InvalidEvidence
    else
      Adapted(Finished(Declared(Base(c), e.outcome, AttributeAll(e.attempts, IdOf(c), c.policy.catalog), StateOf(e.tools)),
                       c.policy, false, host))
  }

  method Adapt(e: Evidence, c: Context, host: Host) returns (r: AdapterResult)
    ensures r == Outcome(e, c, host)
  {
    var checked := Finish(Base(c), c.policy, false, host);
    if checked.Rejected? {
      return InvalidContext;
    }
    if !ValidEvidence(e) {
      return InvalidEvidence;
    }
    var a := AttributeRecords(e.attempts, IdOf(c), c.policy.catalog);
    var result := Finish(Declared(Base(c), e.outcome, a, StateOf(e.tools)), c.policy, false, host);
    r := Adapted(result);
  }

  // ------------------------------------------------------------------ validity

  lemma AttributionRules(e: Evidence, id: Text, p: Policy)
    requires ValidEvidence(e) && ValidPolicy(p)
    ensures ValidAttribution(AttributionJson(AttributeAll(e.attempts, id, p.catalog)), p)
  {
    var a := AttributeAll(e.attempts, id, p.catalog);
    if a.Observed? {
      var records := SetOf(e.attempts.records);
      var w :| w in Successes(records) && Credit(w, p.catalog) == a;
      assert ValidAttempt(w);
      ObservedRules(a, p);
    } else {
      OtherRules(a, p);
    }
  }

  lemma StateNotModel()
    ensures STATE != MODEL && OBSERVED != UNAVAILABLE && OBSERVED != AMBIGUOUS && UNAVAILABLE != AMBIGUOUS
    ensures COMPLETED_STATE != INCOMPLETE && COMPLETED_STATE != UNAVAILABLE && INCOMPLETE != UNAVAILABLE
  {
    assert STATE[0] != MODEL[0];
  }

  lemma ObservedRules(a: Attribution, p: Policy)
    requires a.Observed? && ProviderShape(a.provider) && ModelShape(a.model) && 1 <= a.ordinal <= MAX_COUNT
    requires (a.provider, a.model) in p.catalog
    ensures ValidAttribution(AttributionJson(a), p)
  {
    StateNotModel();
    var v := AttributionJson(a);
    assert v.fields.Keys == {STATE, PROVIDER, MODEL, ATTEMPT_ORDINAL, BASIS};
    CountRules(v, ATTEMPT_ORDINAL, a.ordinal);
  }

  lemma CountRules(v: Json, key: Text, n: nat)
    requires v.JObject? && key in v.fields && v.fields[key] == CountOf(n) && n <= MAX_COUNT
    ensures CountField(v, key, 0) && CountAt(v, key) == n && (n >= 1 ==> CountField(v, key, 1))
  {
  }

  lemma OtherRules(a: Attribution, p: Policy)
    requires a.Unattributed? ==> a.reason in UNAVAILABLE_REASONS
    requires a.Ambiguous? ==> a.reason in AMBIGUOUS_REASONS
    requires !a.Observed?
    ensures ValidAttribution(AttributionJson(a), p)
  {
    StateNotModel();
    assert AttributionJson(a).fields.Keys == {STATE, REASON};
  }

  lemma ToolsRules(e: Evidence)
    requires ValidEvidence(e)
    ensures ValidTools(ToolsJson(StateOf(e.tools)))
  {
    StateNotModel();
    var v := ToolsJson(StateOf(e.tools));
    if e.tools.NoTools? {
      assert v.fields.Keys == {STATE, REASON};
    } else {
      CountRules(v, STARTED, e.tools.started);
      CountRules(v, COMPLETED, e.tools.completed);
      CountRules(v, FAILED, e.tools.failed);
      assert v.fields.Keys == {STATE, STARTED, COMPLETED, FAILED} + if StateOf(e.tools).ToolsIncomplete? then {REASON} else {};
    }
  }

  lemma NestedKeysDiffer()
    ensures forall k | k in CONTENT_KEYS - {REQUEST, ATTRIBUTION, TOOLS} ::
              k != REQUEST && k != ATTRIBUTION && k != TOOLS
    ensures REQUEST != ATTRIBUTION && REQUEST != TOOLS && ATTRIBUTION != TOOLS
    ensures {SCHEMA, SOURCE, OBSERVATION_ID, PROJECT_REF, OBSERVED_AT, FRESH_UNTIL, EVIDENCE_MODE, PROVENANCE}
         !! {REQUEST, ATTRIBUTION, TOOLS}
  {
    assert ATTRIBUTION[0] != PROJECT_REF[0] && ATTRIBUTION[0] != OBSERVED_AT[0] && ATTRIBUTION[0] != FRESH_UNTIL[0];
  }

  /** Replacing the three declarations of a valid content by valid ones keeps it valid. */
  lemma DeclaredIsValid(base: Json, outcome: Text, a: Attribution, t: ToolState, p: Policy, host: Host)
    requires ValidContent(base, p, false, host) && outcome in OUTCOMES
    requires ValidAttribution(AttributionJson(a), p) && ValidTools(ToolsJson(t))
    ensures ValidContent(Declared(base, outcome, a, t), p, false, host)
  {
    NestedKeysDiffer();
    hide ValidProvenance, ValidAttribution, ValidTools, AttributionJson, ToolsJson, TimestampShape, ProjectShape;
    hide ObservationShape;
    var c := Declared(base, outcome, a, t);
    assert c.fields.Keys == CONTENT_KEYS;
    assert ValidRequest(RequestJson(outcome)) by {
      assert RequestJson(outcome).fields.Keys == {OUTCOME};
    }
  }

  lemma FinishedIsAccepted(c: Json, p: Policy, host: Host)
    requires Sound(host) && ValidPolicy(p) && ValidContent(c, p, false, host)
    ensures Finished(c, p, false, host) == Accepted(Seal(c, host), Canonical(Seal(c, host), host.show))
  {
    SealIsValid(c, p, host);
    hide ValidPolicy, ValidContent, Canonical, Seal, Sound;
    ContentFits(Seal(c, host), p, true, host);
    var r := Seal(c, host);
    ContentIsPlain(r, p, true, host);
    PlainIsAscii(r, 0, host);
    AsciiIsWellFormed(Canonical(r, host.show));
  }

  predicate ContextOk(c: Context, host: Host) {
    ValidPolicy(c.policy) && ValidContent(Base(c), c.policy, false, host)
  }

  /** The receipt that evidence and context call for. */
  ghost function Receipt(e: Evidence, c: Context, host: Host): Json {
    Seal(Declared(Base(c), e.outcome, AttributeAll(e.attempts, IdOf(c), c.policy.catalog), StateOf(e.tools)), host)
  }

  /**
   * The main result: the adapter refuses only bad context or bad evidence. Whatever passes
   * those two checks becomes an accepted receipt that says what the evidence supports.
   */
  lemma AdapterTotal(e: Evidence, c: Context, host: Host)
    requires Sound(host)
    ensures Outcome(e, c, host)
         == if !ContextOk(c, host) then InvalidContext
            else if !ValidEvidence(e) then InvalidEvidence
            else Adapted(Accepted(Receipt(e, c, host), Canonical(Receipt(e, c, host), host.show)))
  {
    hide ValidEvidence, ValidContent, ValidPolicy, Canonical, Seal, StateOf, AttributeAll, Declared, Base, Sound;
    if ValidPolicy(c.policy) && ValidContent(Base(c), c.policy, false, host) {
      FinishedIsAccepted(Base(c), c.policy, host);
      if ValidEvidence(e) {
        AttributionRules(e, IdOf(c), c.policy);
        ToolsRules(e);
        KnownOutcome(e);
        var attribution := AttributeAll(e.attempts, IdOf(c), c.policy.catalog);
        DeclaredIsValid(Base(c), e.outcome, attribution, StateOf(e.tools), c.policy, host);
        FinishedIsAccepted(Declared(Base(c), e.outcome, attribution, StateOf(e.tools)), c.policy, host);
      }
    }
  }

  lemma KnownOutcome(e: Evidence)
    requires ValidEvidence(e)
    ensures e.outcome in OUTCOMES
  {
  }
}
