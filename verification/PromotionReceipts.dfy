/** The receipts of a promotion, the resources they own, and the canary contract. */
module PromotionReceipts {
  import opened Basics

  datatype Kind =
    | RemoteKey | ServiceToken | AccessApplication | AccessPolicy | Tunnel | TunnelConfiguration | ConnectorTokenFile
    | Connector | Dns

  /** A digest stands for the content it was made of; `Foreign` is any other text. */
  datatype Digest = Owned(transaction: string, manifest: string, kind: Kind, name: string) | Foreign(text: string)

  datatype Ref = Ref(kind: Kind, id: string, name: string, owner: Digest, state: string)

  datatype State = Preparing | Prepared | Promoting | Promoted | RollingBack | RolledBack | StuckOpen

  /** What a receipt copies from its manifest and never changes. */
  datatype Header = Header(manifest: string, hostname: string, tunnelName: string, applicationName: string, rest: string)

  /** The content behind `preparedStateHash`. */
  datatype Snapshot = Snapshot(transaction: string, header: Header, resources: map<Kind, Ref>)

  datatype Receipt = Receipt(
    state: State, transaction: string, header: Header, resources: map<Kind, Ref>, prepared: Snapshot,
    approvalId: Option<string>, stuck: bool)

  /** The identifier and digest patterns, and the checks on the fields of a header. */
  datatype Patterns = Patterns(safe: string -> bool, hash: string -> bool, header: Header -> bool)

  function OwnershipHash(r: Receipt, kind: Kind, name: string): Digest {
    Owned(r.transaction, r.header.manifest, kind, name)
  }

  function StateHash(r: Receipt): Snapshot {
    Snapshot(r.transaction, r.header, r.resources)
  }

  predicate ValidRef(r: Receipt, kind: Kind, ref: Ref, p: Patterns) {
    ref.kind == kind && p.safe(ref.id) && p.safe(ref.name) && ref.owner == OwnershipHash(r, kind, ref.name) && p.hash(ref.state)
  }

  predicate ValidReceipt(r: Receipt, p: Patterns) {
    && p.safe(r.transaction) && p.header(r.header)
    && (r.state.StuckOpen? <==> r.stuck)
    && (forall kind | kind in r.resources :: ValidRef(r, kind, r.resources[kind], p))
    && r.prepared == StateHash(r)
  }

  function Update(r: Receipt, state: State): Receipt {
    var next := r.(state := state);
    next.(prepared := StateHash(next))
  }

  /** A reference as one step expects it: everything but the shape of its name, which the step chose. */
  predicate Expected(r: Receipt, kind: Kind, name: string, ref: Ref, p: Patterns) {
    ref.kind == kind && ref.name == name && p.safe(ref.id) && ref.owner == OwnershipHash(r, kind, name) && p.hash(ref.state)
  }

  function Record(r: Receipt, kind: Kind, ref: Ref): Receipt {
    var next := r.(resources := r.resources[kind := ref]);
    next.(prepared := StateHash(next))
  }

  /** A new state makes a valid receipt unless it leaves an old failure code behind or claims one. */
  lemma UpdateValid(r: Receipt, state: State, p: Patterns)
    requires ValidReceipt(r, p)
    ensures ValidReceipt(Update(r, state), p) <==> (state.StuckOpen? <==> r.state.StuckOpen?)
  {
    forall kind | kind in r.resources ensures ValidRef(Update(r, state), kind, r.resources[kind], p) {
      assert ValidRef(r, kind, r.resources[kind], p);
    }
  }

  /** So a rollback restarted from `stuck_open` writes receipts that its own validation refuses. */
  lemma StuckOpenRestart(r: Receipt, p: Patterns)
    requires ValidReceipt(r, p) && r.state.StuckOpen?
    ensures !ValidReceipt(Update(r, RollingBack), p) && !ValidReceipt(Update(r, RolledBack), p)
  {
  }

  /** Recording an expected reference keeps a receipt valid exactly when its name has the identifier shape. */
  lemma RecordValid(r: Receipt, kind: Kind, name: string, ref: Ref, p: Patterns)
    requires ValidReceipt(r, p) && Expected(r, kind, name, ref, p)
    ensures ValidReceipt(Record(r, kind, ref), p) <==> p.safe(name)
  {
    var next := Record(r, kind, ref);
    if p.safe(name) {
      forall k | k in next.resources ensures ValidRef(next, k, next.resources[k], p) {
        if k != kind {
          assert ValidRef(r, k, r.resources[k], p);
        }
      }
    } else {
      assert kind in next.resources && !ValidRef(next, kind, ref, p);
    }
  }

  // ------------------------------------------------------------------ manifest

  datatype Manifest = Manifest(
    header: Header, names: map<Kind, string>, model: string, audience: string, issuer: string, principal: string,
    pollAttempts: nat)

  /** What the manifest parser guarantees: names with the identifier shape, except for the token file's basename. */
  predicate ValidManifest(m: Manifest, p: Patterns) {
    && p.header(m.header) && 1 <= m.pollAttempts <= 60
    && (forall kind: Kind :: kind in m.names)
    && (forall kind: Kind | kind != ConnectorTokenFile :: p.safe(m.names[kind]))
  }

  function NewReceipt(m: Manifest, transaction: string): Receipt {
    Receipt(Preparing, transaction, m.header, map[], Snapshot(transaction, m.header, map[]), None, false)
  }

  // ------------------------------------------------------------------ canaries

  datatype Decision = Denied | Allowed | Undecided

  datatype Evidence = AccessDenial | JwtBinding | NoEvidence

  datatype Canary = Canary(
    id: string, status: int, routed: bool, decision: Decision, http: bool, resolved: bool, evidence: Evidence,
    audience: Option<string>, issuer: Option<string>, principal: Option<string>, model: Option<string>)

  datatype Contract = Contract(id: string, status: int, routed: bool, decision: Decision)

  const MODEL_CANARY := "exact_model_success"

  const CANARY_CONTRACT := [
    Contract("anonymous_access_denial", 403, false, Denied),
    Contract("invalid_machine_identity_denial", 403, false, Denied),
    Contract("invalid_origin_bearer_denial", 401, false, Allowed),
    Contract(MODEL_CANARY, 200, true, Allowed),
    Contract("disallowed_model_denial", 403, false, Allowed),
    Contract("anonymous_management_denial", 403, false, Denied)]

  predicate Meets(m: Manifest, expected: Contract, actual: Canary) {
    && actual.id == expected.id && actual.status == expected.status && actual.routed == expected.routed
    && actual.decision == expected.decision && actual.http && actual.resolved
    && (if expected.decision.Denied? then
          actual.evidence.AccessDenial? && actual.audience.None? && actual.issuer.None? && actual.principal.None?
        else
          && actual.evidence.JwtBinding? && actual.audience == Some(m.audience) && actual.issuer == Some(m.issuer)
          && actual.principal == Some(m.principal))
    && actual.model == (if expected.id == MODEL_CANARY then Some(m.model) else None)
  }

  predicate AllMeet(m: Manifest, observed: seq<Canary>) {
    |observed| == |CANARY_CONTRACT| && forall i | 0 <= i < |observed| :: Meets(m, CANARY_CONTRACT[i], observed[i])
  }

  method ValidateCanaries(m: Manifest, observed: seq<Canary>) returns (ok: bool)
    ensures ok == AllMeet(m, observed)
  {
    if |observed| != |CANARY_CONTRACT| {
      return false;
    }
    for i := 0 to |observed|
      invariant forall j | 0 <= j < i :: Meets(m, CANARY_CONTRACT[j], observed[j])
    {
      if !Meets(m, CANARY_CONTRACT[i], observed[i]) {
        return false;
      }
    }
    ok := true;
  }
}
