/** Prepare, promote, roll back and recover, against an adapter that may fail at any call. */
module PromotionSaga {
  import opened Basics
  import opened PromotionReceipts

  type Code = string

  datatype Call =
    | OpenControlPlane | BeginJournal | BeforeMutation(kind: Kind) | AfterMutation(kind: Kind) | WriteReceipt(receipt: Receipt)
    | ConsumeApproval | Create(kind: Kind, name: string, owner: Digest) | VerifyAccess | VerifyConfiguration
    | WaitForConnector | RunCanaries | Inspect(ref: Ref)
    | StopConnector | CleanupConnections | ConnectionCount | Wait | Delete(kind: Kind) | DeleteSecrets
    | DiscoverPrepared | DiscoverResource(kind: Kind, name: string)

  /** Whatever an adapter answers; an answer of the wrong kind counts as a refusal. */
  datatype Reply =
    | Threw | Done | Yes | Gave(ref: Ref) | Count(n: nat) | Observed(canaries: seq<Canary>) | Found(receipt: Receipt)

  datatype Entry = Entry(call: Call, reply: Reply)

  const SEVEN := [RemoteKey, ServiceToken, AccessApplication, AccessPolicy, Tunnel, TunnelConfiguration, ConnectorTokenFile]

  // --------------------------------------------------------------------- laws

  predicate Succeeded(t: seq<Entry>, call: Call) {
    exists i | 0 <= i < |t| :: t[i].call == call && !t[i].reply.Threw?
  }

  predicate Tried(t: seq<Entry>, call: Call) {
    exists i | 0 <= i < |t| :: t[i].call == call
  }

  predicate Approved(t: seq<Entry>) {
    Entry(ConsumeApproval, Yes) in t
  }

  predicate ConnectorStarted(e: Entry) {
    e.call.Create? && e.call.kind.Connector? && e.reply.Gave?
  }

  predicate Connected(t: seq<Entry>) {
    exists i, j | 0 <= i < j < |t| :: ConnectorStarted(t[i]) && t[j] == Entry(WaitForConnector, Yes)
  }

  predicate CanariesMet(t: seq<Entry>, m: Manifest) {
    exists i | 0 <= i < |t| :: t[i].call.RunCanaries? && t[i].reply.Observed? && AllMeet(m, t[i].reply.canaries)
  }

  /** The adapter itself produced, found or confirmed this very reference. */
  predicate Vouched(t: seq<Entry>, ref: Ref) {
    exists i | 0 <= i < |t| ::
      t[i].reply == Gave(ref)
      && (t[i].call.Create? || t[i].call.DiscoverResource? || t[i].call == Inspect(ref))
  }

  predicate IsMarker(e: Entry) {
    e.call.WriteReceipt? && e.call.receipt.state.RollingBack? && !e.reply.Threw?
  }

  /** Where the latest rollback was announced, -1 if none was. */
  function Marker(t: seq<Entry>): (n: int)
    ensures -1 <= n < |t| && (n >= 0 ==> IsMarker(t[n]))
  {
    if t == [] then -1 else if IsMarker(Last(t)) then |t| - 1 else Marker(t[..|t| - 1])
  }

  function RollingResources(t: seq<Entry>): map<Kind, Ref> {
    if Marker(t) < 0 then map[] else t[Marker(t)].call.receipt.resources
  }

  function SinceMarker(t: seq<Entry>): seq<Entry> {
    t[Marker(t) + 1..]
  }

  predicate Teardown(call: Call) {
    call.CleanupConnections? || call.DeleteSecrets? || (call.Delete? && !call.kind.Dns?)
  }

  /** Both public ways in are closed. */
  predicate Contained(t: seq<Entry>) {
    && (Connector in RollingResources(t) ==> Succeeded(SinceMarker(t), StopConnector))
    && (Dns in RollingResources(t) ==> Succeeded(SinceMarker(t), Delete(Dns)))
  }

  function Polls(t: seq<Entry>): nat {
    if t == [] then 0 else Polls(t[..|t| - 1]) + if Last(t).call.ConnectionCount? then 1 else 0
  }

  /** The call that releases a resource; a tunnel's configuration goes with the tunnel. */
  function ReleaseOf(kind: Kind): Option<Call> {
    match kind
    case TunnelConfiguration => None
    case ConnectorTokenFile => Some(DeleteSecrets)
    case Connector => Some(StopConnector)
    case _ => Some(Delete(kind))
  }

  predicate Released(t: seq<Entry>, kind: Kind) {
    ReleaseOf(kind).Some? ==> Succeeded(t, ReleaseOf(kind).value)
  }

  predicate AllReleased(t: seq<Entry>) {
    Marker(t) >= 0 && forall kind | kind in RollingResources(t) :: Released(SinceMarker(t), kind)
  }

  /** A recorded resource is one the adapter vouched for, under the name and owner this promotion gives it. */
  predicate Accounted(t: seq<Entry>, r: Receipt, kind: Kind, m: Manifest) {
    && kind in r.resources && kind in m.names && Vouched(t, r.resources[kind])
    && r.resources[kind].kind == kind && r.resources[kind].name == m.names[kind]
    && r.resources[kind].owner == OwnershipHash(r, kind, m.names[kind])
  }

  /** What must have been shown before a resource may be created. */
  predicate Ready(t: seq<Entry>, kind: Kind) {
    match kind
    case Tunnel => Entry(VerifyAccess, Yes) in t
    case ConnectorTokenFile => Entry(VerifyConfiguration, Yes) in t
    case Dns => Approved(t) && Connected(t)
    case _ => true
  }

  /** What must have happened before a call may be made. */
  predicate Permitted(t: seq<Entry>, call: Call, m: Manifest) {
    && (call.Create? ==> Ready(t, call.kind))
    && (Teardown(call) ==> Marker(t) >= 0 && Contained(t))
    && (call == Delete(Tunnel) ==>
          t != [] && Last(t) == Entry(ConnectionCount, Count(0)) && Polls(SinceMarker(t)) <= m.pollAttempts)
    && (call.WriteReceipt? ==>
          && (call.receipt.state.Promoted? ==> CanariesMet(t, m))
          && (call.receipt.state.RolledBack? ==> AllReleased(t)))
  }

  /** Calls that no law restricts. */
  predicate Free(call: Call) {
    !call.Create? && !Teardown(call) && !call.WriteReceipt?
  }

  /** Every call of the trace was permitted when it was made. */
  predicate Lawful(t: seq<Entry>, m: Manifest) {
    t == [] || (Lawful(t[..|t| - 1], m) && Permitted(t[..|t| - 1], Last(t).call, m))
  }

  lemma {:induction false} LawfulEverywhere(t: seq<Entry>, m: Manifest, i: nat)
    requires Lawful(t, m) && i < |t|
    ensures Permitted(t[..i], t[i].call, m)
  {
    if i < |t| - 1 {
      LawfulEverywhere(t[..|t| - 1], m, i);
      assert t[..|t| - 1][..i] == t[..i];
    }
  }

  predicate WritesValid(t: seq<Entry>, p: Patterns) {
    forall i | 0 <= i < |t| && t[i].call.WriteReceipt? :: ValidReceipt(t[i].call.receipt, p)
  }

  lemma Extended(t: seq<Entry>, e: Entry, m: Manifest)
    ensures Lawful(t + [e], m) <==> Lawful(t, m) && Permitted(t, e.call, m)
    ensures Marker(t + [e]) == if IsMarker(e) then |t| else Marker(t)
    ensures Polls(t + [e]) == Polls(t) + if e.call.ConnectionCount? then 1 else 0
  {
    assert (t + [e])[..|t|] == t;
  }

  /** More calls, none of which writes a receipt. */
  predicate Grows(was: seq<Entry>, t: seq<Entry>) {
    && was <= t && Marker(t) == Marker(was)
    && forall i | |was| <= i < |t| :: !t[i].call.WriteReceipt?
  }

  lemma SuccessKept(s: seq<Entry>, t: seq<Entry>, call: Call)
    requires s <= t
    ensures Succeeded(s, call) ==> Succeeded(t, call)
    ensures Tried(s, call) ==> Tried(t, call)
  {
  }

  lemma GrowthKeeps(was: seq<Entry>, t: seq<Entry>)
    requires Grows(was, t)
    ensures SinceMarker(was) <= SinceMarker(t) && RollingResources(t) == RollingResources(was)
    ensures Contained(was) ==> Contained(t)
    ensures forall p | WritesValid(was, p) :: WritesValid(t, p)
  {
    SuccessKept(SinceMarker(was), SinceMarker(t), StopConnector);
    SuccessKept(SinceMarker(was), SinceMarker(t), Delete(Dns));
    hide Succeeded, Marker;
  }

  /** The latest call counts as made since the marker. */
  lemma JustMade(was: seq<Entry>, e: Entry)
    requires !IsMarker(e)
    ensures SinceMarker(was + [e]) == SinceMarker(was) + [e]
    ensures Tried(SinceMarker(was + [e]), e.call)
    ensures !e.reply.Threw? ==> Succeeded(SinceMarker(was + [e]), e.call)
    ensures Polls(SinceMarker(was + [e])) == Polls(SinceMarker(was)) + if e.call.ConnectionCount? then 1 else 0
    ensures !e.call.WriteReceipt? ==> Grows(was, was + [e])
  {
    assert (was + [e])[..|was|] == was;
    var since := SinceMarker(was);
    assert SinceMarker(was + [e]) == since + [e];
    assert (since + [e])[|since|] == e && (since + [e])[..|since|] == since;
  }

  // -------------------------------------------------------- partial receipts

  predicate Complete(r: Receipt) {
    forall kind | kind in SEVEN :: kind in r.resources
  }

  /** A receipt is written that says prepared and is not. */
  predicate Partial(call: Call) {
    call.WriteReceipt? && call.receipt.state.Prepared? && !Complete(call.receipt)
  }

  predicate WritesPartial(t: seq<Entry>) {
    exists i | 0 <= i < |t| :: Partial(t[i].call)
  }

  /** A journal that recovery agrees to start from. */
  predicate Loadable(j: Receipt, m: Manifest, p: Patterns) {
    && ValidReceipt(j, p) && j.header.manifest == m.header.manifest && (j.state.Preparing? || j.state.Prepared?)
    && Connector !in j.resources && Dns !in j.resources
  }

  predicate Named(j: Receipt, kind: Kind, m: Manifest) {
    kind in j.resources && kind in m.names ==> j.resources[kind].name == m.names[kind]
  }

  /** The first of the seven that is not recorded, and those before it recorded under their own names. */
  predicate FirstMissing(j: Receipt, m: Manifest, i: nat) {
    i < |SEVEN| && SEVEN[i] !in j.resources && forall k | 0 <= k < i :: SEVEN[k] in j.resources && Named(j, SEVEN[k], m)
  }

  /** The journals from which a recovery can write a partial receipt: prepared, with two or more of the seven missing. */
  predicate Exposed(j: Receipt, m: Manifest, p: Patterns) {
    && Loadable(j, m, p) && j.state.Prepared?
    && exists i, l | 0 <= i < l < |SEVEN| :: FirstMissing(j, m, i) && SEVEN[l] !in j.resources
  }

  lemma ExposedBy(j: Receipt, m: Manifest, p: Patterns, i: nat, l: nat)
    requires Loadable(j, m, p) && j.state.Prepared?
    requires i < |SEVEN| && l < |SEVEN| && i != l && SEVEN[i] !in j.resources && SEVEN[l] !in j.resources
    requires forall k | 0 <= k < i :: Named(j, SEVEN[k], m)
    ensures Exposed(j, m, p)
  {
    hide Named;
    var first := 0;
    while SEVEN[first] in j.resources
      invariant first <= i && first <= l
      invariant forall k | 0 <= k < first :: SEVEN[k] in j.resources
      decreases |SEVEN| - first
    {
      first := first + 1;
    }
    var other := if first == i then l else i;
    assert FirstMissing(j, m, first) && SEVEN[other] !in j.resources;
  }

  lemma MissingIsUnique(j: Receipt, m: Manifest, i: nat, k: nat)
    requires FirstMissing(j, m, i) && FirstMissing(j, m, k)
    ensures i == k
  {
    hide Named;
  }

  /** No receipt that says prepared is written after `was`. */
  predicate Quiet(was: seq<Entry>, t: seq<Entry>) {
    was <= t && forall i | |was| <= i < |t| && t[i].call.WriteReceipt? :: !t[i].call.receipt.state.Prepared?
  }

  /** No receipt is written after `was`. */
  predicate Silent(was: seq<Entry>, t: seq<Entry>) {
    was <= t && forall i | |was| <= i < |t| :: !t[i].call.WriteReceipt?
  }

  lemma StillHeard(was: seq<Entry>, between: seq<Entry>, t: seq<Entry>)
    requires was <= between <= t && !Silent(was, between)
    ensures !Silent(was, t)
  {
    var i :| |was| <= i < |between| && between[i].call.WriteReceipt?;
    assert t[i] == between[i];
  }

  lemma PrefixValid(was: seq<Entry>, t: seq<Entry>, p: Patterns)
    requires was <= t
    ensures WritesValid(t, p) ==> WritesValid(was, p)
  {
    hide ValidReceipt;
    assert forall i | 0 <= i < |was| :: was[i] == t[i];
  }

  lemma WrittenValid(was: seq<Entry>, t: seq<Entry>, p: Patterns)
    requires was <= t && |t| == |was| + 1 && t[|was|].call.WriteReceipt?
    ensures WritesValid(t, p) <==> WritesValid(was, p) && ValidReceipt(t[|was|].call.receipt, p)
  {
    hide ValidReceipt;
    assert forall i | 0 <= i < |was| :: was[i] == t[i];
  }

  lemma QuietKeeps(was: seq<Entry>, t: seq<Entry>)
    requires Quiet(was, t)
    ensures WritesPartial(t) <==> WritesPartial(was)
  {
    hide Complete;
    if WritesPartial(was) {
      var i :| 0 <= i < |was| && Partial(was[i].call);
      assert t[i] == was[i];
    }
  }

  lemma PartialKept(was: seq<Entry>, t: seq<Entry>)
    requires was <= t && WritesPartial(was)
    ensures WritesPartial(t)
  {
    var i :| 0 <= i < |was| && Partial(was[i].call);
    assert t[i] == was[i];
    hide Partial;
  }

  // --------------------------------------------------------------------- saga

  class Saga {
    const manifest: Manifest
    const patterns: Patterns
    /** The adapter's answer to its `n`-th call. */
    const adapter: nat -> Reply
    var receipt: Receipt
    var trace: seq<Entry>

    ghost predicate Valid()
      reads this
    {
      Lawful(trace, manifest)
    }

    method Act(call: Call) returns (reply: Reply)
      requires Valid() && Permitted(trace, call, manifest)
      modifies `trace
      ensures Valid() && reply == adapter(|old(trace)|) && trace == old(trace) + [Entry(call, reply)]
      ensures Marker(trace) == if IsMarker(Entry(call, reply)) then |old(trace)| else Marker(old(trace))
    {
      reply := adapter(|trace|);
      Extended(trace, Entry(call, reply), manifest);
      trace := trace + [Entry(call, reply)];
    }

    method Write(r: Receipt) returns (ok: bool)
      requires Valid() && Permitted(trace, WriteReceipt(r), manifest)
      modifies `trace
      ensures Valid() && |trace| == |old(trace)| + 1 && old(trace) <= trace
      ensures trace[|old(trace)|].call == WriteReceipt(r) && (ok <==> !trace[|old(trace)|].reply.Threw?)
      ensures Marker(trace) == if r.state.RollingBack? && ok then |old(trace)| else Marker(old(trace))
      ensures WritesValid(old(trace), patterns) && ValidReceipt(r, patterns) ==> WritesValid(trace, patterns)
    {
      var reply := Act(WriteReceipt(r));
      ok := !reply.Threw?;
    }

    /** A call that is neither a write nor bound to a law of its own. */
    method Perform(call: Call) returns (reply: Reply)
      requires Valid() && Permitted(trace, call, manifest) && !call.WriteReceipt?
      modifies `trace
      ensures Valid() && reply == adapter(|old(trace)|)
      ensures trace == old(trace) + [Entry(call, reply)] && Grows(old(trace), trace)
      ensures Polls(SinceMarker(trace)) == Polls(SinceMarker(old(trace))) + if call.ConnectionCount? then 1 else 0
      ensures Tried(SinceMarker(trace), call) && (!reply.Threw? ==> Succeeded(SinceMarker(trace), call))
      ensures Contained(old(trace)) ==> Contained(trace)
    {
      reply := Act(call);
      JustMade(old(trace), Entry(call, reply));
      GrowthKeeps(old(trace), trace);
    }

    /** A call that may be made at any time. */
    method Ask(call: Call) returns (reply: Reply)
      requires Valid() && Free(call)
      modifies `trace
      ensures Valid() && reply == adapter(|old(trace)|)
      ensures trace == old(trace) + [Entry(call, reply)] && Grows(old(trace), trace)
      ensures Polls(SinceMarker(trace)) == Polls(SinceMarker(old(trace))) + if call.ConnectionCount? then 1 else 0
      ensures Tried(SinceMarker(trace), call) && (!reply.Threw? ==> Succeeded(SinceMarker(trace), call))
      ensures Contained(old(trace)) ==> Contained(trace)
    {
      hide Grows, Succeeded, Tried, Contained, SinceMarker;
      reply := Perform(call);
    }

    // ------------------------------------------------------------- rollback

    /** Every recorded resource has to be what it was; the order of the checks does not matter. */
    method CheckDrift(r: Receipt) returns (failure: Option<Code>)
      requires Valid()
      modifies `trace
      ensures Valid() && Grows(old(trace), trace)
      ensures failure.None? ==> forall kind | kind in r.resources :: Vouched(trace, r.resources[kind])
    {
      hide Lawful, Marker, SinceMarker, Contained, Succeeded, Tried, Polls;
      var left := r.resources.Keys;
      while left != {}
        invariant Valid() && Grows(old(trace), trace) && left <= r.resources.Keys
        invariant forall kind | kind in r.resources && kind !in left :: Vouched(trace, r.resources[kind])
        decreases |left|
      {
        var kind :| kind in left;
        left := left - {kind};
        ghost var was := trace;
        var reply := Ask(Inspect(r.resources[kind]));
        VouchedKept(was, trace);
        if reply != Gave(r.resources[kind]) {
          return Some("rollback_resource_drift");
        }
        assert trace[|was|] == Entry(Inspect(r.resources[kind]), Gave(r.resources[kind]));
      }
      failure := None;
    }

    /** A call that is made if there is something to close. */
    method Close(needed: bool, call: Call) returns (failed: bool)
      requires Valid() && Free(call) && !call.ConnectionCount?
      modifies `trace
      ensures Valid() && Grows(old(trace), trace) && Polls(SinceMarker(trace)) == Polls(SinceMarker(old(trace)))
      ensures needed ==> Tried(SinceMarker(trace), call) && (!failed ==> Succeeded(SinceMarker(trace), call))
    {
      hide Lawful, Marker, SinceMarker, Contained, Succeeded, Tried, Polls;
      failed := false;
      if needed {
        var reply := Ask(call);
        failed := reply.Threw?;
      }
    }

    /** Both public ways in are tried before the outcome of either counts. */
    method Contain() returns (failed: bool)
      requires Valid() && Marker(trace) >= 0 && SinceMarker(trace) == []
      modifies `trace
      ensures Valid() && Grows(old(trace), trace) && Polls(SinceMarker(trace)) == 0
      ensures Connector in RollingResources(trace) ==> Tried(SinceMarker(trace), StopConnector)
      ensures Dns in RollingResources(trace) ==> Tried(SinceMarker(trace), Delete(Dns))
      ensures !failed ==> Contained(trace)
    {
      var resources := trace[Marker(trace)].call.receipt.resources;
      assert resources == RollingResources(trace) && Polls(SinceMarker(trace)) == 0;
      hide Valid, Marker, Succeeded, Tried, Permitted, Polls, SinceMarker, RollingResources;
      var stopFailed := Close(Connector in resources, StopConnector);
      ghost var between := trace;
      var deleteFailed := Close(Dns in resources, Delete(Dns));
      GrowthKeeps(old(trace), between);
      GrowthKeeps(between, trace);
      SuccessKept(SinceMarker(between), SinceMarker(trace), StopConnector);
      failed := stopFailed || deleteFailed;
    }

    method PollConnections() returns (empty: bool)
      requires Valid() && Marker(trace) >= 0 && Contained(trace) && Polls(SinceMarker(trace)) == 0
      modifies `trace
      ensures Valid() && Grows(old(trace), trace) && Contained(trace)
      ensures empty ==>
                trace != [] && Last(trace) == Entry(ConnectionCount, Count(0)) && Polls(SinceMarker(trace)) <= manifest.pollAttempts
    {
      hide Lawful, Marker, SinceMarker, Contained, Succeeded, Tried, Polls;
      var attempt := 0;
      while attempt < manifest.pollAttempts
        invariant 0 <= attempt <= manifest.pollAttempts
        invariant Valid() && Grows(old(trace), trace) && Contained(trace) && Polls(SinceMarker(trace)) == attempt
      {
        var reply := Ask(ConnectionCount);
        if reply.Threw? {
          return false;
        }
        if reply == Count(0) {
          return true;
        }
        if attempt + 1 < manifest.pollAttempts {
          var waited := Ask(Wait);
          if waited.Threw? {
            return false;
          }
        }
        attempt := attempt + 1;
      }
      empty := false;
    }

    /** Connections are cleaned up and counted down to none before the tunnel goes. */
    method RemoveTunnel() returns (ok: bool)
      requires Valid() && Marker(trace) >= 0 && Contained(trace) && Polls(SinceMarker(trace)) == 0
      modifies `trace
      ensures Valid() && Grows(old(trace), trace) && Contained(trace)
      ensures ok ==> Succeeded(SinceMarker(trace), Delete(Tunnel))
    {
      hide Lawful, Marker, SinceMarker, Contained, Succeeded, Tried, Polls;
      var cleaned := Perform(CleanupConnections);
      if cleaned.Threw? {
        return false;
      }
      var empty := PollConnections();
      if !empty {
        return false;
      }
      var deleted := Perform(Delete(Tunnel));
      ok := !deleted.Threw?;
    }

    /** A deletion, if there is something to delete. */
    method Remove(needed: bool, call: Call) returns (ok: bool)
      requires Valid() && Marker(trace) >= 0 && Contained(trace) && Teardown(call) && call != Delete(Tunnel)
      modifies `trace
      ensures Valid() && Grows(old(trace), trace) && Contained(trace)
      ensures ok && needed ==> Succeeded(SinceMarker(trace), call)
      ensures forall kind | Released(SinceMarker(old(trace)), kind) :: Released(SinceMarker(trace), kind)
    {
      hide Lawful, Marker, SinceMarker, Contained, Succeeded, Tried, Polls;
      ok := true;
      if needed {
        var reply := Perform(call);
        ok := !reply.Threw?;
      }
      ReleaseKept(old(trace), trace);
    }

    method RemoveIdentity(resources: map<Kind, Ref>) returns (ok: bool)
      requires Valid() && Marker(trace) >= 0 && Contained(trace)
      modifies `trace
      ensures Valid() && Grows(old(trace), trace) && Contained(trace)
      ensures forall kind | Released(SinceMarker(old(trace)), kind) :: Released(SinceMarker(trace), kind)
      ensures ok ==> forall kind | kind in resources && kind in {AccessPolicy, AccessApplication, ServiceToken, RemoteKey} ::
                       Released(SinceMarker(trace), kind)
    {
      hide Lawful, Marker, SinceMarker, Contained, Succeeded, Tried, Polls;
      ok := Remove(AccessPolicy in resources, Delete(AccessPolicy));
      if !ok {
        return;
      }
      ok := Remove(AccessApplication in resources, Delete(AccessApplication));
      if !ok {
        return;
      }
      ok := Remove(ServiceToken in resources, Delete(ServiceToken));
      if !ok {
        return;
      }
      ok := Remove(RemoteKey in resources, Delete(RemoteKey));
    }

    /** Everything else, in order, up to the first failure. */
    method TearDown(resources: map<Kind, Ref>) returns (ok: bool)
      requires Valid() && Marker(trace) >= 0 && Contained(trace) && Polls(SinceMarker(trace)) == 0
      requires resources == RollingResources(trace)
      modifies `trace
      ensures Valid() && Grows(old(trace), trace) && Contained(trace)
      ensures ok ==> AllReleased(trace)
    {
      hide Lawful, Marker, SinceMarker, Contained, Succeeded, Tried, Polls, RollingResources, AllReleased;
      ok := true;
      if Tunnel in resources {
        ok := RemoveTunnel();
        if !ok {
          return;
        }
      }
      ok := RemoveIdentity(resources);
      if !ok {
        return;
      }
      ok := Remove(ConnectorTokenFile in resources || ServiceToken in resources || RemoteKey in resources, DeleteSecrets);
      GrowthKeeps(old(trace), trace);
      if ok {
        EachReleased(trace);
      }
    }

    /** A receipt of a rollback in progress: whatever was tried or released stays so. */
    method Report(r: Receipt) returns (ok: bool)
      requires Valid() && Permitted(trace, WriteReceipt(r), manifest) && !r.state.RollingBack?
      modifies `trace
      ensures Valid() && old(trace) <= trace && Marker(trace) == Marker(old(trace))
      ensures RollingResources(trace) == RollingResources(old(trace))
      ensures BothTried(old(trace)) ==> BothTried(trace)
      ensures AllReleased(old(trace)) ==> AllReleased(trace)
      ensures WritesValid(old(trace), patterns) && ValidReceipt(r, patterns) ==> WritesValid(trace, patterns)
      ensures !r.state.Prepared? ==> Quiet(old(trace), trace)
    {
      ok := Write(r);
      WrittenOnce(old(trace), Last(trace));
      assert trace == old(trace) + [Last(trace)];
      hide Lawful, Marker, Permitted, WritesValid, Succeeded, AllReleased, BothTried;
    }

    /** `rollbackCloudflarePromotion`. */
    method Rollback(r: Receipt) returns (result: Result<Receipt, Code>)
      requires Valid()
      modifies `trace
      ensures Valid() && old(trace) <= trace
      // once the rollback was announced, both ways in were tried, whatever came of it
      ensures Marker(trace) == Marker(old(trace))
              || (Marker(trace) >= |old(trace)| && RollingResources(trace) == r.resources && BothTried(trace))
      // success means that everything recorded was released
      ensures result.Success? ==> result.value.state.RolledBack? && result.value.resources == r.resources
      ensures result.Success? && !r.state.RolledBack? ==> Marker(trace) >= |old(trace)| && AllReleased(trace)
      // the receipts written are valid exactly unless the rollback starts from a stuck receipt and writes at all
      ensures WritesValid(trace, patterns) <==>
              WritesValid(old(trace), patterns) && (r.state.StuckOpen? ==> Silent(old(trace), trace))
      ensures Silent(old(trace), trace) ==> Marker(trace) == Marker(old(trace))
      ensures Quiet(old(trace), trace)
    {
      hide Lawful, Permitted, Marker, SinceMarker, RollingResources, WritesValid, AllReleased, BothTried, Vouched;
      if r.state.RolledBack? {
        return Success(r);
      }
      if !ValidReceipt(r, patterns) || r.header.manifest != manifest.header.manifest {
        return Failure("rollback_receipt_invalid");
      }
      var drift := CheckDrift(r);
      GrowthKeeps(old(trace), trace);
      PrefixValid(old(trace), trace, patterns);
      if drift.Some? {
        return Failure(drift.value);
      }
      ghost var checked := trace;
      var ok := Announce(r);
      ghost var announced := trace;
      assert !Silent(old(trace), announced) by {
        assert announced[|checked|].call.WriteReceipt?;
      }
      if !ok {
        return Failure("adapter_failed");
      }
      result := Undo(r, Update(r, RollingBack));
      PrefixValid(announced, trace, patterns);
      StillHeard(old(trace), announced, trace);
    }

    /** The write that starts the rollback proper. */
    method Announce(r: Receipt) returns (ok: bool)
      requires Valid() && ValidReceipt(r, patterns)
      modifies `trace
      ensures Valid() && |trace| == |old(trace)| + 1 && old(trace) <= trace
      ensures !ok ==> Marker(trace) == Marker(old(trace))
      ensures ok ==> Marker(trace) == |old(trace)| && RollingResources(trace) == r.resources && SinceMarker(trace) == []
      ensures WritesValid(trace, patterns) <==> WritesValid(old(trace), patterns) && !r.state.StuckOpen?
      ensures trace[|old(trace)|].call.WriteReceipt?
      ensures Quiet(old(trace), trace)
    {
      UpdateValid(r, RollingBack, patterns);
      ok := Write(Update(r, RollingBack));
      hide Lawful;
      WrittenValid(old(trace), trace, patterns);
      hide WritesValid;
    }

    /** The rollback after its announcement. */
    method Undo(ghost r: Receipt, rolling: Receipt) returns (result: Result<Receipt, Code>)
      requires Valid() && Marker(trace) >= 0 && SinceMarker(trace) == [] && RollingResources(trace) == r.resources
      requires ValidReceipt(r, patterns) && rolling == Update(r, RollingBack)
      modifies `trace
      ensures Valid()
      ensures old(trace) <= trace && Marker(trace) == Marker(old(trace)) && RollingResources(trace) == r.resources
      ensures BothTried(trace)
      ensures result.Success? ==>
                result.value.state.RolledBack? && result.value.resources == r.resources && AllReleased(trace)
      ensures WritesValid(old(trace), patterns) && !r.state.StuckOpen? ==> WritesValid(trace, patterns)
      ensures Quiet(old(trace), trace)
    {
      hide Lawful, Marker, SinceMarker, RollingResources, WritesValid, AllReleased, Polls, Contained;
      hide ValidReceipt;
      var failed := Contain();
      GrowthKeeps(old(trace), trace);
      assert BothTried(trace);
      hide BothTried;
      if failed {
        result := Stuck(r, rolling);
      } else {
        result := Finish(r, rolling);
      }
    }

    /** A way in that could not be closed: the receipt says so, whatever else is recorded. */
    method Stuck(ghost r: Receipt, rolling: Receipt) returns (result: Result<Receipt, Code>)
      requires Valid() && BothTried(trace) && ValidReceipt(r, patterns) && rolling == Update(r, RollingBack)
      modifies `trace
      ensures Valid() && old(trace) <= trace && Marker(trace) == Marker(old(trace))
      ensures RollingResources(trace) == RollingResources(old(trace)) && BothTried(trace) && result.Failure?
      ensures WritesValid(old(trace), patterns) ==> WritesValid(trace, patterns)
      ensures Quiet(old(trace), trace)
    {
      hide Lawful, Marker, SinceMarker, RollingResources, WritesValid, AllReleased, BothTried, ValidReceipt;
      StuckValid(r, patterns);
      var _ := Report(Update(rolling, StuckOpen).(stuck := true));
      result := Failure("PROMOTION_STUCK_OPEN");
    }

    method Finish(ghost r: Receipt, rolling: Receipt) returns (result: Result<Receipt, Code>)
      requires Valid() && BothTried(trace) && ValidReceipt(r, patterns) && rolling == Update(r, RollingBack)
      requires Marker(trace) >= 0 && Contained(trace) && Polls(SinceMarker(trace)) == 0 && RollingResources(trace) == r.resources
      modifies `trace
      ensures Valid()
      ensures old(trace) <= trace && Marker(trace) == Marker(old(trace)) && RollingResources(trace) == r.resources
      ensures BothTried(trace)
      ensures result.Success? ==>
                result.value.state.RolledBack? && result.value.resources == r.resources && AllReleased(trace)
      ensures WritesValid(old(trace), patterns) && !r.state.StuckOpen? ==> WritesValid(trace, patterns)
      ensures Quiet(old(trace), trace)
    {
      hide Lawful, Marker, SinceMarker, RollingResources, WritesValid, AllReleased, BothTried, Polls, Contained;
      hide ValidReceipt;
      var ok := TearDown(rolling.resources);
      GrowthKeeps(old(trace), trace);
      BothTriedKept(old(trace), trace);
      if !ok {
        return Failure("adapter_failed");
      }
      var rolled := Update(rolling, RolledBack);
      if !r.state.StuckOpen? {
        RolledValid(r, patterns);
      }
      ok := Report(rolled);
      result := if ok then Success(rolled) else Failure("adapter_failed");
    }

    // ------------------------------------------------------------- mutations

    ghost predicate SafeNames()
    {
      ValidManifest(manifest, patterns) && patterns.safe(manifest.names[ConnectorTokenFile])
    }

    /** Announce and create one resource; a reply that is not the expected reference is refused. */
    method Make(kind: Kind) returns (r: Result<Ref, Code>)
      requires Valid() && Ready(trace, kind) && kind in manifest.names
      modifies `trace
      ensures Valid() && Grows(old(trace), trace)
      ensures r.Success? ==> Expected(receipt, kind, manifest.names[kind], r.value, patterns)
      ensures r.Success? ==> |trace| > |old(trace)| && CreatedBy(Last(trace), kind, r.value)
    {
      hide Lawful, Marker, SinceMarker, Contained, Succeeded, Tried, Polls, Approved, Connected, Permitted, Expected;
      var name := manifest.names[kind];
      var began := Ask(BeforeMutation(kind));
      if began.Threw? {
        return Failure("adapter_failed");
      }
      LawKept(old(trace), trace);
      MayCreate(trace, Create(kind, name, OwnershipHash(receipt, kind, name)), manifest);
      var created := Perform(Create(kind, name, OwnershipHash(receipt, kind, name)));
      if !created.Gave? || !Expected(receipt, kind, name, created.ref, patterns) {
        return Failure("resource_invalid");
      }
      r := Success(created.ref);
    }

    /** Record a resource that was made, and write it down. */
    method Keep(kind: Kind, ref: Ref) returns (ok: bool)
      requires Valid() && kind in manifest.names && Expected(receipt, kind, manifest.names[kind], ref, patterns)
      requires Vouched(trace, ref) && (receipt.state.Preparing? || receipt.state.Promoting?)
      modifies this
      ensures Valid() && old(trace) <= trace && Marker(trace) == Marker(old(trace)) && Vouched(trace, ref)
      ensures receipt == Record(old(receipt), kind, ref)
      ensures WritesValid(old(trace), patterns) && ValidReceipt(old(receipt), patterns) && patterns.safe(manifest.names[kind]) ==>
                WritesValid(trace, patterns) && ValidReceipt(receipt, patterns)
    {
      hide Lawful, Marker, SinceMarker, Contained, Succeeded, Tried, Polls;
      hide ValidReceipt, WritesValid, Vouched, Approved, Connected;
      if ValidReceipt(receipt, patterns) {
        RecordValid(receipt, kind, manifest.names[kind], ref, patterns);
      }
      receipt := Record(receipt, kind, ref);
      var ended := Ask(AfterMutation(kind));
      GrowthKeeps(old(trace), trace);
      VouchedKept(old(trace), trace);
      if ended.Threw? {
        return false;
      }
      ghost var reported := trace;
      ok := Write(receipt);
      VouchedKept(reported, trace);
    }

    /** One resource is created, checked and recorded, or nothing is recorded. */
    method Mutate(kind: Kind) returns (r: Result<Ref, Code>)
      requires Valid() && Ready(trace, kind) && kind in manifest.names
      requires receipt.state.Preparing? || receipt.state.Promoting?
      modifies this
      ensures Valid() && old(trace) <= trace && Marker(trace) == Marker(old(trace))
      ensures receipt == old(receipt)
              || exists ref :: Expected(old(receipt), kind, manifest.names[kind], ref, patterns)
                               && receipt == Record(old(receipt), kind, ref) && Vouched(trace, ref)
      ensures r.Success? ==> receipt == Record(old(receipt), kind, r.value)
                             && Expected(old(receipt), kind, manifest.names[kind], r.value, patterns) && Vouched(trace, r.value)
      ensures r.Success? && kind.Connector? ==> exists i | |old(trace)| <= i < |trace| :: ConnectorStarted(trace[i])
      ensures WritesValid(old(trace), patterns) && ValidReceipt(old(receipt), patterns) && patterns.safe(manifest.names[kind]) ==>
                WritesValid(trace, patterns) && ValidReceipt(receipt, patterns)
    {
      hide Lawful, Marker, SinceMarker, Contained, Succeeded, Tried, Polls;
      hide ValidReceipt, WritesValid, Vouched, Approved, Connected;
      hide Expected, Record, ConnectorStarted;
      r := Make(kind);
      GrowthKeeps(old(trace), trace);
      if r.Failure? {
        return;
      }
      CreatedVouches(trace, |trace| - 1, kind, r.value);
      var ok := Keep(kind, r.value);
      if !ok {
        r := Failure("adapter_failed");
      }
    }

    // ------------------------------------------------------------- prepare

    /** Exactly these kinds are recorded, each accounted for. */
    ghost predicate Accounts(kinds: set<Kind>)
      reads this
    {
      receipt.resources.Keys == kinds && forall kind | kind in kinds :: Accounted(trace, receipt, kind, manifest)
    }

    /** The receipts written so far are valid and so is the one in hand, if the names allow it. */
    ghost predicate DraftClean()
      reads this
    {
      SafeNames() && patterns.safe(receipt.transaction) ==> WritesValid(trace, patterns) && ValidReceipt(receipt, patterns)
    }

    constructor (manifest: Manifest, patterns: Patterns, adapter: nat -> Reply, receipt: Receipt)
      ensures Valid() && trace == [] && this.receipt == receipt
      ensures this.manifest == manifest && this.patterns == patterns && this.adapter == adapter
    {
      this.manifest, this.patterns, this.adapter, this.receipt, this.trace := manifest, patterns, adapter, receipt, [];
    }

    /** Everything that was recorded has been released again. */
    ghost predicate LeftNothing()
      reads this
    {
      receipt.resources == map[] || (RollingResources(trace) == receipt.resources && AllReleased(trace))
    }

    method Step(kind: Kind, ghost done: set<Kind>) returns (ok: bool)
      requires Valid() && DraftClean() && Accounts(done) && receipt.state.Preparing?
      requires kind !in done && Ready(trace, kind) && kind in manifest.names
      modifies this
      ensures Valid()
      ensures DraftClean() && old(trace) <= trace && receipt.state.Preparing? && receipt.transaction == old(receipt.transaction)
      ensures ok ==> Accounts(done + {kind})
    {
      ghost var was, before := trace, receipt;
      hide Lawful, WritesValid, ValidReceipt, Marker, Expected, Vouched;
      var r := Mutate(kind);
      ok := r.Success?;
      if ok {
        AccountKept(was, before, trace, kind, r.value, done);
      }
    }

    lemma AccountKept(was: seq<Entry>, before: Receipt, t: seq<Entry>, kind: Kind, ref: Ref, done: set<Kind>)
      requires was <= t && kind !in done && kind in manifest.names && Vouched(t, ref)
      requires before.resources.Keys == done && forall k | k in done :: Accounted(was, before, k, manifest)
      requires Expected(before, kind, manifest.names[kind], ref, patterns)
      ensures Record(before, kind, ref).resources.Keys == done + {kind}
      ensures forall k | k in done + {kind} :: Accounted(t, Record(before, kind, ref), k, manifest)
    {
      VouchedKept(was, t);
      hide Vouched;
    }

    /** A question to the adapter between two steps. */
    method Check(call: Call, ghost done: set<Kind>) returns (yes: bool)
      requires Valid() && DraftClean() && Accounts(done) && Free(call)
      modifies `trace
      ensures Valid() && DraftClean() && Accounts(done) && old(trace) <= trace && (yes ==> Entry(call, Yes) in trace)
    {
      hide Lawful, WritesValid, ValidReceipt, Vouched, Succeeded, Tried, SinceMarker, Contained;
      var reply := Ask(call);
      assert trace[|old(trace)|] == Entry(call, reply);
      GrowthKeeps(old(trace), trace);
      VouchedKept(old(trace), trace);
      yes := reply.Yes?;
    }

    method BuildAccess() returns (ok: bool)
      requires Valid() && DraftClean() && Accounts({}) && receipt.state.Preparing?
      requires forall kind: Kind :: kind in manifest.names
      modifies this
      ensures Valid() && DraftClean() && receipt.state.Preparing? && receipt.transaction == old(receipt.transaction)
      ensures ok ==> Accounts({} + {RemoteKey} + {ServiceToken} + {AccessApplication} + {AccessPolicy}) && Ready(trace, Tunnel)
    {
      hide Valid, DraftClean, Accounts;
      ok := Step(RemoteKey, {});
      if !ok {
        return;
      }
      ok := Step(ServiceToken, {} + {RemoteKey});
      if !ok {
        return;
      }
      ok := Step(AccessApplication, {} + {RemoteKey} + {ServiceToken});
      if !ok {
        return;
      }
      ok := Step(AccessPolicy, {} + {RemoteKey} + {ServiceToken} + {AccessApplication});
      if !ok {
        return;
      }
      ok := Check(VerifyAccess, {} + {RemoteKey} + {ServiceToken} + {AccessApplication} + {AccessPolicy});
    }

    method BuildTunnel(ghost done: set<Kind>) returns (ok: bool)
      requires Valid() && DraftClean() && Accounts(done) && receipt.state.Preparing?
      requires forall kind: Kind :: kind in manifest.names
      requires done !! {Tunnel, TunnelConfiguration, ConnectorTokenFile} && Ready(trace, Tunnel)
      modifies this
      ensures Valid() && DraftClean() && receipt.state.Preparing? && receipt.transaction == old(receipt.transaction)
      ensures ok ==> Accounts(done + {Tunnel} + {TunnelConfiguration} + {ConnectorTokenFile})
    {
      hide Valid, DraftClean, Accounts;
      ok := Step(Tunnel, done);
      if !ok {
        return;
      }
      ok := Step(TunnelConfiguration, done + {Tunnel});
      if !ok {
        return;
      }
      ok := Check(VerifyConfiguration, done + {Tunnel} + {TunnelConfiguration});
      if !ok {
        return;
      }
      ok := Step(ConnectorTokenFile, done + {Tunnel} + {TunnelConfiguration});
    }

    /** The seven private resources, with the two checks in between. */
    method Build() returns (ok: bool)
      requires Valid() && DraftClean() && Accounts({}) && receipt.state.Preparing?
      requires forall kind: Kind :: kind in manifest.names
      modifies this
      ensures Valid() && DraftClean() && receipt.state.Preparing? && receipt.transaction == old(receipt.transaction)
      ensures ok ==> Accounts(set kind | kind in SEVEN)
    {
      hide Valid, DraftClean, Accounts;
      ok := BuildAccess();
      if !ok {
        return;
      }
      ghost var done: set<Kind> := {} + {RemoteKey} + {ServiceToken} + {AccessApplication} + {AccessPolicy};
      ok := BuildTunnel(done);
      assert done + {Tunnel} + {TunnelConfiguration} + {ConnectorTokenFile} == set kind | kind in SEVEN;
    }

    lemma NewIsClean(transaction: string)
      ensures WritesValid([], patterns)
      ensures SafeNames() && patterns.safe(transaction) ==> ValidReceipt(NewReceipt(manifest, transaction), patterns)
    {
    }

    /** `prepareCloudflarePromotion`; `preflight` is the first preflight check to fail, if one does. */
    method Prepare(transaction: string, preflight: Option<Code>) returns (result: Result<Receipt, Code>)
      requires trace == [] && forall kind: Kind :: kind in manifest.names
      modifies this
      ensures Valid()
      ensures result.Success? ==>
                && result.value.state.Prepared? && result.value.resources.Keys == (set kind | kind in SEVEN)
                && forall kind | kind in SEVEN :: Accounted(trace, result.value, kind, manifest)
      ensures preflight.None? && result == Failure("prepare_failed") ==> LeftNothing()
      ensures SafeNames() && patterns.safe(transaction) ==> WritesValid(trace, patterns)
      ensures preflight.Some? ==> result == Failure(preflight.value) && trace == []
    {
      if preflight.Some? {
        return Failure(preflight.value);
      }
      receipt := NewReceipt(manifest, transaction);
      hide Lawful, WritesValid, ValidReceipt, SafeNames;
      NewIsClean(transaction);
      var ok := OpenJournal();
      if !ok {
        return Failure("adapter_failed");
      }
      result := BuildAndSeal();
    }

    method OpenJournal() returns (ok: bool)
      requires Valid() && DraftClean() && Accounts({}) && receipt.state.Preparing?
      modifies `trace
      ensures Valid() && DraftClean() && (ok ==> Accounts({}))
    {
      hide Lawful, WritesValid, ValidReceipt, SafeNames, Succeeded, Tried, SinceMarker, Contained, Marker;
      var plane := Ask(OpenControlPlane);
      GrowthKeeps(old(trace), trace);
      if plane.Threw? {
        return false;
      }
      ghost var before := trace;
      var began := Ask(BeginJournal);
      GrowthKeeps(before, trace);
      if began.Threw? {
        return false;
      }
      ok := RecordNew();
    }

    method RecordNew() returns (ok: bool)
      requires Valid() && DraftClean() && Accounts({}) && receipt.state.Preparing?
      modifies `trace
      ensures Valid() && DraftClean() && Accounts({})
    {
      hide Lawful, WritesValid, ValidReceipt, SafeNames, Marker;
      ok := Write(receipt);
    }

    lemma SealedAccounts(was: seq<Entry>, r: Receipt, t: seq<Entry>, state: State)
      requires was <= t
      ensures forall kind | Accounted(was, r, kind, manifest) :: Accounted(t, Update(r, state), kind, manifest)
    {
      VouchedKept(was, t);
      hide Vouched;
    }

    /** The guarded part: what goes wrong here is rolled back. */
    method BuildAndSeal() returns (result: Result<Receipt, Code>)
      requires Valid() && DraftClean() && Accounts({}) && receipt.state.Preparing?
      requires forall kind: Kind :: kind in manifest.names
      modifies this
      ensures Valid() && receipt.transaction == old(receipt.transaction)
      ensures result.Success? ==>
                && result.value.state.Prepared? && result.value.resources.Keys == (set kind | kind in SEVEN)
                && forall kind | kind in SEVEN :: Accounted(trace, result.value, kind, manifest)
      ensures result == Failure("prepare_failed") ==> LeftNothing()
      ensures SafeNames() && patterns.safe(old(receipt.transaction)) ==> WritesValid(trace, patterns)
    {
      hide Lawful, WritesValid, ValidReceipt, Vouched, Marker, AllReleased;
      hide BothTried, SinceMarker, SafeNames, RollingResources;
      var ok := Build();
      if ok {
        var prepared := Update(receipt, Prepared);
        if ValidReceipt(receipt, patterns) {
          UpdateValid(receipt, Prepared, patterns);
        }
        ghost var built := trace;
        ok := Write(prepared);
        SealedAccounts(built, receipt, trace, Prepared);
        if ok {
          return Success(prepared);
        }
      }
      if receipt.resources != map[] {
        var undone := Rollback(receipt);
        if undone.Failure? {
          return Failure("prepare_failed_and_rollback_failed");
        }
      }
      result := Failure("prepare_failed");
    }

    // ------------------------------------------------------------- promote

    /** The checks on the prepared receipt; those on the approval itself are in `approved`. */
    predicate Promotable(prepared: Receipt, approved: bool) {
      ValidReceipt(prepared, patterns) && prepared.state.Prepared? && prepared.header.manifest == manifest.header.manifest
      && approved
    }

    /** `promoteCloudflarePromotion`. */
    method Promote(prepared: Receipt, approvalId: string, approved: bool) returns (result: Result<Receipt, Code>)
      requires trace == [] && forall kind: Kind :: kind in manifest.names
      modifies this
      ensures Valid()
      ensures !Promotable(prepared, approved) ==> result.Failure? && trace == []
      ensures result.Success? ==>
                && result.value.state.Promoted? && Connector in result.value.resources && Dns in result.value.resources
                && Approved(trace) && Connected(trace) && CanariesMet(trace, manifest)
      ensures result == Failure("promotion_failed") ==> LeftNothing()
      ensures SafeNames() ==> WritesValid(trace, patterns)
    {
      if !Promotable(prepared, approved) {
        return Failure("promotion_receipt_invalid");
      }
      hide Lawful, WritesValid, ValidReceipt, SafeNames, Connected, CanariesMet;
      NewIsClean("");
      var consumed := Consume();
      if !consumed {
        return Failure("approval_not_durably_consumed");
      }
      var ok := Enlist(prepared, approvalId);
      if !ok {
        return Failure("adapter_failed");
      }
      if Tunnel !in receipt.resources {
        return Failure("prepared_tunnel_missing");
      }
      result := Expose(approvalId);
    }

    method Consume() returns (ok: bool)
      requires Valid() && WritesValid(trace, patterns)
      modifies `trace
      ensures Valid() && WritesValid(trace, patterns) && (ok ==> Approved(trace))
    {
      hide Lawful, WritesValid, Marker, SinceMarker, Succeeded, Tried, Contained;
      var reply := Ask(ConsumeApproval);
      GrowthKeeps(old(trace), trace);
      ok := reply.Yes?;
      assert trace[|old(trace)|] == Entry(ConsumeApproval, reply);
    }

    /** The receipt that says promoting. */
    method Enlist(prepared: Receipt, approvalId: string) returns (ok: bool)
      requires Valid() && WritesValid(trace, patterns) && Approved(trace)
      requires ValidReceipt(prepared, patterns) && prepared.state.Prepared?
      modifies this
      ensures Valid() && WritesValid(trace, patterns) && ReceiptsClean() && Approved(trace) && receipt.state.Promoting?
    {
      hide Lawful, WritesValid, ValidReceipt, Marker, SafeNames;
      UpdateValid(prepared, Promoting, patterns);
      ApprovalIdValid(Update(prepared, Promoting), approvalId, patterns);
      receipt := Update(prepared, Promoting).(approvalId := Some(approvalId));
      ok := Write(receipt);
      LawKept(old(trace), trace);
    }

    /** The connector, then the public name, then the canaries. */
    method OpenWays() returns (ok: bool)
      requires Valid() && ReceiptsClean() && Approved(trace) && receipt.state.Promoting?
      requires forall kind: Kind :: kind in manifest.names
      modifies this
      ensures Valid() && ReceiptsClean() && Approved(trace) && receipt.state.Promoting?
      ensures ok ==> Connected(trace) && CanariesMet(trace, manifest) && Connector in receipt.resources && Dns in receipt.resources
    {
      hide ReceiptsClean, Lawful, Connected, CanariesMet;
      ok := Connect();
      if !ok {
        return;
      }
      ok := Publish();
      if !ok {
        return;
      }
      ok := RunContract();
    }

    /** What `DraftClean` says of a promotion, whose receipt brings its own transaction. */
    ghost predicate ReceiptsClean()
      reads this
    {
      SafeNames() ==> WritesValid(trace, patterns) && ValidReceipt(receipt, patterns)
    }

    method Connect() returns (ok: bool)
      requires Valid() && ReceiptsClean() && Approved(trace) && receipt.state.Promoting? && Connector in manifest.names
      modifies this
      ensures Valid() && ReceiptsClean() && Approved(trace) && receipt.state.Promoting?
      ensures ok ==> Connected(trace) && Connector in receipt.resources
    {
      hide Lawful, WritesValid, ValidReceipt, Vouched, Expected, Marker;
      hide SinceMarker, Succeeded, Tried, ConnectorStarted;
      var started := Mutate(Connector);
      LawKept(old(trace), trace);
      if started.Failure? {
        return false;
      }
      ghost var before := trace;
      var waited := Ask(WaitForConnector);
      GrowthKeeps(before, trace);
      LawKept(before, trace);
      ok := waited.Yes?;
      if ok {
        ghost var i :| |old(trace)| <= i < |before| && ConnectorStarted(before[i]);
        assert ConnectorStarted(trace[i]) && trace[|before|] == Entry(WaitForConnector, Yes);
      }
    }

    method Publish() returns (ok: bool)
      requires Valid()
      requires ReceiptsClean() && Approved(trace) && Connected(trace) && receipt.state.Promoting? && Dns in manifest.names
      requires Connector in receipt.resources
      modifies this
      ensures Valid() && ReceiptsClean() && Approved(trace) && Connected(trace) && receipt.state.Promoting?
      ensures Connector in receipt.resources && (ok ==> Dns in receipt.resources)
    {
      hide Lawful, WritesValid, ValidReceipt, Vouched, Expected, Marker, SinceMarker, Succeeded, Tried, Connected;
      var published := Mutate(Dns);
      LawKept(old(trace), trace);
      ok := published.Success?;
    }

    method RunContract() returns (ok: bool)
      requires Valid() && ReceiptsClean() && Approved(trace) && Connected(trace)
      modifies `trace
      ensures Valid() && ReceiptsClean() && Approved(trace) && Connected(trace)
      ensures ok ==> CanariesMet(trace, manifest)
    {
      hide Lawful, WritesValid, ValidReceipt, Vouched, Marker, SinceMarker, Succeeded, Tried, Connected, AllMeet;
      var reply := Ask(RunCanaries);
      GrowthKeeps(old(trace), trace);
      LawKept(old(trace), trace);
      if !reply.Observed? {
        return false;
      }
      ok := ValidateCanaries(manifest, reply.canaries);
      assert trace[|old(trace)|] == Entry(RunCanaries, reply);
    }

    /** The guarded part: what goes wrong here is rolled back. */
    method Expose(approvalId: string) returns (result: Result<Receipt, Code>)
      requires Valid() && ReceiptsClean() && Approved(trace) && receipt.state.Promoting?
      requires forall kind: Kind :: kind in manifest.names
      modifies this
      ensures Valid()
      ensures result.Success? ==>
                && result.value.state.Promoted? && Connector in result.value.resources && Dns in result.value.resources
                && Approved(trace) && Connected(trace) && CanariesMet(trace, manifest)
      ensures result == Failure("promotion_failed") ==> LeftNothing()
      ensures SafeNames() ==> WritesValid(trace, patterns)
    {
      hide Lawful, WritesValid, ValidReceipt, Vouched, Marker, AllReleased;
      hide BothTried, SinceMarker, SafeNames, RollingResources;
      hide Connected, CanariesMet;
      var ok := OpenWays();
      if ok {
        ok := Announced(approvalId);
        if ok {
          return Success(receipt);
        }
      }
      result := Withdraw();
    }

    /** The receipt that says promoted. */
    method Announced(approvalId: string) returns (ok: bool)
      requires Valid() && ReceiptsClean() && Approved(trace) && Connected(trace) && CanariesMet(trace, manifest)
      requires receipt.state.Promoting?
      modifies this
      ensures Valid() && ReceiptsClean() && Approved(trace) && Connected(trace) && CanariesMet(trace, manifest)
      ensures receipt.state.Promoted? && receipt.resources == old(receipt.resources)
    {
      hide Lawful, WritesValid, ValidReceipt, Vouched, Marker, SafeNames, Connected, CanariesMet;
      if ValidReceipt(receipt, patterns) {
        UpdateValid(receipt, Promoted, patterns);
        ApprovalIdValid(Update(receipt, Promoted), approvalId, patterns);
      }
      receipt := Update(receipt, Promoted).(approvalId := Some(approvalId));
      ok := Write(receipt);
      LawKept(old(trace), trace);
    }

    method Withdraw() returns (result: Result<Receipt, Code>)
      requires Valid() && ReceiptsClean() && (receipt.state.Promoting? || receipt.state.Promoted?)
      modifies `trace
      ensures Valid() && result.Failure? && (SafeNames() ==> WritesValid(trace, patterns))
      ensures result == Failure("promotion_failed") ==> LeftNothing()
    {
      hide Lawful, WritesValid, ValidReceipt, Vouched, Marker, AllReleased;
      hide BothTried, SinceMarker, SafeNames, RollingResources;
      var undone := Rollback(receipt);
      result := Failure(if undone.Failure? then "promotion_failed_and_rollback_failed" else "promotion_failed");
    }

    // ------------------------------------------------------------- recover

    /** One of the seven: inspected if it is recorded, looked for if it is not. */
    method Settle(kind: Kind) returns (failure: Option<Code>)
      requires Valid() && ReceiptsClean() && kind in manifest.names && (receipt.state.Preparing? || receipt.state.Prepared?)
      modifies this
      ensures Valid() && ReceiptsClean() && old(trace) <= trace && receipt.state == old(receipt.state)
      ensures SameOwner(old(receipt), receipt)
      ensures receipt.resources == old(receipt.resources)
              || (kind !in old(receipt.resources) && kind in receipt.resources
                  && receipt.resources == old(receipt.resources)[kind := receipt.resources[kind]])
      ensures failure.None? && kind in receipt.resources ==> Accounted(trace, receipt, kind, manifest)
      ensures failure.None? ==> Named(old(receipt), kind, manifest)
      ensures Settled(old(trace), old(receipt), kind)
      ensures failure.Some? ==> !Confirmed(old(trace), old(receipt), kind)
    {
      hide Lawful, WritesValid, ValidReceipt, SafeNames, Marker, SinceMarker, Succeeded, Tried, Contained, Vouched;
      hide Accounted;
      if kind in receipt.resources {
        failure := Reinspect(kind);
      } else {
        failure := Discover(kind);
      }
    }

    /** The recorded resource is what it should be, and the adapter says so. */
    ghost predicate Confirmed(was: seq<Entry>, r: Receipt, kind: Kind)
    {
      && kind in r.resources && kind in manifest.names && r.resources[kind].kind == kind
      && r.resources[kind].name == manifest.names[kind]
      && r.resources[kind].owner == OwnershipHash(r, kind, manifest.names[kind])
      && adapter(|was|) == Gave(r.resources[kind])
    }

    /** The adapter finds what is missing. */
    ghost predicate Findable(was: seq<Entry>, r: Receipt, kind: Kind)
    {
      && kind !in r.resources && kind in manifest.names && adapter(|was|).Gave?
      && Expected(r, kind, manifest.names[kind], adapter(|was|).ref, patterns)
    }

    /** What one of the seven adds to the trace: a question, and a receipt exactly when something is found. */
    ghost predicate Settled(was: seq<Entry>, r: Receipt, kind: Kind)
      reads this
    {
      && was <= trace
      && (if Findable(was, r, kind) then
            && |trace| == |was| + 2 && !trace[|was|].call.WriteReceipt?
            && trace[|was| + 1].call == WriteReceipt(Record(r, kind, adapter(|was|).ref))
            && receipt == Record(r, kind, adapter(|was|).ref)
          else
            && |trace| <= |was| + 1 && receipt == r
            && forall i | |was| <= i < |trace| :: !trace[i].call.WriteReceipt?)
      && (Confirmed(was, r, kind) ==> |trace| == |was| + 1)
    }

    method Reinspect(kind: Kind) returns (failure: Option<Code>)
      requires Valid() && ReceiptsClean() && kind in manifest.names && kind in receipt.resources
      modifies `trace
      ensures Valid() && ReceiptsClean() && old(trace) <= trace
      ensures failure.None? ==> Accounted(trace, receipt, kind, manifest)
      ensures Settled(old(trace), receipt, kind)
      ensures failure.None? <==> Confirmed(old(trace), receipt, kind)
    {
      var name := manifest.names[kind];
      hide Valid, SafeNames, Marker, SinceMarker, Succeeded, Tried, Contained, Vouched, Polls, Permitted;
      hide Accounted, Findable, ReceiptsClean;
      var recorded := receipt.resources[kind];
      if recorded.kind != kind || recorded.name != name || recorded.owner != OwnershipHash(receipt, kind, name) {
        return Some("recovery_resource_drift");
      }
      var reply := Ask(Inspect(recorded));
      AskedCleanly();
      hide Grows;
      if reply != Gave(recorded) {
        return Some("recovery_resource_drift");
      }
      AnswerVouches(trace, |old(trace)|, recorded);
      ConfirmedAccounts(old(trace), kind);
      failure := None;
    }

    /** A question writes no receipt. */
    twostate lemma AskedCleanly()
      requires old(ReceiptsClean()) && unchanged(`receipt) && Grows(old(trace), trace)
      ensures ReceiptsClean()
    {
      GrowthKeeps(old(trace), trace);
    }

    lemma ConfirmedAccounts(was: seq<Entry>, kind: Kind)
      requires Confirmed(was, receipt, kind) && Vouched(trace, receipt.resources[kind])
      ensures Accounted(trace, receipt, kind, manifest)
    {
      hide Vouched;
    }

    method Discover(kind: Kind) returns (failure: Option<Code>)
      requires Valid() && ReceiptsClean() && kind in manifest.names && (receipt.state.Preparing? || receipt.state.Prepared?)
      requires kind !in receipt.resources
      modifies this
      ensures Valid() && ReceiptsClean() && old(trace) <= trace
      ensures failure.None? && kind in receipt.resources ==> Accounted(trace, receipt, kind, manifest)
      ensures Settled(old(trace), old(receipt), kind)
    {
      hide Valid, SafeNames, Marker, SinceMarker, Succeeded, Tried, Contained, Vouched, Polls, Permitted;
      hide ReceiptsClean, Expected, Settled, Accounted;
      var reply := Ask(DiscoverResource(kind, manifest.names[kind]));
      AskedCleanly();
      hide Grows;
      if !reply.Gave? || !Expected(receipt, kind, manifest.names[kind], reply.ref, patterns) {
        UnfoundSettles(old(trace), kind);
        return if reply.Threw? then Some("adapter_failed")
               else if !reply.Gave? then None
               else Some("recovery_discovered_resource_invalid");
      }
      AnswerVouches(trace, |old(trace)|, reply.ref);
      ghost var asked := trace;
      failure := Adopt(kind, reply.ref);
      FoundSettles(old(trace), asked, old(receipt), kind);
    }

    lemma UnfoundSettles(was: seq<Entry>, kind: Kind)
      requires was <= trace && |trace| == |was| + 1 && !trace[|was|].call.WriteReceipt?
      requires kind !in receipt.resources && !Findable(was, receipt, kind)
      ensures Settled(was, receipt, kind)
    {
    }

    lemma FoundSettles(was: seq<Entry>, asked: seq<Entry>, before: Receipt, kind: Kind)
      requires was <= asked <= trace && |asked| == |was| + 1 && |trace| == |was| + 2
      requires !asked[|was|].call.WriteReceipt? && trace[|was| + 1].call == WriteReceipt(receipt)
      requires Findable(was, before, kind) && receipt == Record(before, kind, adapter(|was|).ref)
      requires Vouched(trace, adapter(|was|).ref)
      ensures Settled(was, before, kind) && Accounted(trace, receipt, kind, manifest)
    {
      hide Vouched;
    }

    method Adopt(kind: Kind, ref: Ref) returns (failure: Option<Code>)
      requires Valid() && ReceiptsClean() && kind in manifest.names && (receipt.state.Preparing? || receipt.state.Prepared?)
      requires Expected(receipt, kind, manifest.names[kind], ref, patterns) && Vouched(trace, ref)
      modifies this
      ensures Valid()
      ensures ReceiptsClean() && old(trace) <= trace && Vouched(trace, ref) && receipt == Record(old(receipt), kind, ref)
      ensures |trace| == |old(trace)| + 1 && trace[|old(trace)|].call == WriteReceipt(receipt)
    {
      hide Lawful, WritesValid, ValidReceipt, Marker, Vouched;
      if ValidReceipt(receipt, patterns) {
        RecordValid(receipt, kind, manifest.names[kind], ref, patterns);
      }
      receipt := Record(receipt, kind, ref);
      var ok := Write(receipt);
      VouchedKept(old(trace), trace);
      failure := if ok then None else Some("adapter_failed");
    }

    /** Adapter answers that lead recovery from this journal to its first missing resource, and find that one. */
    ghost predicate Provokes(j: Receipt, i: nat)
    {
      && FirstMissing(j, manifest, i) && (forall k | 0 <= k < i :: adapter(k + 1) == Gave(j.resources[SEVEN[k]]))
      && SEVEN[i] in manifest.names && adapter(i + 1).Gave?
      && Expected(j, SEVEN[i], manifest.names[SEVEN[i]], adapter(i + 1).ref, patterns)
    }

    /** How partial receipts stand after `i` of the seven, for the journal `j` and its `first` missing resource. */
    ghost predicate Halfway(j: Receipt, first: nat, t: seq<Entry>, r: Receipt, i: nat)
      requires i <= |SEVEN|
    {
      && Follows(j, r) && (forall k | 0 <= k < i :: Named(j, SEVEN[k], manifest))
      && (WritesPartial(t) ==> Exposed(j, manifest, patterns))
      && (Provokes(j, first) && Exposed(j, manifest, patterns) ==>
            if i <= first then |t| == i + 1 && r == j else WritesPartial(t))
    }

    /** The loop over the seven. */
    method SettleAll(ghost first: nat) returns (failure: Option<Code>)
      requires Valid() && ReceiptsClean() && Loadable(receipt, manifest, patterns)
      requires |trace| == 1 && !WritesPartial(trace)
      requires forall kind: Kind :: kind in manifest.names
      modifies this
      ensures Valid() && ReceiptsClean() && receipt.state == old(receipt.state) && old(trace) <= trace
      ensures failure.None? ==>
                forall kind | kind in SEVEN && kind in receipt.resources :: Accounted(trace, receipt, kind, manifest)
      ensures WritesPartial(trace) ==> Exposed(old(receipt), manifest, patterns)
      ensures Provokes(old(receipt), first) && Exposed(old(receipt), manifest, patterns) ==> WritesPartial(trace)
    {
      ghost var j := receipt;
      assert Provokes(j, first) ==> first < |SEVEN|;
      assert j.state.Preparing? || j.state.Prepared?;
      assert Halfway(j, first, trace, receipt, 0);
      hide Valid, ReceiptsClean, Accounted, Settled, Named, WritesPartial, Provokes, Exposed, Loadable, Halfway;
      hide Confirmed, SameOwner, AccountedUpTo;
      for i := 0 to |SEVEN|
        invariant Valid() && ReceiptsClean() && receipt.state == j.state && old(trace) <= trace
        invariant AccountedUpTo(trace, receipt, i) && Halfway(j, first, trace, receipt, i)
      {
        ghost var was, before := trace, receipt;
        failure := Settle(SEVEN[i]);
        HalfwayStep(was, before, j, first, i);
        if failure.Some? {
          return;
        }
        AccountedStep(was, before, i);
      }
      HalfwayEnds(j, first);
      failure := None;
    }

    /** Each of the first `i` that is recorded is accounted for. */
    ghost predicate AccountedUpTo(t: seq<Entry>, r: Receipt, i: nat)
      requires i <= |SEVEN|
    {
      forall k | 0 <= k < i :: SEVEN[k] in r.resources ==> Accounted(t, r, SEVEN[k], manifest)
    }

    lemma AccountedStep(was: seq<Entry>, before: Receipt, i: nat)
      requires i < |SEVEN| && was <= trace && AccountedUpTo(was, before, i) && SameOwner(before, receipt)
      requires receipt.resources == before.resources
               || (SEVEN[i] in receipt.resources
                   && receipt.resources == before.resources[SEVEN[i] := receipt.resources[SEVEN[i]]])
      requires SEVEN[i] in receipt.resources ==> Accounted(trace, receipt, SEVEN[i], manifest)
      ensures AccountedUpTo(trace, receipt, i + 1)
    {
      hide Accounted, SameOwner;
      forall k | 0 <= k < i && SEVEN[k] in receipt.resources ensures Accounted(trace, receipt, SEVEN[k], manifest) {
        assert SEVEN[k] != SEVEN[i];
        AccountedKept(was, before, trace, receipt, SEVEN[k], SEVEN[i]);
      }
    }

    lemma HalfwayEnds(j: Receipt, first: nat)
      requires AccountedUpTo(trace, receipt, |SEVEN|)
      requires Halfway(j, first, trace, receipt, |SEVEN|) && (Provokes(j, first) ==> first < |SEVEN|)
      ensures forall kind | kind in SEVEN && kind in receipt.resources :: Accounted(trace, receipt, kind, manifest)
      ensures WritesPartial(trace) ==> Exposed(j, manifest, patterns)
      ensures Provokes(j, first) && Exposed(j, manifest, patterns) ==> WritesPartial(trace)
    {
      hide Provokes, Exposed, WritesPartial, Named, Follows, Accounted;
    }

    lemma HalfwayStep(was: seq<Entry>, before: Receipt, j: Receipt, first: nat, i: nat)
      requires i < |SEVEN| && Settled(was, before, SEVEN[i]) && Halfway(j, first, was, before, i)
      requires Loadable(j, manifest, patterns) && forall kind: Kind :: kind in manifest.names
      ensures WritesPartial(trace) ==> Exposed(j, manifest, patterns)
      ensures Named(before, SEVEN[i], manifest) ==> Halfway(j, first, trace, receipt, i + 1)
      ensures !Confirmed(was, before, SEVEN[i]) && Provokes(j, first) && Exposed(j, manifest, patterns) ==> WritesPartial(trace)
    {
      hide Settled, Named, WritesPartial, Provokes, Exposed, Loadable, Confirmed, Follows;
      PartialStep(was, before, j, i);
      FollowedName(before, j, SEVEN[i]);
      if Provokes(j, first) && Exposed(j, manifest, patterns) {
        if i <= first {
          ProvokedStep(was, j, i, first);
        } else {
          PartialKept(was, trace);
        }
      }
    }

    /** Only a journal that is exposed leads to a partial receipt. */
    lemma PartialStep(was: seq<Entry>, before: Receipt, j: Receipt, i: nat)
      requires i < |SEVEN| && Settled(was, before, SEVEN[i]) && Follows(j, before)
      requires Loadable(j, manifest, patterns) && forall k | 0 <= k < i :: Named(j, SEVEN[k], manifest)
      requires WritesPartial(was) ==> Exposed(j, manifest, patterns)
      ensures was <= trace && Follows(j, receipt)
      ensures WritesPartial(trace) ==> Exposed(j, manifest, patterns)
    {
      hide Named, Loadable, Exposed, Expected, Confirmed, Complete;
      if WritesPartial(trace) {
        var at :| 0 <= at < |trace| && Partial(trace[at].call);
        if at < |was| {
          assert Partial(was[at].call);
        } else {
          hide WritesPartial;
          StillMissing(before, j, i, adapter(|was|).ref);
        }
      }
    }

    /** A receipt that lacks one of the seven after another was just recorded: the journal lacked both. */
    lemma StillMissing(before: Receipt, j: Receipt, i: nat, ref: Ref)
      requires i < |SEVEN| && Follows(j, before) && SEVEN[i] !in before.resources
      requires before.state.Prepared? && !Complete(Record(before, SEVEN[i], ref))
      requires Loadable(j, manifest, patterns) && forall k | 0 <= k < i :: Named(j, SEVEN[k], manifest)
      ensures Exposed(j, manifest, patterns)
    {
      hide Named, Loadable, Exposed;
      var other :| other in SEVEN && other !in Record(before, SEVEN[i], ref).resources;
      var l :| 0 <= l < |SEVEN| && SEVEN[l] == other;
      ExposedBy(j, manifest, patterns, i, l);
    }

    /** Answers that provoke it do lead there, step by step. */
    lemma ProvokedStep(was: seq<Entry>, j: Receipt, i: nat, first: nat)
      requires Provokes(j, first) && Exposed(j, manifest, patterns) && i <= first
      requires i < |SEVEN| && |was| == i + 1 && Settled(was, j, SEVEN[i])
      requires forall kind: Kind :: kind in manifest.names
      ensures i < first ==> |trace| == i + 2 && receipt == j && Confirmed(was, j, SEVEN[i])
      ensures i == first ==> WritesPartial(trace)
    {
      if i < first {
        assert SEVEN[i] in j.resources && Named(j, SEVEN[i], manifest);
        assert ValidRef(j, SEVEN[i], j.resources[SEVEN[i]], patterns);
        assert adapter(i + 1) == Gave(j.resources[SEVEN[i]]);
      } else {
        var f, l :| 0 <= f < l < |SEVEN| && FirstMissing(j, manifest, f) && SEVEN[l] !in j.resources;
        MissingIsUnique(j, manifest, first, f);
        hide ValidReceipt, Expected, FirstMissing;
        assert Findable(was, j, SEVEN[i]);
        assert SEVEN[l] in SEVEN && SEVEN[l] !in trace[|was| + 1].call.receipt.resources;
        assert Partial(trace[|was| + 1].call);
      }
    }

    lemma AccountedKept(was: seq<Entry>, before: Receipt, t: seq<Entry>, r: Receipt, kind: Kind, other: Kind)
      requires was <= t && kind != other && SameOwner(before, r) && kind in r.resources
      requires r.resources == before.resources
               || (other in r.resources && r.resources == before.resources[other := r.resources[other]])
      requires kind in before.resources ==> Accounted(was, before, kind, manifest)
      ensures Accounted(t, r, kind, manifest)
    {
      VouchedKept(was, t);
      hide Vouched;
    }

    /**
     * `recoverCloudflarePromotion`. On the way it may write a receipt that says prepared although a resource
     * is missing: from an exposed journal and no other, and from each of those under some answers.
     */
    method Recover() returns (result: Result<Receipt, Code>)
      requires trace == [] && forall kind: Kind :: kind in manifest.names
      modifies this
      ensures Valid()
      ensures result.Success? ==> result.value.state.Prepared? || result.value.state.RolledBack?
      ensures result.Success? && result.value.state.Prepared? ==>
                forall kind | kind in SEVEN :: Accounted(trace, result.value, kind, manifest)
      ensures result.Success? && result.value.state.RolledBack? ==> AllReleased(trace)
      ensures SafeNames() ==> WritesValid(trace, patterns)
      ensures trace != [] && trace[0] == Entry(DiscoverPrepared, adapter(0))
      ensures WritesPartial(trace) ==> adapter(0).Found? && Exposed(adapter(0).receipt, manifest, patterns)
      ensures (adapter(0).Found? && Exposed(adapter(0).receipt, manifest, patterns)
               && exists first :: Provokes(adapter(0).receipt, first)) ==> WritesPartial(trace)
    {
      assert Valid();
      hide Lawful, WritesValid, ValidReceipt, SafeNames, Marker, Accounted, WritesPartial, Exposed, Provokes, Loadable;
      hide Complete, AllReleased;
      var failure := Load();
      if failure.Some? {
        return Failure(failure.value);
      }
      ghost var first: nat := 0;
      if exists i :: Provokes(receipt, i) {
        first :| Provokes(receipt, first);
      }
      failure := SettleAll(first);
      if failure.Some? {
        return Failure(failure.value);
      }
      if Complete(receipt) {
        result := SealPrepared();
      } else {
        ghost var settled := trace;
        result := GiveUp();
        QuietKeeps(settled, trace);
      }
    }

    /** The journal's receipt, if it is one to recover from. */
    method Load() returns (failure: Option<Code>)
      requires Valid() && trace == []
      modifies this
      ensures Valid() && WritesValid(trace, patterns)
      ensures trace == [Entry(DiscoverPrepared, adapter(0))] && !WritesPartial(trace)
      ensures failure.None? <==> adapter(0).Found? && Loadable(adapter(0).receipt, manifest, patterns)
      ensures failure.None? ==> ReceiptsClean() && receipt == adapter(0).receipt
    {
      hide Lawful, WritesValid, ValidReceipt, SafeNames, Marker, SinceMarker, Succeeded, Tried, Contained;
      NewIsClean("");
      var reply := Ask(DiscoverPrepared);
      GrowthKeeps([], trace);
      if !reply.Found? {
        return Some("adapter_failed");
      }
      var journal := reply.receipt;
      if !ValidReceipt(journal, patterns) || journal.header.manifest != manifest.header.manifest
         || !(journal.state.Preparing? || journal.state.Prepared?)
      {
        return Some("recovery_receipt_invalid");
      }
      if Connector in journal.resources || Dns in journal.resources {
        return Some("recovery_public_resource_unexpected");
      }
      receipt := journal;
      failure := None;
    }

    method SealPrepared() returns (result: Result<Receipt, Code>)
      requires Valid() && ReceiptsClean() && (receipt.state.Preparing? || receipt.state.Prepared?)
      requires Complete(receipt) && forall kind | kind in SEVEN :: Accounted(trace, receipt, kind, manifest)
      modifies `trace
      ensures Valid() && (SafeNames() ==> WritesValid(trace, patterns)) && old(trace) <= trace
      ensures WritesPartial(trace) <==> WritesPartial(old(trace))
      ensures result.Success? ==>
                result.value.state.Prepared? && forall kind | kind in SEVEN :: Accounted(trace, result.value, kind, manifest)
    {
      hide Lawful, WritesValid, ValidReceipt, SafeNames, Marker, Accounted;
      if ValidReceipt(receipt, patterns) {
        UpdateValid(receipt, Prepared, patterns);
      }
      var ok := Write(Update(receipt, Prepared));
      CompleteWritten(old(trace), trace);
      SealedAccounts(old(trace), receipt, trace, Prepared);
      result := if ok then Success(Update(receipt, Prepared)) else Failure("adapter_failed");
    }

    /** Not all seven are there: what is there goes. */
    method GiveUp() returns (result: Result<Receipt, Code>)
      requires Valid() && ReceiptsClean() && (receipt.state.Preparing? || receipt.state.Prepared?)
      modifies `trace
      ensures Valid() && (SafeNames() ==> WritesValid(trace, patterns)) && Quiet(old(trace), trace)
      ensures result.Success? ==> result.value.state.RolledBack? && AllReleased(trace)
    {
      hide Lawful, WritesValid, ValidReceipt, SafeNames, Marker, AllReleased, BothTried, SinceMarker, RollingResources;
      if ValidReceipt(receipt, patterns) {
        UpdateValid(receipt, Preparing, patterns);
      }
      var journal := Update(receipt, Preparing);
      var ok := Write(journal);
      if !ok {
        return Failure("adapter_failed");
      }
      result := Rollback(journal);
    }
  }

  /** What the journal recorded is still recorded, in the same state. */
  predicate Follows(j: Receipt, r: Receipt) {
    r.state == j.state && forall kind | kind in j.resources :: kind in r.resources && r.resources[kind] == j.resources[kind]
  }

  lemma FollowedName(r: Receipt, j: Receipt, kind: Kind)
    requires Follows(j, r)
    ensures forall m | Named(r, kind, m) :: Named(j, kind, m)
  {
  }

  lemma CompleteWritten(was: seq<Entry>, t: seq<Entry>)
    requires was <= t && |t| == |was| + 1 && !Partial(t[|was|].call)
    ensures WritesPartial(t) <==> WritesPartial(was)
  {
    if WritesPartial(was) {
      PartialKept(was, t);
    }
  }

  /** The journal as read, then each recorded resource unchanged, then one that was missing. */
  function Answers(j: Receipt, first: nat, ref: Ref): nat -> Reply {
    (n: nat) =>
      if n == 0 then Found(j)
      else if n <= first && n <= |SEVEN| && SEVEN[n - 1] in j.resources then Gave(j.resources[SEVEN[n - 1]])
      else Gave(ref)
  }

  /** From every exposed journal a recovery can write a partial receipt: here are the answers that make it. */
  method RecoverExposed(m: Manifest, p: Patterns, j: Receipt, state: string) returns (t: seq<Entry>)
    requires (forall kind: Kind :: kind in m.names) && Exposed(j, m, p) && p.hash(state)
    ensures t != [] && t[0] == Entry(DiscoverPrepared, Found(j)) && WritesPartial(t)
  {
    ghost var missing, l :| 0 <= missing < l < |SEVEN| && FirstMissing(j, m, missing) && SEVEN[l] !in j.resources;
    var first := 0;
    while SEVEN[first] in j.resources
      invariant 0 <= first <= missing
      decreases missing - first
    {
      first := first + 1;
    }
    var kind := SEVEN[first];
    var ref := Ref(kind, j.transaction, m.names[kind], OwnershipHash(j, kind, m.names[kind]), state);
    var saga := new Saga(m, p, Answers(j, first, ref), j);
    assert saga.Provokes(j, first);
    hide Exposed, WritesPartial;
    var _ := saga.Recover();
    t := saga.trace;
  }

  /** A prepared journal that records nothing at all is accepted, and exposed. */
  lemma EmptyJournalExposed(m: Manifest, p: Patterns, transaction: string)
    requires p.safe(transaction) && p.header(m.header)
    ensures Exposed(NewReceipt(m, transaction).(state := Prepared), m, p)
  {
    var j := NewReceipt(m, transaction).(state := Prepared);
    assert FirstMissing(j, m, 0) && SEVEN[1] !in j.resources;
  }

  /** What a resource's ownership is computed from. */
  predicate SameOwner(a: Receipt, b: Receipt) {
    a.transaction == b.transaction && a.header == b.header
  }

  lemma AnswerVouches(t: seq<Entry>, i: nat, ref: Ref)
    requires i < |t| && t[i].reply == Gave(ref) && (t[i].call == Inspect(ref) || t[i].call.DiscoverResource?)
    ensures Vouched(t, ref)
  {
  }

  lemma ApprovalIdValid(r: Receipt, approvalId: string, p: Patterns)
    requires ValidReceipt(r, p)
    ensures ValidReceipt(r.(approvalId := Some(approvalId)), p)
  {
    var next := r.(approvalId := Some(approvalId));
    forall kind | kind in r.resources ensures ValidRef(next, kind, r.resources[kind], p) {
      assert ValidRef(r, kind, r.resources[kind], p);
    }
  }

  lemma MayCreate(t: seq<Entry>, call: Call, m: Manifest)
    requires call.Create? && Ready(t, call.kind)
    ensures Permitted(t, call, m)
  {
  }

  predicate CreatedBy(e: Entry, kind: Kind, ref: Ref) {
    e.call.Create? && e.call.kind == kind && e.reply == Gave(ref)
  }

  lemma CreatedVouches(t: seq<Entry>, i: nat, kind: Kind, ref: Ref)
    requires i < |t| && CreatedBy(t[i], kind, ref)
    ensures Vouched(t, ref) && (kind.Connector? ==> ConnectorStarted(t[i]))
  {
  }

  /** What was approved, connected or met stays so. */
  lemma LawKept(was: seq<Entry>, t: seq<Entry>)
    requires was <= t
    ensures Approved(was) ==> Approved(t)
    ensures Connected(was) ==> Connected(t)
    ensures forall kind | Ready(was, kind) :: Ready(t, kind)
    ensures forall m | CanariesMet(was, m) :: CanariesMet(t, m)
  {
  }

  /** Each recorded way in was tried since the rollback was announced. */
  predicate BothTried(t: seq<Entry>) {
    && (Connector in RollingResources(t) ==> Tried(SinceMarker(t), StopConnector))
    && (Dns in RollingResources(t) ==> Tried(SinceMarker(t), Delete(Dns)))
  }

  lemma BothTriedKept(was: seq<Entry>, t: seq<Entry>)
    requires SinceMarker(was) <= SinceMarker(t) && RollingResources(was) == RollingResources(t)
    ensures BothTried(was) ==> BothTried(t)
  {
    SuccessKept(SinceMarker(was), SinceMarker(t), StopConnector);
    SuccessKept(SinceMarker(was), SinceMarker(t), Delete(Dns));
    hide Tried, SinceMarker, RollingResources;
  }

  lemma WrittenOnce(was: seq<Entry>, e: Entry)
    requires !IsMarker(e)
    ensures RollingResources(was + [e]) == RollingResources(was) && Marker(was + [e]) == Marker(was)
    ensures BothTried(was) ==> BothTried(was + [e])
    ensures AllReleased(was) ==> AllReleased(was + [e])
  {
    var t := was + [e];
    assert t[..|was|] == was;
    assert Marker(t) == Marker(was);
    assert SinceMarker(t) == SinceMarker(was) + [e];
    hide Marker;
    BothTriedKept(was, t);
    if AllReleased(was) {
      forall kind | kind in RollingResources(t) ensures Released(SinceMarker(t), kind) {
        if ReleaseOf(kind).Some? {
          SuccessKept(SinceMarker(was), SinceMarker(t), ReleaseOf(kind).value);
        }
      }
    }
  }

  lemma StuckValid(r: Receipt, p: Patterns)
    requires ValidReceipt(r, p)
    ensures ValidReceipt(Update(Update(r, RollingBack), StuckOpen).(stuck := true), p)
  {
    var stuck := Update(Update(r, RollingBack), StuckOpen).(stuck := true);
    forall kind | kind in r.resources ensures ValidRef(stuck, kind, r.resources[kind], p) {
      assert ValidRef(r, kind, r.resources[kind], p);
    }
  }

  lemma RolledValid(r: Receipt, p: Patterns)
    requires ValidReceipt(r, p) && !r.state.StuckOpen?
    ensures ValidReceipt(Update(Update(r, RollingBack), RolledBack), p)
  {
    UpdateValid(r, RollingBack, p);
    UpdateValid(Update(r, RollingBack), RolledBack, p);
  }

  lemma EachReleased(t: seq<Entry>)
    requires Marker(t) >= 0 && Contained(t)
    requires forall kind | kind in RollingResources(t)
                           && kind in {Tunnel, AccessPolicy, AccessApplication, ServiceToken, RemoteKey, ConnectorTokenFile} ::
               Released(SinceMarker(t), kind)
    ensures AllReleased(t)
  {
    hide Marker, SinceMarker, Succeeded, RollingResources;
  }

  lemma ReleaseKept(was: seq<Entry>, t: seq<Entry>)
    requires Grows(was, t)
    ensures forall kind | Released(SinceMarker(was), kind) :: Released(SinceMarker(t), kind)
  {
    GrowthKeeps(was, t);
    forall kind | Released(SinceMarker(was), kind) ensures Released(SinceMarker(t), kind) {
      if ReleaseOf(kind).Some? {
        SuccessKept(SinceMarker(was), SinceMarker(t), ReleaseOf(kind).value);
      }
    }
  }

  lemma VouchedKept(was: seq<Entry>, t: seq<Entry>)
    requires was <= t
    ensures forall ref | Vouched(was, ref) :: Vouched(t, ref)
  {
  }
}
