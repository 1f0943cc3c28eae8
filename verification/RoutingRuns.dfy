/** Runs of the locked commands on the stored observations: reduce, claim a probe, set a signal. */
module RoutingRuns {
  import opened Basics
  import opened StableSort
  import opened RoutingTelemetry

  /** The circuit a planner or a claim sees at one instant. */
  function EffectiveCircuit(o: Observation, now: int): Circuit {
    var stored := Or(o.circuit, Closed);
    if stored.Open? && o.cooldownUntil.Some? && now >= o.cooldownUntil.value then
      if o.probeUntil.Some? && o.probeUntil.value > now then Open else HalfOpen
    else stored
  }

  function Of(s: State, backend: string): Observation {
    if backend in s.backends then s.backends[backend] else UNSEEN
  }

  function Max(a: int, b: int): int {
    if a < b then b else a
  }

  datatype Command =
    | Observe(attempts: seq<Attempt>, now: int)
    | Claim(backend: string, now: int, claimId: string, lease: int)
    | SetSignals(backend: string, now: int, quota: Option<real>, cost: Option<real>)

  /** The claims and signals that the commands accept at all. */
  predicate Admitted(c: Command) {
    match c
    case Observe(_, _) => true
    case Claim(_, _, _, lease) => lease > 0
    case SetSignals(_, _, quota, cost) => quota.Some? || cost.Some?
  }

  predicate Claimable(s: State, backend: string, now: int) {
    EffectiveCircuit(Of(s, backend), now).HalfOpen?
  }

  function Claimed(s: State, backend: string, now: int, claimId: string, lease: int): State {
    if !Claimable(s, backend, now) then s
    else
      State(Max(s.updatedAt, now),
            s.backends[backend := Of(s, backend).(probeUntil := Some(now + lease), probeClaim := Some(claimId),
                                                  circuitUpdatedAt := Some(now))])
  }

  function Set(s: State, backend: string, now: int, quota: Option<real>, cost: Option<real>): State {
    var o := Of(s, backend);
    var p := if quota.None? then o else o.(quota := Some(Clamp(quota.value)), quotaUpdatedAt := Some(now));
    var q := if cost.None? then p else p.(cost := Some(Clamp(cost.value)), costUpdatedAt := Some(now));
    State(Max(s.updatedAt, now), s.backends[backend := q])
  }

  function Do(s: State, c: Command): State {
    match c
    case Observe(attempts, now) => Reduced(s, attempts, now)
    case Claim(backend, now, claimId, lease) => Claimed(s, backend, now, claimId, lease)
    case SetSignals(backend, now, quota, cost) => Set(s, backend, now, quota, cost)
  }

  function Run(s: State, commands: seq<Command>): State {
    if commands == [] then s else Do(Run(s, commands[..|commands| - 1]), Last(commands))
  }

  // -------------------------------------------------------- the commands at work

  /** The state file behind its lock. */
  class Store {
    var state: State

    constructor ()
      ensures state == EMPTY
    {
      state := EMPTY;
    }

    method ObserveCommand(attempts: seq<Attempt>, now: int)
      modifies this
      ensures state == Do(old(state), Observe(attempts, now))
    {
      state := ReduceObservations(state, attempts, now);
    }

    method ClaimCommand(backend: string, now: int, claimId: string, lease: int) returns (claimed: bool)
      requires lease > 0
      modifies this
      ensures claimed == Claimable(old(state), backend, now)
      ensures state == Do(old(state), Claim(backend, now, claimId, lease))
    {
      claimed := backend in state.backends && EffectiveCircuit(state.backends[backend], now).HalfOpen?;
      if claimed {
        var o := state.backends[backend].(probeUntil := Some(now + lease), probeClaim := Some(claimId),
                                          circuitUpdatedAt := Some(now));
        state := State(Max(state.updatedAt, now), state.backends[backend := o]);
      }
    }

    method SetObservationCommand(backend: string, now: int, quota: Option<real>, cost: Option<real>)
      requires quota.Some? || cost.Some?
      modifies this
      ensures state == Do(old(state), SetSignals(backend, now, quota, cost))
      // no other backend is touched, and of this one only the two signals and their stamps
      ensures state.updatedAt >= old(state.updatedAt) && state.updatedAt >= now
      ensures state.backends - {backend} == old(state.backends) - {backend} && backend in state.backends
      ensures var before, after := Of(old(state), backend), state.backends[backend];
              && before == after.(quota := before.quota, quotaUpdatedAt := before.quotaUpdatedAt,
                                  cost := before.cost, costUpdatedAt := before.costUpdatedAt)
              && SignalSet(quota, before.quota, before.quotaUpdatedAt, after.quota, after.quotaUpdatedAt, now)
              && SignalSet(cost, before.cost, before.costUpdatedAt, after.cost, after.costUpdatedAt, now)
    {
      var o := Of(state, backend);
      if quota.Some? {
        o := o.(quota := Some(Clamp(quota.value)), quotaUpdatedAt := Some(now));
      }
      if cost.Some? {
        o := o.(cost := Some(Clamp(cost.value)), costUpdatedAt := Some(now));
      }
      state := State(Max(state.updatedAt, now), state.backends[backend := o]);
    }
  }

  /** A signal that was given is stored inside [0,1] and dated now; one that was not given stays as it was. */
  predicate SignalSet(given: Option<real>, was: Option<real>, wasAt: Option<int>, stored: Option<real>,
                      storedAt: Option<int>, now: int)
  {
    if given.None? then stored == was && storedAt == wasAt
    else
      && storedAt == Some(now) && stored.Some? && 0.0 <= stored.value <= 1.0
      && (0.0 <= given.value <= 1.0 ==> stored == given)
  }

  // ----------------------------------------------------------------- histories

  /** A counted result of one backend, with the time it counts for. */
  datatype Happening = Happening(status: Status, at: int)

  function Results(attempts: seq<Attempt>, backend: string, now: int): seq<Happening> {
    if attempts == [] then []
    else
      var a := Last(attempts);
      Results(attempts[..|attempts| - 1], backend, now)
      + if Counted(a) && a.backend == backend then [Happening(a.status, EventTime(a, now))] else []
  }

  function ResultsOf(c: Command, backend: string): seq<Happening> {
    if c.Observe? then Results(Sort(c.attempts, Before), backend, c.now) else []
  }

  /** Everything that was reduced for a backend in a run, batch by batch, each batch in its sorted order. */
  function History(commands: seq<Command>, backend: string): seq<Happening> {
    if commands == [] then []
    else
      History(commands[..|commands| - 1], backend) + ResultsOf(Last(commands), backend)
  }

  function CountOf(h: seq<Happening>, status: Status): nat {
    if h == [] then 0 else CountOf(h[..|h| - 1], status) + if Last(h).status == status then 1 else 0
  }

  /** Where the history starts after its last success. */
  function AfterLastOk(h: seq<Happening>): (n: nat)
    ensures n <= |h|
    ensures n > 0 ==> h[n - 1].status.Ok?
    ensures forall i | n <= i < |h| :: !h[i].status.Ok?
  {
    if h == [] then 0 else if Last(h).status.Ok? then |h| else AfterLastOk(h[..|h| - 1])
  }

  /** Failures that follow the last success; timeouts do not matter. */
  function RecentFailures(h: seq<Happening>): nat {
    CountOf(h[AfterLastOk(h)..], Failed)
  }

  function LastFailure(h: seq<Happening>): Option<int> {
    if h == [] then None
    else if Last(h).status.Failed? then Some(Last(h).at)
    else LastFailure(h[..|h| - 1])
  }

  /** What a history determines of a record. */
  ghost predicate Matches(o: Observation, h: seq<Happening>) {
    && o.successes == CountOf(h, Ok) && o.failures == CountOf(h, Failed) && o.timeouts == CountOf(h, Timeout)
    && o.consecutiveFailures == RecentFailures(h)
    && (o.circuit == Some(Open) <==> RecentFailures(h) >= CIRCUIT_FAILURE_THRESHOLD)
    && o.circuit != Some(HalfOpen)
    && (o.circuit == None <==> h == [])
    && (if RecentFailures(h) >= CIRCUIT_FAILURE_THRESHOLD then
          LastFailure(h).Some? && o.cooldownUntil == Some(LastFailure(h).value + CIRCUIT_COOLDOWN_MS)
        else o.cooldownUntil == None)
    && (o.health.Some? ==> 0.0 <= o.health.value <= 1.0)
  }

  lemma RecentSnoc(h: seq<Happening>, e: Happening)
    ensures RecentFailures(h + [e])
         == if e.status.Ok? then 0 else RecentFailures(h) + if e.status.Failed? then 1 else 0
    ensures LastFailure(h + [e]) == if e.status.Failed? then Some(e.at) else LastFailure(h)
    ensures forall status :: CountOf(h + [e], status) == CountOf(h, status) + if e.status == status then 1 else 0
  {
    var more := h + [e];
    assert more[..|h|] == h;
    if e.status.Ok? {
      assert more[|more|..] == [];
    } else {
      var n := AfterLastOk(h);
      assert more[n..] == h[n..] + [e];
      assert more[n..][..|more[n..]| - 1] == h[n..];
    }
  }

  lemma RoundMonotone(x: real, y: real)
    requires x <= y
    ensures Round(x) <= Round(y)
  {
    assert (x * 1000000.0 + 0.5).Floor <= (y * 1000000.0 + 0.5).Floor;
  }

  /** A success never lowers the health of a rounded record, a failure never raises it, a timeout leaves it alone. */
  lemma HealthMoves(o: Observation, a: Attempt, now: int)
    requires o.health.Some? && 0.0 <= o.health.value <= 1.0 && Round(o.health.value) == o.health.value
    ensures var after := Apply(o, a, now).health;
            && after.Some?
            && (a.status.Ok? ==> after.value >= o.health.value)
            && (a.status.Failed? ==> after.value <= o.health.value)
            && (a.status.Timeout? ==> after == o.health)
  {
    var h := o.health.value;
    RoundMonotone(h, h * 0.8 + 0.2);
    RoundMonotone(h * 0.8, h);
    hide Round;
  }

  lemma RoundInUnit(x: real)
    requires 0.0 <= x <= 1.0
    ensures 0.0 <= Round(x) <= 1.0
  {
  }

  lemma ApplyMatches(o: Observation, h: seq<Happening>, a: Attempt, now: int)
    requires Matches(o, h) && Counted(a)
    ensures Matches(Apply(o, a, now), h + [Happening(a.status, EventTime(a, now))])
  {
    RecentSnoc(h, Happening(a.status, EventTime(a, now)));
    var health := Clamp(Or(o.health, 0.5)) * 0.8;
    RoundInUnit(health);
    RoundInUnit(health + 0.2);
    hide Round, RecentFailures, LastFailure, CountOf;
  }

  function In(backends: map<string, Observation>, backend: string): Observation {
    if backend in backends then backends[backend] else UNSEEN
  }

  lemma {:induction false} ApplyAllMatches(
      backends: map<string, Observation>, attempts: seq<Attempt>, now: int, backend: string, h: seq<Happening>)
    requires Matches(In(backends, backend), h)
    ensures Matches(In(ApplyAll(backends, attempts, now), backend), h + Results(attempts, backend, now))
  {
    if attempts == [] {
      assert h + [] == h;
    } else {
      var fewer, a := attempts[..|attempts| - 1], Last(attempts);
      var before := ApplyAll(backends, fewer, now);
      var g := h + Results(fewer, backend, now);
      ApplyAllMatches(backends, fewer, now, backend, h);
      hide Matches, Apply;
      if Counted(a) && a.backend == backend {
        ApplyMatches(In(before, backend), g, a, now);
        assert h + Results(attempts, backend, now) == g + [Happening(a.status, EventTime(a, now))];
      } else {
        assert h + Results(attempts, backend, now) == g;
        assert In(ApplyAll(backends, attempts, now), backend) == In(before, backend);
      }
    }
  }

  lemma UnseenMatches()
    ensures Matches(UNSEEN, [])
  {
  }

  /** One command keeps the record in step with the history. */
  lemma DoMatches(s: State, c: Command, backend: string, h: seq<Happening>)
    requires Matches(Of(s, backend), h)
    ensures Matches(Of(Do(s, c), backend), h + ResultsOf(c, backend))
  {
    assert h + [] == h;
    if c.Observe? {
      var migrated := MigrateAll(s.backends, s.updatedAt);
      assert Matches(In(migrated, backend), h);
      ApplyAllMatches(migrated, Sort(c.attempts, Before), c.now, backend, h);
      hide Matches;
      assert Of(Do(s, c), backend) == In(ApplyAll(migrated, Sort(c.attempts, Before), c.now), backend);
    } else {
      hide RecentFailures, LastFailure, CountOf;
    }
  }

  /**
   * In every run from the empty state, a backend's circuit is open exactly when three failures
   * follow its last success, its cooldown dates from the last failure, and it is never half-open.
   */
  lemma {:induction false} CircuitFollowsHistory(commands: seq<Command>, backend: string)
    ensures Matches(Of(Run(EMPTY, commands), backend), History(commands, backend))
  {
    if commands == [] {
      UnseenMatches();
    } else {
      var fewer := commands[..|commands| - 1];
      CircuitFollowsHistory(fewer, backend);
      DoMatches(Run(EMPTY, fewer), Last(commands), backend, History(fewer, backend));
      hide Matches, Do;
    }
  }

  // ------------------------------------------------------------- probe exclusion

  /** No counted result of the backend is reduced. */
  ghost predicate NoResult(commands: seq<Command>, backend: string) {
    forall c | c in commands && c.Observe? :: forall a | a in c.attempts :: !(Counted(a) && a.backend == backend)
  }

  /** A probe lease that runs at least until `until`. */
  predicate Leased(o: Observation, until: int) {
    o.circuit == Some(Open) && o.cooldownUntil.Some? && o.probeUntil.Some? && o.probeUntil.value >= until
  }

  lemma {:induction false} UntouchedByOthers(
      backends: map<string, Observation>, attempts: seq<Attempt>, now: int, backend: string)
    requires forall a | a in attempts :: !(Counted(a) && a.backend == backend)
    ensures In(ApplyAll(backends, attempts, now), backend) == In(backends, backend)
  {
    if attempts != [] {
      assert Last(attempts) in attempts;
      UntouchedByOthers(backends, attempts[..|attempts| - 1], now, backend);
      hide Apply;
    }
  }

  lemma LeaseKept(s: State, c: Command, backend: string, until: int)
    requires Leased(Of(s, backend), until) && Admitted(c) && NoResult([c], backend)
    ensures Leased(Of(Do(s, c), backend), until)
  {
    match c
    case Observe(attempts, now) =>
      BeforeIsOrder();
      MembersKept(attempts, Before);
      assert c in [c];
      UntouchedByOthers(MigrateAll(s.backends, s.updatedAt), Sort(attempts, Before), now, backend);
    case Claim(_, _, _, _) =>
    case SetSignals(_, _, _, _) =>
  }

  lemma {:induction false} LeaseKeptAlong(s: State, commands: seq<Command>, backend: string, until: int)
    requires Leased(Of(s, backend), until) && NoResult(commands, backend)
    requires forall c | c in commands :: Admitted(c)
    ensures Leased(Of(Run(s, commands), backend), until)
  {
    if commands != [] {
      var fewer := commands[..|commands| - 1];
      assert Last(commands) in commands;
      LeaseKeptAlong(s, fewer, backend, until);
      LeaseKept(Run(s, fewer), Last(commands), backend, until);
      hide Leased, Do;
    }
  }

  /**
   * After a claim succeeds, no other claim of that backend succeeds at any clock before the end of
   * the lease, whatever else runs in between, unless a result of the backend was reduced.
   */
  lemma ProbeExclusion(before: seq<Command>, backend: string, now: int, claimId: string, lease: int,
                       between: seq<Command>, later: int)
    requires lease > 0 && Claimable(Run(EMPTY, before), backend, now)
    requires NoResult(between, backend) && forall c | c in between :: Admitted(c)
    requires later < now + lease
    ensures !Claimable(Run(Claimed(Run(EMPTY, before), backend, now, claimId, lease), between), backend, later)
  {
    var s := Run(EMPTY, before);
    CircuitFollowsHistory(before, backend);
    assert Leased(Of(Claimed(s, backend, now, claimId, lease), backend), now + lease);
    LeaseKeptAlong(Claimed(s, backend, now, claimId, lease), between, backend, now + lease);
    hide Run, RecentFailures, LastFailure;
  }

  /** The exclusion needs a circuit that was stored open: a record stored half-open can be claimed twice at once. */
  lemma StoredHalfOpenClaimedTwice(now: int)
    ensures var s := State(0, map["b" := UNSEEN.(circuit := Some(HalfOpen))]);
            && Claimable(s, "b", now) && Claimable(Claimed(s, "b", now, "one", 1), "b", now)
  {
  }

  /** From any state at all, a fresh lease excludes every claim before its end exactly when the circuit was stored open. */
  lemma ExclusionIff(s: State, backend: string, now: int, claimId: string, lease: int)
    requires lease > 0 && Claimable(s, backend, now)
    ensures (forall later | later < now + lease :: !Claimable(Claimed(s, backend, now, claimId, lease), backend, later))
       <==> Of(s, backend).circuit == Some(Open)
  {
    if Of(s, backend).circuit != Some(Open) {
      assert Claimable(Claimed(s, backend, now, claimId, lease), backend, now);
    }
  }
}
