/** Backend observations: the reduction of attempt results, the probe lease and the stored signals. */
module RoutingTelemetry {
  import opened Basics
  import opened StableSort

  const CIRCUIT_FAILURE_THRESHOLD: nat := 3
  const CIRCUIT_COOLDOWN_MS := 300_000
  const MAX_SAFE_INTEGER := 9_007_199_254_740_991

  // -------------------------------------------------------------------- values

  datatype Circuit = Closed | Open | HalfOpen

  datatype Observation = Observation(
    health: Option<real>, healthUpdatedAt: Option<int>,
    quota: Option<real>, quotaUpdatedAt: Option<int>,
    cost: Option<real>, costUpdatedAt: Option<int>,
    latency: Option<real>, latencyUpdatedAt: Option<int>,
    successes: nat, failures: nat, timeouts: nat, consecutiveFailures: nat,
    circuit: Option<Circuit>, circuitUpdatedAt: Option<int>,
    cooldownUntil: Option<int>, probeUntil: Option<int>, probeClaim: Option<string>)

  const UNSEEN := Observation(None, None, None, None, None, None, None, None, 0, 0, 0, 0, None, None, None, None, None)

  datatype State = State(updatedAt: int, backends: map<string, Observation>)

  const EMPTY := State(0, map[])

  datatype Status = Ok | Failed | Timeout | OtherStatus

  /** `task` is the collation rank of `task_id`. */
  datatype Attempt = Attempt(
    backend: string, status: Status, duration: Option<real>, startedAt: Option<int>, finishedAt: Option<int>,
    task: int, index: int)

  function Clamp(x: real): real {
    if x < 0.0 then 0.0 else if x > 1.0 then 1.0 else x
  }

  /** Six decimals, halves up. */
  function Round(x: real): real {
    (x * 1000000.0 + 0.5).Floor as real / 1000000.0
  }

  function Or<T>(x: Option<T>, default: T): T {
    if x.Some? then x.value else default
  }

  // ----------------------------------------------------------------- migration

  function Stamped<T>(signal: Option<T>, stamp: Option<int>, legacy: int): Option<int> {
    if signal.Some? && stamp.None? then Some(legacy) else stamp
  }

  predicate CircuitSignal(o: Observation) {
    o.circuit.Some? || o.cooldownUntil.Some? || o.probeUntil.Some?
  }

  /** Signals without a timestamp of their own get the global one. */
  function Migrate(o: Observation, legacy: int): Observation {
    o.(healthUpdatedAt := Stamped(o.health, o.healthUpdatedAt, legacy),
       quotaUpdatedAt := Stamped(o.quota, o.quotaUpdatedAt, legacy),
       costUpdatedAt := Stamped(o.cost, o.costUpdatedAt, legacy),
       latencyUpdatedAt := Stamped(o.latency, o.latencyUpdatedAt, legacy),
       circuitUpdatedAt := if CircuitSignal(o) && o.circuitUpdatedAt.None? then Some(legacy) else o.circuitUpdatedAt)
  }

  function MigrateAll(backends: map<string, Observation>, legacy: int): map<string, Observation> {
    map b | b in backends :: Migrate(backends[b], legacy)
  }

  /** Every signal has its own timestamp. */
  predicate Timed(o: Observation) {
    && (o.health.Some? ==> o.healthUpdatedAt.Some?) && (o.quota.Some? ==> o.quotaUpdatedAt.Some?)
    && (o.cost.Some? ==> o.costUpdatedAt.Some?) && (o.latency.Some? ==> o.latencyUpdatedAt.Some?)
    && (CircuitSignal(o) ==> o.circuitUpdatedAt.Some?)
  }

  predicate AllTimed(backends: map<string, Observation>) {
    forall b | b in backends :: Timed(backends[b])
  }

  // ------------------------------------------------------------------ reduction

  /** The order in which results are reduced; the input index only breaks the ties that are left. */
  predicate Before(a: Attempt, b: Attempt) {
    var af, bf := Or(a.finishedAt, MAX_SAFE_INTEGER), Or(b.finishedAt, MAX_SAFE_INTEGER);
    var s, t := Or(a.startedAt, MAX_SAFE_INTEGER), Or(b.startedAt, MAX_SAFE_INTEGER);
    af < bf || (af == bf && (s < t || (s == t && (a.task < b.task || (a.task == b.task && a.index <= b.index)))))
  }

  predicate Counted(a: Attempt) {
    a.backend !in {"", "inline", "none"} && !a.status.OtherStatus?
  }

  function EventTime(a: Attempt, now: int): int {
    Or(a.finishedAt, now)
  }

  function WithLatency(o: Observation, a: Attempt, now: int): Observation {
    if a.duration.None? || a.duration.value * 1000.0 < 0.0 then o
    else
      var ms := a.duration.value * 1000.0;
      o.(latency := Some(if o.latency.None? then ms else Round(o.latency.value * 0.8 + ms * 0.2)),
         latencyUpdatedAt := Some(EventTime(a, now)))
  }

  /** One counted result on the record of its backend. */
  function Apply(o: Observation, a: Attempt, now: int): Observation {
    var at := EventTime(a, now);
    var r := WithLatency(o, a, now).(circuit := Some(Or(o.circuit, Closed)), circuitUpdatedAt := Some(at),
                                     probeUntil := None, probeClaim := None);
    var health := Clamp(Or(o.health, 0.5)) * 0.8;
    match a.status
    case Ok =>
      r.(successes := o.successes + 1, consecutiveFailures := 0, circuit := Some(Closed), cooldownUntil := None,
         health := Some(Round(health + 0.2)), healthUpdatedAt := Some(at))
    case Failed =>
      var n := o.consecutiveFailures + 1;
      var failed := r.(failures := o.failures + 1, consecutiveFailures := n,
                       health := Some(Round(health)), healthUpdatedAt := Some(at));
      if n >= CIRCUIT_FAILURE_THRESHOLD then failed.(circuit := Some(Open), cooldownUntil := Some(at + CIRCUIT_COOLDOWN_MS))
      else failed
    case Timeout => r.(timeouts := o.timeouts + 1)
    case OtherStatus => o
  }

  function ApplyTo(backends: map<string, Observation>, a: Attempt, now: int): map<string, Observation> {
    if !Counted(a) then backends
    else backends[a.backend := Apply(if a.backend in backends then backends[a.backend] else UNSEEN, a, now)]
  }

  function ApplyAll(backends: map<string, Observation>, attempts: seq<Attempt>, now: int): map<string, Observation> {
    if attempts == [] then backends
    else ApplyTo(ApplyAll(backends, attempts[..|attempts| - 1], now), Last(attempts), now)
  }

  predicate AnyCounted(attempts: seq<Attempt>) {
    exists a | a in attempts :: Counted(a)
  }

  function Reduced(s: State, attempts: seq<Attempt>, now: int): State {
    State(if AnyCounted(attempts) then now else s.updatedAt,
          ApplyAll(MigrateAll(s.backends, s.updatedAt), Sort(attempts, Before), now))
  }

  lemma BeforeIsOrder()
    ensures TotalPreorder(Before)
  {
  }

  /** The first loop: every record is stamped, in no particular order. */
  method StampRecords(current: State) returns (backends: map<string, Observation>)
    ensures backends == MigrateAll(current.backends, current.updatedAt)
  {
    hide Migrate;
    backends := current.backends;
    var left := backends.Keys;
    while left != {}
      invariant left <= current.backends.Keys && backends.Keys == current.backends.Keys
      invariant forall b | b in backends ::
        backends[b] == if b in left then current.backends[b] else Migrate(current.backends[b], current.updatedAt)
      decreases |left|
    {
      var b :| b in left;
      left := left - {b};
      backends := backends[b := Migrate(backends[b], current.updatedAt)];
    }
  }

  /** The source clones the state, stamps every record, and then folds the sorted results in. */
  method ReduceObservations(current: State, attempts: seq<Attempt>, now: int) returns (next: State)
    ensures next == Reduced(current, attempts, now)
  {
    hide Apply, Before, Sort;
    var backends := StampRecords(current);
    var ordered := Sort(attempts, Before);
    var reducedAny := false;
    var i := 0;
    while i < |ordered|
      invariant 0 <= i <= |ordered|
      invariant backends == ApplyAll(MigrateAll(current.backends, current.updatedAt), ordered[..i], now)
      invariant reducedAny == AnyCounted(ordered[..i])
    {
      assert ordered[..i + 1] == ordered[..i] + [ordered[i]];
      assert ordered[..i + 1][..i] == ordered[..i];
      if Counted(ordered[i]) {
        var previous := if ordered[i].backend in backends then backends[ordered[i].backend] else UNSEEN;
        backends := backends[ordered[i].backend := Apply(previous, ordered[i], now)];
        reducedAny := true;
      }
      i := i + 1;
    }
    assert ordered[..i] == ordered;
    BeforeIsOrder();
    MembersKept(attempts, Before);
    next := State(if reducedAny then now else current.updatedAt, backends);
  }

  // ---------------------------------------------------- reduction is a homomorphism

  lemma {:induction false} ApplyConcat(backends: map<string, Observation>, a: seq<Attempt>, b: seq<Attempt>, now: int)
    ensures ApplyAll(backends, a + b, now) == ApplyAll(ApplyAll(backends, a, now), b, now)
  {
    if b == [] {
      assert a + b == a;
    } else {
      ApplyConcat(backends, a, b[..|b| - 1], now);
      assert (a + b)[..|a + b| - 1] == a + b[..|b| - 1];
    }
  }

  lemma {:induction false} ApplyStaysTimed(backends: map<string, Observation>, attempts: seq<Attempt>, now: int)
    requires AllTimed(backends)
    ensures AllTimed(ApplyAll(backends, attempts, now))
  {
    if attempts != [] {
      ApplyStaysTimed(backends, attempts[..|attempts| - 1], now);
    }
  }

  lemma MigrateTimed(backends: map<string, Observation>, legacy: int)
    requires AllTimed(backends)
    ensures MigrateAll(backends, legacy) == backends
  {
  }

  /**
   * Reducing A and then B at one clock is reducing both together, if A sorts before B:
   * the migration of timestamps and the global clock do not tell the difference.
   */
  lemma ReduceTwice(s: State, a: seq<Attempt>, b: seq<Attempt>, now: int)
    requires forall x, y | x in a && y in b :: Before(x, y)
    ensures Reduced(Reduced(s, a, now), b, now) == Reduced(s, a + b, now)
  {
    BeforeIsOrder();
    SortConcat(a, b, Before);
    var migrated := MigrateAll(s.backends, s.updatedAt);
    var first := ApplyAll(migrated, Sort(a, Before), now);
    ApplyStaysTimed(migrated, Sort(a, Before), now);
    MigrateTimed(first, Reduced(s, a, now).updatedAt);
    ApplyConcat(migrated, Sort(a, Before), Sort(b, Before), now);
    assert AnyCounted(a + b) <==> AnyCounted(a) || AnyCounted(b) by {
      assert forall x :: x in a + b <==> x in a || x in b;
    }
  }

  /** The order of the input does not matter where the sort keys tell the results apart. */
  lemma InputOrderIrrelevant(s: State, a: seq<Attempt>, b: seq<Attempt>, now: int)
    requires multiset(a) == multiset(b) && Distinct(a, Before)
    ensures Reduced(s, a, now) == Reduced(s, b, now)
  {
    BeforeIsOrder();
    SortUnique(a, b, Before);
    assert forall x :: x in a <==> x in multiset(a);
    assert forall x :: x in b <==> x in multiset(b);
  }
}
