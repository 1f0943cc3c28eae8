/** The planner: stale signals are dropped, candidates scored, filtered by circuit and sorted. */
module RoutingPlanner {
  import opened Basics
  import opened StableSort
  import opened RoutingTelemetry
  import opened RoutingRuns

  datatype Candidate = Candidate(backend: string, model: string, rank: int, details: string)

  datatype Mode = Off | Shadow | Enforce

  datatype Disposition = External | Inline | Unavailable

  datatype PlanStatus = PlanOk | PlanOff | NoObservations | PlanInline | PlanUnavailable

  datatype Input = Input(
    mode: Mode, now: int, candidates: seq<Candidate>, observations: State, maxAge: int, forced: bool,
    disposition: Option<Disposition>)

  /** The locale's collation, as a rank, and the table of capabilities for the kind of work to be routed. */
  datatype Tables = Tables(collate: string -> int, capability: Candidate -> real)

  datatype Scored = Scored(candidate: Candidate, score: real, circuit: Circuit)

  datatype Plan = Plan(status: PlanStatus, staticOrder: seq<Candidate>, proposed: seq<Candidate>,
                       selected: seq<Candidate>, scored: seq<Scored>)

  // ----------------------------------------------------------------- staleness

  predicate SignalFresh(stamp: Option<int>, legacy: int, now: int, maxAge: int) {
    0 <= now - Or(stamp, legacy) <= maxAge
  }

  predicate CircuitKept(raw: Observation, legacy: int, now: int, maxAge: int) {
    CircuitSignal(raw)
    && (SignalFresh(raw.circuitUpdatedAt, legacy, now, maxAge) || raw.circuit == Some(Open) || raw.circuit == Some(HalfOpen))
  }

  predicate SignalKept<T>(signal: Option<T>, stamp: Option<int>, legacy: int, now: int, maxAge: int) {
    signal.Some? && SignalFresh(stamp, legacy, now, maxAge)
  }

  function KeepSignal<T>(kept: bool, signal: Option<T>): Option<T> {
    if kept then signal else None
  }

  function KeepStamp(kept: bool, stamp: Option<int>, legacy: int): Option<int> {
    if kept then Some(Or(stamp, legacy)) else None
  }

  /** What is left of a record once its stale signals are dropped; counts are not signals. */
  function FreshOf(raw: Observation, legacy: int, now: int, maxAge: int): Option<Observation> {
    var health := SignalKept(raw.health, raw.healthUpdatedAt, legacy, now, maxAge);
    var quota := SignalKept(raw.quota, raw.quotaUpdatedAt, legacy, now, maxAge);
    var cost := SignalKept(raw.cost, raw.costUpdatedAt, legacy, now, maxAge);
    var latency := SignalKept(raw.latency, raw.latencyUpdatedAt, legacy, now, maxAge);
    var circuit := CircuitKept(raw, legacy, now, maxAge);
    if !health && !quota && !cost && !circuit then None
    else
      Some(UNSEEN.(
        health := KeepSignal(health, raw.health), healthUpdatedAt := KeepStamp(health, raw.healthUpdatedAt, legacy),
        quota := KeepSignal(quota, raw.quota), quotaUpdatedAt := KeepStamp(quota, raw.quotaUpdatedAt, legacy),
        cost := KeepSignal(cost, raw.cost), costUpdatedAt := KeepStamp(cost, raw.costUpdatedAt, legacy),
        latency := KeepSignal(latency, raw.latency), latencyUpdatedAt := KeepStamp(latency, raw.latencyUpdatedAt, legacy),
        circuit := KeepSignal(circuit, raw.circuit), cooldownUntil := KeepSignal(circuit, raw.cooldownUntil),
        probeUntil := KeepSignal(circuit, raw.probeUntil), probeClaim := KeepSignal(circuit, raw.probeClaim),
        circuitUpdatedAt := KeepStamp(circuit, raw.circuitUpdatedAt, legacy)))
  }

  function Fresh(s: State, backend: string, now: int, maxAge: int): Option<Observation> {
    if backend in s.backends then FreshOf(s.backends[backend], s.updatedAt, now, maxAge) else None
  }

  /** Staleness never hides or invents an open circuit, nor a probe. */
  lemma FreshKeepsCircuit(s: State, backend: string, now: int, maxAge: int)
    ensures EffectiveCircuit(Or(Fresh(s, backend, now, maxAge), UNSEEN), now) == EffectiveCircuit(Of(s, backend), now)
  {
  }

  /** A record whose circuit is not closed always counts as an observation. */
  lemma OpenIsObserved(s: State, backend: string, now: int, maxAge: int)
    ensures EffectiveCircuit(Of(s, backend), now).Closed? || Fresh(s, backend, now, maxAge).Some?
  {
  }

  /**
   * Reducing results of other backends never makes a signal of this one look fresher or staler,
   * at any later clock, although it advances the global clock that old records are dated by.
   */
  lemma UnrelatedResultsKeepFreshness(s: State, attempts: seq<Attempt>, now: int, backend: string, later: int, maxAge: int)
    requires forall a | a in attempts :: !(Counted(a) && a.backend == backend)
    ensures Fresh(Reduced(s, attempts, now), backend, later, maxAge) == Fresh(s, backend, later, maxAge)
  {
    BeforeIsOrder();
    MembersKept(attempts, Before);
    var migrated := MigrateAll(s.backends, s.updatedAt);
    UntouchedByOthers(migrated, Sort(attempts, Before), now, backend);
    PresenceByOthers(migrated, Sort(attempts, Before), now, backend);
    if backend in s.backends {
      MigratedIsAsFresh(s.backends[backend], s.updatedAt, Reduced(s, attempts, now).updatedAt, later, maxAge);
    }
    hide ApplyAll, Sort, AnyCounted, Migrate, FreshOf;
  }

  lemma {:induction false} PresenceByOthers(
      backends: map<string, Observation>, attempts: seq<Attempt>, now: int, backend: string)
    requires forall a | a in attempts :: !(Counted(a) && a.backend == backend)
    ensures backend in ApplyAll(backends, attempts, now) <==> backend in backends
  {
    if attempts != [] {
      assert Last(attempts) in attempts;
      PresenceByOthers(backends, attempts[..|attempts| - 1], now, backend);
      hide Apply;
    }
  }

  lemma StampedIsAsFresh<T>(signal: Option<T>, stamp: Option<int>, legacy: int, clock: int, now: int, maxAge: int)
    ensures var kept := SignalKept(signal, stamp, legacy, now, maxAge);
            var stamped := Stamped(signal, stamp, legacy);
            && SignalKept(signal, stamped, clock, now, maxAge) == kept
            && KeepStamp(kept, stamped, clock) == KeepStamp(kept, stamp, legacy)
  {
  }

  lemma MigratedIsAsFresh(o: Observation, legacy: int, clock: int, now: int, maxAge: int)
    ensures FreshOf(Migrate(o, legacy), clock, now, maxAge) == FreshOf(o, legacy, now, maxAge)
  {
    StampedIsAsFresh(o.health, o.healthUpdatedAt, legacy, clock, now, maxAge);
    StampedIsAsFresh(o.quota, o.quotaUpdatedAt, legacy, clock, now, maxAge);
    StampedIsAsFresh(o.cost, o.costUpdatedAt, legacy, clock, now, maxAge);
    StampedIsAsFresh(o.latency, o.latencyUpdatedAt, legacy, clock, now, maxAge);
    var m, kept := Migrate(o, legacy), CircuitKept(o, legacy, now, maxAge);
    assert CircuitKept(m, clock, now, maxAge) == kept;
    assert KeepStamp(kept, m.circuitUpdatedAt, clock) == KeepStamp(kept, o.circuitUpdatedAt, legacy);
    hide SignalKept, CircuitKept, KeepStamp, Stamped;
  }

  // ------------------------------------------------------------------- scoring

  function CircuitFactor(c: Circuit): real {
    match c
    case Closed => 1.0
    case HalfOpen => 0.25
    case Open => 0.0
  }

  function Stability(rank: int, count: nat): real {
    if count <= 1 then 1.0 else 1.0 - rank as real / (count - 1) as real
  }

  function Weighted(c: Candidate, count: nat, seen: Observation, tables: Tables): real {
    Clamp(tables.capability(c)) * 0.35 + Clamp(Or(seen.health, 0.5)) * 0.25
    + Clamp(Or(seen.quota, 0.5)) * 0.15 + Clamp(Or(seen.cost, 0.5)) * 0.1
    + Clamp(Stability(c.rank, count)) * 0.15
  }

  function Score(weighted: real, circuit: Circuit): real {
    Round(weighted * CircuitFactor(circuit))
  }

  function ScoreCandidate(c: Candidate, count: nat, o: Option<Observation>, now: int, tables: Tables): Scored {
    var circuit := EffectiveCircuit(Or(o, UNSEEN), now);
    Scored(c, Score(Weighted(c, count, Or(o, UNSEEN), tables), circuit), circuit)
  }

  /** A score is a fraction, and an open circuit scores nothing. */
  lemma ScoreRange(c: Candidate, count: nat, o: Option<Observation>, now: int, tables: Tables)
    ensures var s := ScoreCandidate(c, count, o, now, tables);
            0.0 <= s.score <= 1.0 && (s.circuit.Open? ==> s.score == 0.0)
  {
    var seen := Or(o, UNSEEN);
    var stability := Clamp(Stability(c.rank, count));
    hide Stability, Round;
    WeightedRange(Clamp(tables.capability(c)), Clamp(Or(seen.health, 0.5)), Clamp(Or(seen.quota, 0.5)),
                  Clamp(Or(seen.cost, 0.5)), stability, EffectiveCircuit(seen, now));
  }

  lemma WeightedRange(capability: real, health: real, quota: real, cost: real, stability: real, circuit: Circuit)
    requires 0.0 <= capability <= 1.0 && 0.0 <= health <= 1.0 && 0.0 <= quota <= 1.0 && 0.0 <= cost <= 1.0
    requires 0.0 <= stability <= 1.0
    ensures var weighted := capability * 0.35 + health * 0.25 + quota * 0.15 + cost * 0.1 + stability * 0.15;
            var score := Round(weighted * CircuitFactor(circuit));
            0.0 <= score <= 1.0 && (circuit.Open? ==> score == 0.0)
  {
    var weighted := capability * 0.35 + health * 0.25 + quota * 0.15 + cost * 0.1 + stability * 0.15;
    assert 0.0 <= weighted <= 1.0;
    if circuit.Open? {
      assert weighted * 0.0 == 0.0;
    }
    RoundInUnit(weighted * CircuitFactor(circuit));
  }

  /** Under the same circuit, signals that are nowhere worse never lower the score. */
  lemma BetterSignalsScoreHigher(c: Candidate, count: nat, worse: Observation, better: Observation, now: int, tables: Tables)
    requires EffectiveCircuit(worse, now) == EffectiveCircuit(better, now)
    requires Clamp(Or(worse.health, 0.5)) <= Clamp(Or(better.health, 0.5))
    requires Clamp(Or(worse.quota, 0.5)) <= Clamp(Or(better.quota, 0.5))
    requires Clamp(Or(worse.cost, 0.5)) <= Clamp(Or(better.cost, 0.5))
    ensures ScoreCandidate(c, count, Some(worse), now, tables).score
            <= ScoreCandidate(c, count, Some(better), now, tables).score
  {
    hide Clamp, Weighted, Score, EffectiveCircuit;
    WeightedGrows(c, count, worse, better, tables);
    Scaled(Weighted(c, count, worse, tables), Weighted(c, count, better, tables), EffectiveCircuit(worse, now));
  }

  lemma WeightedGrows(c: Candidate, count: nat, worse: Observation, better: Observation, tables: Tables)
    requires Clamp(Or(worse.health, 0.5)) <= Clamp(Or(better.health, 0.5))
    requires Clamp(Or(worse.quota, 0.5)) <= Clamp(Or(better.quota, 0.5))
    requires Clamp(Or(worse.cost, 0.5)) <= Clamp(Or(better.cost, 0.5))
    ensures Weighted(c, count, worse, tables) <= Weighted(c, count, better, tables)
  {
    hide Clamp, Stability;
    SumGrows(Clamp(tables.capability(c)), Clamp(Or(worse.health, 0.5)), Clamp(Or(better.health, 0.5)),
             Clamp(Or(worse.quota, 0.5)), Clamp(Or(better.quota, 0.5)), Clamp(Or(worse.cost, 0.5)),
             Clamp(Or(better.cost, 0.5)), Clamp(Stability(c.rank, count)));
  }

  lemma SumGrows(a: real, h1: real, h2: real, q1: real, q2: real, c1: real, c2: real, e: real)
    requires h1 <= h2 && q1 <= q2 && c1 <= c2
    ensures a * 0.35 + h1 * 0.25 + q1 * 0.15 + c1 * 0.1 + e * 0.15 <= a * 0.35 + h2 * 0.25 + q2 * 0.15 + c2 * 0.1 + e * 0.15
  {
  }

  lemma Scaled(low: real, high: real, circuit: Circuit)
    requires low <= high
    ensures Score(low, circuit) <= Score(high, circuit)
  {
    if circuit.Open? {
      assert low * 0.0 == high * 0.0;
    }
    RoundMonotone(low * CircuitFactor(circuit), high * CircuitFactor(circuit));
  }

  // ------------------------------------------------------------------ planning

  predicate StaticLeq(a: Candidate, b: Candidate, collate: string -> int) {
    a.rank < b.rank
    || (a.rank == b.rank
        && (collate(a.backend) < collate(b.backend)
            || (collate(a.backend) == collate(b.backend) && collate(a.model) <= collate(b.model))))
  }

  function StaticOrder(collate: string -> int): Order<Candidate> {
    (a, b) => StaticLeq(a, b, collate)
  }

  function ScoreOrder(collate: string -> int): Order<Scored> {
    (a: Scored, b: Scored) =>
      a.score > b.score || (a.score == b.score && StaticLeq(a.candidate, b.candidate, collate))
  }

  lemma OrdersAreOrders(collate: string -> int)
    ensures TotalPreorder(StaticOrder(collate)) && TotalPreorder(ScoreOrder(collate))
  {
  }

  function ScoreAll(candidates: seq<Candidate>, count: nat, input: Input, tables: Tables): seq<Scored> {
    if candidates == [] then []
    else
      [ScoreCandidate(candidates[0], count,
                      Fresh(input.observations, candidates[0].backend, input.now, input.maxAge), input.now, tables)]
      + ScoreAll(candidates[1..], count, input, tables)
  }

  function Eligible(scored: seq<Scored>): seq<Scored> {
    if scored == [] then []
    else (if scored[0].circuit.Open? then [] else [scored[0]]) + Eligible(scored[1..])
  }

  function Plain(scored: seq<Scored>): seq<Candidate> {
    if scored == [] then [] else [scored[0].candidate] + Plain(scored[1..])
  }

  predicate Observed(candidates: seq<Candidate>, input: Input) {
    exists i | 0 <= i < |candidates| :: Fresh(input.observations, candidates[i].backend, input.now, input.maxAge).Some?
  }

  function Proposed(scored: seq<Scored>, tables: Tables): seq<Candidate> {
    Plain(Sort(Eligible(scored), ScoreOrder(tables.collate)))
  }

  function PlanRouting(input: Input, tables: Tables): Plan {
    var order := Sort(input.candidates, StaticOrder(tables.collate));
    var disposition := Or(input.disposition, if order != [] then External else Unavailable);
    var scored := ScoreAll(order, |order|, input, tables);
    var considered := disposition.External? && !input.mode.Off? && (Observed(order, input) || input.forced);
    var proposed := if considered then Proposed(scored, tables) else order;
    var status :=
      if disposition.Inline? then PlanInline
      else if disposition.Unavailable? then PlanUnavailable
      else if input.mode.Off? then PlanOff
      else if !considered then NoObservations
      else if input.mode.Enforce? && proposed == [] then PlanUnavailable
      else PlanOk;
    var selected :=
      if status.PlanInline? || status.PlanUnavailable? then []
      else if input.mode.Enforce? && status.PlanOk? then proposed
      else order;
    Plan(status, order, proposed, selected, scored)
  }

  // ------------------------------------------------------------------- results

  predicate Usable(c: Candidate, input: Input) {
    !EffectiveCircuit(Of(input.observations, c.backend), input.now).Open?
  }

  /** The candidates whose unfiltered record is not effectively open. */
  function UsableOnly(candidates: seq<Candidate>, input: Input): seq<Candidate> {
    if candidates == [] then []
    else (if Usable(candidates[0], input) then [candidates[0]] else []) + UsableOnly(candidates[1..], input)
  }

  lemma {:induction false} EligibleIsUsable(candidates: seq<Candidate>, count: nat, input: Input, tables: Tables)
    ensures Plain(Eligible(ScoreAll(candidates, count, input, tables))) == UsableOnly(candidates, input)
  {
    if candidates != [] {
      var scored := ScoreAll(candidates, count, input, tables);
      FreshKeepsCircuit(input.observations, candidates[0].backend, input.now, input.maxAge);
      EligibleIsUsable(candidates[1..], count, input, tables);
      assert scored[1..] == ScoreAll(candidates[1..], count, input, tables);
      if Usable(candidates[0], input) {
        assert Eligible(scored)[1..] == Eligible(scored[1..]);
      } else {
        assert Eligible(scored) == Eligible(scored[1..]);
      }
    }
  }

  lemma {:induction false} PlainInsert(x: Scored, s: seq<Scored>, leq: Order<Scored>)
    ensures multiset(Plain(Insert(x, s, leq))) == multiset{x.candidate} + multiset(Plain(s))
  {
    if s == [] || leq(x, s[0]) {
      assert ([x] + s)[1..] == s;
    } else {
      PlainInsert(x, s[1..], leq);
      assert ([s[0]] + Insert(x, s[1..], leq))[1..] == Insert(x, s[1..], leq);
    }
  }

  lemma {:induction false} PlainSort(s: seq<Scored>, leq: Order<Scored>)
    ensures multiset(Plain(Sort(s, leq))) == multiset(Plain(s))
  {
    if s != [] {
      PlainSort(s[1..], leq);
      PlainInsert(s[0], Sort(s[1..], leq), leq);
    }
  }

  lemma {:induction false} UsableKept(s: seq<Candidate>, t: seq<Candidate>, input: Input)
    requires multiset(s) == multiset(t)
    ensures multiset(UsableOnly(s, input)) == multiset(UsableOnly(t, input))
  {
    forall c ensures multiset(UsableOnly(s, input))[c] == multiset(UsableOnly(t, input))[c] {
      UsableCount(s, input, c);
      UsableCount(t, input, c);
    }
  }

  lemma {:induction false} UsableCount(s: seq<Candidate>, input: Input, c: Candidate)
    ensures multiset(UsableOnly(s, input))[c] == if Usable(c, input) then multiset(s)[c] else 0
  {
    if s != [] {
      UsableCount(s[1..], input, c);
      assert s == [s[0]] + s[1..];
    }
  }

  lemma ProposedIs(input: Input, tables: Tables)
    ensures var order := Sort(input.candidates, StaticOrder(tables.collate));
            multiset(Proposed(ScoreAll(order, |order|, input, tables), tables))
            == multiset(UsableOnly(input.candidates, input))
  {
    var order := Sort(input.candidates, StaticOrder(tables.collate));
    OrdersAreOrders(tables.collate);
    SortSorts(input.candidates, StaticOrder(tables.collate));
    var scored := ScoreAll(order, |order|, input, tables);
    PlainSort(Eligible(scored), ScoreOrder(tables.collate));
    EligibleIsUsable(order, |order|, input, tables);
    UsableKept(order, input.candidates, input);
  }

  /** Nothing is added or lost: what is selected are all candidates, or the usable ones, or none. */
  lemma SelectedIsPermutation(input: Input, tables: Tables)
    ensures var plan := PlanRouting(input, tables);
            && multiset(plan.staticOrder) == multiset(input.candidates)
            && (plan.selected == [] || multiset(plan.selected) == multiset(input.candidates)
                || multiset(plan.selected) == multiset(UsableOnly(input.candidates, input)))
            && (input.mode.Enforce? && plan.status.PlanOk? ==>
                  multiset(plan.selected) == multiset(UsableOnly(input.candidates, input)))
            && (!input.mode.Enforce? && plan.selected != [] ==> plan.selected == plan.staticOrder)
  {
    ProposedIs(input, tables);
    OrdersAreOrders(tables.collate);
    SortSorts(input.candidates, StaticOrder(tables.collate));
    hide Proposed, ScoreAll, UsableOnly, Sort, Observed;
  }

  lemma {:induction false} OnlyUsable(s: seq<Candidate>, input: Input)
    ensures forall c | c in UsableOnly(s, input) :: Usable(c, input)
  {
    if s != [] {
      OnlyUsable(s[1..], input);
    }
  }

  /** In enforce mode a candidate with an effectively open circuit is never selected, however stale its record. */
  lemma EnforceNeverSelectsOpen(input: Input, tables: Tables, c: Candidate)
    requires input.mode.Enforce? && c in PlanRouting(input, tables).selected
    ensures Usable(c, input)
  {
    var order := Sort(input.candidates, StaticOrder(tables.collate));
    SelectedIsPermutation(input, tables);
    OnlyUsable(input.candidates, input);
    hide ScoreAll, Sort, UsableOnly, Proposed;
    var plan := PlanRouting(input, tables);
    if plan.status.PlanOk? {
      assert c in multiset(plan.selected);
      assert c in UsableOnly(input.candidates, input);
    } else {
      assert plan.status.NoObservations? && c in order && !Observed(order, input);
      var i :| 0 <= i < |order| && order[i] == c;
      OpenIsObserved(input.observations, order[i].backend, input.now, input.maxAge);
    }
  }

  /** What enforce mode selects goes from the highest score down. */
  lemma SelectedByScore(input: Input, tables: Tables)
    requires input.mode.Enforce? && PlanRouting(input, tables).status.PlanOk?
    ensures var plan := PlanRouting(input, tables);
            exists ranked: seq<Scored> ::
              && plan.selected == Plain(ranked) && Sorted(ranked, ScoreOrder(tables.collate))
              && multiset(ranked) == multiset(Eligible(plan.scored))
  {
    OrdersAreOrders(tables.collate);
    var plan := PlanRouting(input, tables);
    SortSorts(Eligible(plan.scored), ScoreOrder(tables.collate));
    assert plan.selected == Plain(Sort(Eligible(plan.scored), ScoreOrder(tables.collate)));
  }

  /** The order of the candidates in the input does not matter where rank, backend and model tell them apart. */
  lemma CandidateOrderIrrelevant(a: Input, candidates: seq<Candidate>, tables: Tables)
    requires multiset(a.candidates) == multiset(candidates) && Distinct(a.candidates, StaticOrder(tables.collate))
    ensures PlanRouting(a.(candidates := candidates), tables) == PlanRouting(a, tables)
  {
    OrdersAreOrders(tables.collate);
    SortUnique(a.candidates, candidates, StaticOrder(tables.collate));
    var b := a.(candidates := candidates);
    var order := Sort(a.candidates, StaticOrder(tables.collate));
    SameScores(order, |order|, a, b, tables);
    hide Proposed, Sort, ScoreAll;
  }

  lemma {:induction false} SameScores(order: seq<Candidate>, count: nat, a: Input, b: Input, tables: Tables)
    requires a.observations == b.observations && a.now == b.now && a.maxAge == b.maxAge
    ensures ScoreAll(order, count, a, tables) == ScoreAll(order, count, b, tables)
  {
    if order != [] {
      SameScores(order[1..], count, a, b, tables);
      hide ScoreCandidate, Fresh;
    }
  }
}
