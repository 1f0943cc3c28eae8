/** The adapter that turns routing evidence into a receipt. */
module RoutingObservation {
  import opened Basics
  import opened CodeUnits
  import opened ObservationReceipt

  datatype Identity = Known(provider: Text, model: Text) | Unknown

  datatype Phase = Terminal | Pending

  datatype AttemptOutcome = Succeeded | Failed | NoOutcome

  datatype Termination = Completed | NotStreamed | Cut | NoTermination

  /** `observationId` is absent when the record is explicitly unbound. */
  datatype Attempt = Attempt(
    observationId: Option<Text>, ordinal: nat, phase: Phase, outcome: AttemptOutcome, termination: Termination,
    identity: Identity)

  datatype Attempts = Records(records: seq<Attempt>) | NoRecords

  datatype ToolEvidence =
    | NoTools(reason: Text)
    | Tools(complete: bool, terminal: bool, started: nat, completed: nat, failed: nat)

  datatype Evidence = Evidence(outcome: Text, attempts: Attempts, tools: ToolEvidence)

  datatype Attribution =
    | Observed(provider: Text, model: Text, ordinal: nat)
    | Unattributed(reason: Text)
    | Ambiguous(reason: Text)

  datatype ToolState =
    | ToolsUnavailable(reason: Text)
    | ToolsIncomplete(reason: Text, started: nat, completed: nat, failed: nat)
    | ToolsCompleted(started: nat, completed: nat, failed: nat)

  // --------------------------------------------------------------- attribution

  predicate BoundTo(r: Attempt, id: Text) {
    r.observationId == Some(id)
  }

  /** A success that can establish a winner. */
  predicate Settled(r: Attempt, id: Text) {
    BoundTo(r, id) && r.phase.Terminal? && (r.termination.Completed? || r.termination.NotStreamed?)
  }

  /** Some bound success shares its ordinal with a bound record that differs from it. */
  ghost predicate Conflict(records: set<Attempt>, id: Text) {
    exists s, r | s in records && r in records ::
      s.outcome.Succeeded? && BoundTo(s, id) && BoundTo(r, id) && r.ordinal == s.ordinal && r != s
  }

  ghost function Successes(records: set<Attempt>): set<Attempt> {
    set r | r in records && r.outcome.Succeeded?
  }

  /** What a winner is attributed to. */
  function Credit(winner: Attempt, catalog: seq<(Text, Text)>): Attribution {
    match winner.identity
    case Unknown => Unattributed(MISSING_ATTRIBUTION)
    case Known(provider, model) =>
      if (provider, model) in catalog then Observed(provider, model, winner.ordinal)
      else Unattributed(UNSUPPORTED_IDENTITY)
  }

  /** The pairwise specification. It sees a set, so neither order nor repetition can matter. */
  ghost function Attribute(records: set<Attempt>, id: Text, catalog: seq<(Text, Text)>): Attribution {
    var successes := Successes(records);
    if successes == {} then Unattributed(NO_SUCCESS)
    else if Conflict(records, id) then Ambiguous(CONFLICTING)
    else if exists s | s in successes :: !Settled(s, id) then Unattributed(EVIDENCE_UNAVAILABLE)
    else if exists s, t | s in successes && t in successes :: s.ordinal != t.ordinal then Ambiguous(MULTIPLE_SUCCESSES)
    else
      var winner :| winner in successes;
      Credit(winner, catalog)
  }

  ghost function SetOf(records: seq<Attempt>): set<Attempt> {
    set r | r in records
  }

  ghost function AttributeAll(attempts: Attempts, id: Text, catalog: seq<(Text, Text)>): Attribution {
    if attempts.NoRecords? then Unattributed(EVIDENCE_UNAVAILABLE)
    else Attribute(SetOf(attempts.records), id, catalog)
  }

  /** When there is a winner at all, every success is that one record. */
  lemma OneWinner(records: set<Attempt>, id: Text, s: Attempt, t: Attempt)
    requires s in Successes(records) && t in Successes(records) && !Conflict(records, id)
    requires Settled(s, id) && Settled(t, id) && s.ordinal == t.ordinal
    ensures s == t
  {
  }

  function Filter(records: seq<Attempt>): (kept: seq<Attempt>)
    ensures forall r :: r in kept <==> r in records && r.outcome.Succeeded?
  {
    if records == [] then []
    else
      var others := Filter(records[1..]);
      assert forall r :: r in records <==> r == records[0] || r in records[1..];
      if records[0].outcome.Succeeded? then [records[0]] + others else others
  }

  /** The ordinals under which two differing bound records were met, in one pass over the records. */
  method Conflicts(records: seq<Attempt>, id: Text) returns (conflicting: set<nat>)
    ensures forall o :: o in conflicting <==>
              exists a, b | a in records && b in records ::
                BoundTo(a, id) && BoundTo(b, id) && a.ordinal == o && b.ordinal == o && a != b
  {
    var boundByOrdinal: map<nat, Attempt> := map[];
    conflicting := {};
    for i := 0 to |records|
      invariant forall o | o in boundByOrdinal ::
        boundByOrdinal[o] in records[..i] && BoundTo(boundByOrdinal[o], id) && boundByOrdinal[o].ordinal == o
      invariant forall r | r in records[..i] && BoundTo(r, id) :: r.ordinal in boundByOrdinal
      invariant forall o :: o in conflicting <==>
        exists r | r in records[..i] :: BoundTo(r, id) && r.ordinal == o && o in boundByOrdinal && r != boundByOrdinal[o]
    {
      var record := records[i];
      assert records[..i + 1] == records[..i] + [record];
      if !BoundTo(record, id) {
        continue;
      }
      if record.ordinal !in boundByOrdinal {
        boundByOrdinal := boundByOrdinal[record.ordinal := record];
        continue;
      }
      var prior := boundByOrdinal[record.ordinal];
      if record.phase != prior.phase || record.outcome != prior.outcome || record.termination != prior.termination
         || record.identity != prior.identity {
        conflicting := conflicting + {record.ordinal};
      }
    }
    assert records[..|records|] == records;
  }

  lemma AttributeIs(records: set<Attempt>, id: Text, catalog: seq<(Text, Text)>, successes: seq<Attempt>)
    requires successes != [] && forall r :: r in successes <==> r in Successes(records)
    ensures Attribute(records, id, catalog)
         == if Conflict(records, id) then Ambiguous(CONFLICTING)
            else if exists s | s in successes :: !Settled(s, id) then Unattributed(EVIDENCE_UNAVAILABLE)
            else if exists s | s in successes :: s.ordinal != successes[0].ordinal then Ambiguous(MULTIPLE_SUCCESSES)
            else Credit(successes[0], catalog)
  {
    var first := successes[0];
    assert first in Successes(records);
    if !Conflict(records, id) && (forall s | s in successes :: Settled(s, id))
       && (forall s | s in successes :: s.ordinal == first.ordinal)
    {
      forall s | s in Successes(records) ensures s == first {
        assert s in successes;
        OneWinner(records, id, s, first);
      }
    }
  }

  /** The linear algorithm computes the pairwise specification. */
  method AttributeRecords(attempts: Attempts, id: Text, catalog: seq<(Text, Text)>) returns (r: Attribution)
    ensures r == AttributeAll(attempts, id, catalog)
  {
    if attempts.NoRecords? {
      return Unattributed(EVIDENCE_UNAVAILABLE);
    }
    ghost var records := SetOf(attempts.records);
    var successes := Filter(attempts.records);
    assert forall r :: r in successes <==> r in Successes(records);
    if |successes| == 0 {
      assert Successes(records) == {};
      return Unattributed(NO_SUCCESS);
    }
    AttributeIs(records, id, catalog, successes);
    var conflicting := Conflicts(attempts.records, id);
    ConflictIs(attempts.records, id, conflicting);
    r := Decide(successes, id, conflicting, catalog);
  }

  /** The decisions after the records were grouped. */
  method Decide(successes: seq<Attempt>, id: Text, conflicting: set<nat>, catalog: seq<(Text, Text)>)
    returns (r: Attribution)
    requires successes != []
    ensures r == if exists s | s in successes :: BoundTo(s, id) && s.ordinal in conflicting then Ambiguous(CONFLICTING)
                 else if exists s | s in successes :: !Settled(s, id) then Unattributed(EVIDENCE_UNAVAILABLE)
                 else if exists s | s in successes :: s.ordinal != successes[0].ordinal then Ambiguous(MULTIPLE_SUCCESSES)
                 else Credit(successes[0], catalog)
  {
    if exists s | s in successes :: BoundTo(s, id) && s.ordinal in conflicting {
      return Ambiguous(CONFLICTING);
    }
    if exists s | s in successes :: !Settled(s, id) {
      return Unattributed(EVIDENCE_UNAVAILABLE);
    }
    var ordinals := set s | s in successes :: s.ordinal;
    var winner := successes[0];
    assert winner in successes && winner.ordinal in ordinals;
    MoreThanOne(ordinals, winner.ordinal);
    if |ordinals| > 1 {
      assert exists s | s in successes :: s.ordinal != winner.ordinal;
      return Ambiguous(MULTIPLE_SUCCESSES);
    }
    assert forall s | s in successes :: s.ordinal in ordinals;
    r := Credit(winner, catalog);
  }

  lemma MoreThanOne(s: set<nat>, x: nat)
    requires x in s
    ensures |s| > 1 <==> exists y :: y in s && y != x
  {
    var rest := s - {x};
    assert |rest| == |s| - 1;
    if rest != {} {
      var y :| y in rest;
    }
  }

  lemma ConflictIs(records: seq<Attempt>, id: Text, conflicting: set<nat>)
    requires forall o :: o in conflicting <==>
               exists a, b | a in records && b in records ::
                 BoundTo(a, id) && BoundTo(b, id) && a.ordinal == o && b.ordinal == o && a != b
    ensures Conflict(SetOf(records), id) <==>
            exists s | s in Filter(records) :: BoundTo(s, id) && s.ordinal in conflicting
  {
  }

  /** An observed attribution speaks for every success: same identity, same ordinal, bound here and finished. */
  lemma ObservedMeans(records: set<Attempt>, id: Text, catalog: seq<(Text, Text)>, s: Attempt)
    requires Attribute(records, id, catalog).Observed? && s in Successes(records)
    ensures var a := Attribute(records, id, catalog);
            && s.identity == Known(a.provider, a.model) && s.ordinal == a.ordinal && Settled(s, id)
            && (a.provider, a.model) in catalog
  {
    var w :| w in Successes(records) && Credit(w, catalog) == Attribute(records, id, catalog);
    OneWinner(records, id, s, w);
  }

  /** Reordering the records or repeating some of them changes nothing. */
  lemma OrderAndRepetition(a: seq<Attempt>, b: seq<Attempt>, id: Text, catalog: seq<(Text, Text)>)
    requires forall r :: r in a <==> r in b
    ensures AttributeAll(Records(a), id, catalog) == AttributeAll(Records(b), id, catalog)
  {
    assert SetOf(a) == SetOf(b);
  }
}
