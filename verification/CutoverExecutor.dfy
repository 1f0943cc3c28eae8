/** The cutover saga: planned actions, an irreversible boundary, and two kinds of compensation. */
module CutoverExecutor {
  import opened Basics
  import opened CutoverJournal

  // ---------------------------------------------------------------------- plan

  datatype PortOwner = LegacyRouter | ReplacementRouter | OtherOwner

  datatype Agent = Agent(name: string, present: bool)

  datatype ManagedPath = ManagedPath(id: string, present: bool)

  datatype Plan = Plan(owner: PortOwner, agents: seq<Agent>, paths: seq<ManagedPath>, legacyPackage: bool)

  const RUNTIME := "runtime"

  function PresentAgents(agents: seq<Agent>): seq<string> {
    if agents == [] then []
    else (if agents[0].present then [agents[0].name] else []) + PresentAgents(agents[1..])
  }

  function RemovablePaths(paths: seq<ManagedPath>): seq<string> {
    if paths == [] then []
    else (if paths[0].id != RUNTIME && paths[0].present then [paths[0].id] else []) + RemovablePaths(paths[1..])
  }

  predicate HasRuntime(paths: seq<ManagedPath>) {
    exists i | 0 <= i < |paths| :: paths[i].id == RUNTIME
  }

  function Unloads(names: seq<string>): seq<Action> {
    seq(|names|, i requires 0 <= i < |names| => UnloadAgent(names[i]))
  }

  function AgentRemovals(names: seq<string>): seq<Action> {
    seq(|names|, i requires 0 <= i < |names| => RemoveAgent(names[i]))
  }

  function PathRemovals(ids: seq<string>): seq<Action> {
    seq(|ids|, i requires 0 <= i < |ids| => RemovePath(ids[i]))
  }

  /** What can still be undone. */
  function Preparation(plan: Plan): seq<Action> {
    [Preflight, Stage] + (if plan.owner.OtherOwner? then [] else [StopPortOwner]) + Unloads(PresentAgents(plan.agents))
  }

  function Destruction(plan: Plan): seq<Action> {
    [RevokeCredential] + AgentRemovals(PresentAgents(plan.agents)) + PathRemovals(RemovablePaths(plan.paths))
    + if plan.legacyPackage then [RemovePackage] else []
  }

  const REPLACEMENT := [PromoteRuntime, InstallRouter, InstallAgents, Activate, Verify]

  function Planned(plan: Plan): seq<Action> {
    Preparation(plan) + (Destruction(plan) + if HasRuntime(plan.paths) then REPLACEMENT else [])
  }

  predicate Destructive(a: Action) {
    a.RevokeCredential? || a.RemoveAgent? || a.RemovePath? || a.RemovePackage?
  }

  predicate Disturbing(a: Action) {
    a.StopPortOwner? || a.UnloadAgent?
  }

  // --------------------------------------------------------------------- world

  datatype Call = Forward(action: Action) | RestoreServices | DiscardStaged | RecoverFresh

  /** An adapter call, with the flags of the executor when it was made. */
  datatype Entry = Entry(call: Call, irreversible: bool, verified: bool)

  /** How one adapter call ends; `proven` is what `assertVerification` makes of a verification. */
  datatype Reply = Done(proven: bool) | Thrown(code: Code)

  datatype Outcome = Returned(receipt: Receipt) | Threw(code: Code)

  /** Forward calls, each with the boundary flag it must carry. */
  function Entries(actions: seq<Action>, boundary: nat): seq<Entry> {
    seq(|actions|, i requires 0 <= i < |actions| => Entry(Forward(actions[i]), i >= boundary, false))
  }

  predicate Disturbs(actions: seq<Action>) {
    exists i | 0 <= i < |actions| :: Disturbing(actions[i])
  }

  lemma PreparationShape(plan: Plan)
    ensures var p := Preparation(plan);
            && |p| >= 2 && p[0] == Preflight && p[1] == Stage
            && (forall i | 0 <= i < |p| :: !Destructive(p[i]) && (i >= 2 ==> Disturbing(p[i])))
  {
  }

  lemma DestructionShape(plan: Plan)
    ensures var d := Destruction(plan) + if HasRuntime(plan.paths) then REPLACEMENT else [];
            forall i | 0 <= i < |d| :: !Disturbing(d[i]) && d[i] != Stage
  {
  }

  /** The steps of the preparation are the first of the plan, one after the other. */
  lemma PreparationIsFirst(plan: Plan)
    ensures var p, q := Planned(plan), Preparation(plan);
            var stop := if plan.owner.OtherOwner? then [] else [StopPortOwner];
            && q <= p && |q| >= 2 + |stop|
            && [] + [Preflight] <= p && [Preflight] + [Stage] <= p
            && [Preflight] + [Stage] + stop <= p
            && [Preflight] + [Stage] + stop + Unloads(PresentAgents(plan.agents)) == q
  {
    hide PresentAgents, Unloads, Destruction;
  }

  lemma DestructionIsNext(plan: Plan)
    ensures var p, q := Planned(plan), Preparation(plan);
            var agents, paths := AgentRemovals(PresentAgents(plan.agents)), PathRemovals(RemovablePaths(plan.paths));
            var package := if plan.legacyPackage then [RemovePackage] else [];
            && q + [RevokeCredential] <= p && q + [RevokeCredential] + agents <= p
            && q + [RevokeCredential] + agents + paths <= p
            && q + [RevokeCredential] + agents + paths + package <= p
            && q + [RevokeCredential] + agents + paths + package == q + Destruction(plan)
  {
    hide PresentAgents, AgentRemovals, RemovablePaths, PathRemovals, Preparation;
  }

  lemma ReplacementIsLast(plan: Plan)
    requires HasRuntime(plan.paths)
    ensures var p, q := Planned(plan), Preparation(plan) + Destruction(plan);
            && |q| >= |Preparation(plan)|
            && q + [PromoteRuntime] <= p && q + [PromoteRuntime] + [InstallRouter] <= p
            && q + [PromoteRuntime] + [InstallRouter] + [InstallAgents] <= p
            && q + [PromoteRuntime] + [InstallRouter] + [InstallAgents] + [Activate] <= p
            && q + [PromoteRuntime] + [InstallRouter] + [InstallAgents] + [Activate] + [Verify] == p
  {
    hide Preparation, Destruction;
  }

  lemma EntriesSnoc(actions: seq<Action>, a: Action, boundary: nat)
    ensures Entries(actions + [a], boundary)
         == Entries(actions, boundary) + [Entry(Forward(a), |actions| >= boundary, false)]
  {
  }

  lemma DisturbsSnoc(done: seq<Action>, a: Action)
    ensures Disturbs(done + [a]) <==> Disturbs(done) || Disturbing(a)
  {
    var more := done + [a];
    if Disturbing(a) {
      assert Disturbing(more[|done|]);
    }
    if Disturbs(done) {
      var i :| 0 <= i < |done| && Disturbing(done[i]);
      assert Disturbing(more[i]);
    }
  }

  lemma OnlyStage(plan: Plan, k: nat)
    requires k < |Planned(plan)|
    ensures Planned(plan)[k].Stage? <==> k == 1
  {
    PreparationShape(plan);
    DestructionShape(plan);
    var q := Preparation(plan);
    if k < |q| {
      assert Planned(plan)[k] == q[k];
    }
    hide Preparation, Destruction;
  }

  /** The facts about the plan that one action needs. */
  lemma NextAction(plan: Plan, k: nat, action: Action)
    requires k < |Planned(plan)| && Planned(plan)[k] == action
    ensures var p, b := Planned(plan), |Preparation(plan)|;
            && p[..k + 1] == p[..k] + [action]
            && Entries(p[..k + 1], b) == Entries(p[..k], b) + [Entry(Forward(action), k >= b, false)]
            && (Disturbs(p[..k + 1]) <==> Disturbs(p[..k]) || Disturbing(action))
            && (action.Stage? <==> k == 1)
  {
    var p := Planned(plan);
    assert p[..k + 1] == p[..k] + [action];
    EntriesSnoc(p[..k], action, |Preparation(plan)|);
    DisturbsSnoc(p[..k], action);
    OnlyStage(plan, k);
    hide Entries, Preparation, Planned, Disturbs;
  }

  // -------------------------------------------------------------- laws of a run

  function ForwardCalls(trace: seq<Entry>): seq<Action> {
    if trace == [] then []
    else ForwardCalls(trace[..|trace| - 1])
         + if Last(trace).call.Forward? then [Last(trace).call.action] else []
  }

  /** The compensation that the flags call for after `c` forward calls. */
  function Compensation(plan: Plan, c: nat, irreversible: bool): seq<Entry>
    requires c <= |Planned(plan)|
  {
    if irreversible then [Entry(RecoverFresh, true, false)]
    else
      (if Disturbs(Planned(plan)[..c]) then [Entry(RestoreServices, false, false)] else [])
      + if c >= 2 then [Entry(DiscardStaged, false, false)] else []
  }

  /** No revocation or removal before the boundary, and nothing is restored after one. */
  predicate NeverRestoresDestroyed(trace: seq<Entry>) {
    forall i | 0 <= i < |trace| && trace[i].call.Forward? && Destructive(trace[i].call.action) ::
      && trace[i].irreversible
      && forall j | i < j < |trace| :: !trace[j].call.RestoreServices? && !trace[j].call.DiscardStaged?
  }

  /** Recovery runs at most once, past the boundary, and never on a verified replacement. */
  predicate RecoversOnce(trace: seq<Entry>) {
    && (forall i | 0 <= i < |trace| && trace[i].call.RecoverFresh? :: trace[i].irreversible && !trace[i].verified)
    && forall i, j | 0 <= i < j < |trace| :: !(trace[i].call.RecoverFresh? && trace[j].call.RecoverFresh?)
  }

  predicate Calls(trace: seq<Entry>, call: Call) {
    exists i | 0 <= i < |trace| :: trace[i].call == call
  }

  predicate OnlyForward(trace: seq<Entry>) {
    forall i | 0 <= i < |trace| :: trace[i].call.Forward?
  }

  /** What the recovery status of a receipt has to say about the calls that were made, one answer each. */
  predicate Tells(recovery: Recovery, trace: seq<Entry>, adapter: nat -> Reply) {
    && (recovery == NotRequired <==> OnlyForward(trace))
    && (recovery == RecoveryFailed <==>
          exists i | 0 <= i < |trace| :: !trace[i].call.Forward? && adapter(i).Thrown?)
  }

  /** The executor's list of completed actions and the journal's: equal, or the last one was not recorded. */
  predicate AgreesWith(done: seq<Action>, recorded: seq<Action>) {
    recorded == done || (done != [] && recorded == done[..|done| - 1])
  }

  lemma {:induction false} ForwardOfEntries(actions: seq<Action>, boundary: nat)
    ensures ForwardCalls(Entries(actions, boundary)) == actions
  {
    if actions != [] {
      var n := |actions| - 1;
      ForwardOfEntries(actions[..n], boundary);
      EntriesSnoc(actions[..n], actions[n], boundary);
      assert actions[..n] + [actions[n]] == actions;
      assert Entries(actions, boundary)[..n] == Entries(actions[..n], boundary);
    }
  }

  lemma {:induction false} ForwardWithTail(trace: seq<Entry>, tail: seq<Entry>)
    requires forall i | 0 <= i < |tail| :: !tail[i].call.Forward?
    ensures ForwardCalls(trace + tail) == ForwardCalls(trace)
  {
    if tail == [] {
      assert trace + tail == trace;
    } else {
      ForwardWithTail(trace, tail[..|tail| - 1]);
      assert (trace + tail)[..|trace + tail| - 1] == trace + tail[..|tail| - 1];
    }
  }

  lemma Lawful(done: seq<Action>, b: nat, irreversible: bool, tail: seq<Entry>)
    requires if irreversible then |done| >= b else |done| <= b
    requires forall i | 0 <= i < |done| && i < b :: !Destructive(done[i])
    requires forall i | 0 <= i < |tail| :: !tail[i].call.Forward?
    requires irreversible ==> tail == [] || tail == [Entry(RecoverFresh, true, false)]
    requires !irreversible ==> forall i | 0 <= i < |tail| :: !tail[i].call.RecoverFresh?
    ensures NeverRestoresDestroyed(Entries(done, b) + tail) && RecoversOnce(Entries(done, b) + tail)
  {
  }

  /** Every trace of the executor's form obeys the laws. */
  lemma TraceLaws(plan: Plan, c: nat, irreversible: bool, tail: seq<Entry>)
    requires c <= |Planned(plan)|
    requires if irreversible then c >= |Preparation(plan)| else c <= |Preparation(plan)|
    requires tail == [] || tail == Compensation(plan, c, irreversible)
    ensures var trace := Entries(Planned(plan)[..c], |Preparation(plan)|) + tail;
            && ForwardCalls(trace) == Planned(plan)[..c]
            && NeverRestoresDestroyed(trace) && RecoversOnce(trace)
  {
    var done, b := Planned(plan)[..c], |Preparation(plan)|;
    var entries := Entries(done, b);
    PreparationShape(plan);
    ForwardOfEntries(done, b);
    ForwardWithTail(entries, tail);
    assert forall i | 0 <= i < c && i < b :: done[i] == Preparation(plan)[i];
    hide Preparation, Planned, Destruction, Disturbs, ForwardCalls;
    Lawful(done, b, irreversible, tail);
  }

  /** A compensation makes no forward call, and past the boundary it is a recovery. */
  lemma Tails(plan: Plan, c: nat, irreversible: bool)
    requires c <= |Planned(plan)|
    ensures var tail := Compensation(plan, c, irreversible);
            var trace := Entries(Planned(plan)[..c], |Preparation(plan)|) + tail;
            && (OnlyForward(trace) <==> tail == []) && (irreversible ==> Calls(trace, RecoverFresh))
  {
    var tail := Compensation(plan, c, irreversible);
    var trace := Entries(Planned(plan)[..c], |Preparation(plan)|) + tail;
    if tail != [] {
      assert trace[c] == tail[0];
    }
    hide Planned, Preparation, Disturbs;
  }

  /** A status that tells the truth about the compensation tells it about the whole trace. */
  lemma TellsAll(plan: Plan, c: nat, irreversible: bool, recovery: Recovery, adapter: nat -> Reply)
    requires c <= |Planned(plan)|
    requires recovery == NotRequired <==> Compensation(plan, c, irreversible) == []
    requires recovery == RecoveryFailed <==>
               exists i | c <= i < c + |Compensation(plan, c, irreversible)| :: adapter(i).Thrown?
    ensures Tells(recovery, Entries(Planned(plan)[..c], |Preparation(plan)|) + Compensation(plan, c, irreversible), adapter)
  {
    Tails(plan, c, irreversible);
    var tail := Compensation(plan, c, irreversible);
    var trace := Entries(Planned(plan)[..c], |Preparation(plan)|) + tail;
    hide Planned, Preparation, Disturbs;
    assert forall i | c <= i < |trace| :: trace[i] == tail[i - c] && !trace[i].call.Forward?;
    assert forall i | 0 <= i < c :: trace[i].call.Forward?;
  }

  /** Before the boundary, what was started is put back. */
  lemma PutBack(plan: Plan, c: nat)
    requires c <= |Planned(plan)|
    ensures var trace := Entries(Planned(plan)[..c], |Preparation(plan)|) + Compensation(plan, c, false);
            && (Calls(trace, Forward(Stage)) ==> Calls(trace, DiscardStaged))
            && (Disturbs(ForwardCalls(trace)) ==> Calls(trace, RestoreServices))
  {
    var entries := Entries(Planned(plan)[..c], |Preparation(plan)|);
    var tail := Compensation(plan, c, false);
    var trace := entries + tail;
    PreparationShape(plan);
    ForwardOfEntries(Planned(plan)[..c], |Preparation(plan)|);
    ForwardWithTail(entries, tail);
    if c >= 2 {
      assert trace[|trace| - 1].call == DiscardStaged;
    }
    if Disturbs(Planned(plan)[..c]) {
      assert trace[c].call == RestoreServices;
    }
    hide Preparation, Planned, Destruction;
  }

  lemma CompensationLaws(plan: Plan, c: nat, irreversible: bool)
    requires c <= |Planned(plan)|
    requires if irreversible then c >= |Preparation(plan)| else c <= |Preparation(plan)|
    ensures var tail := Compensation(plan, c, irreversible);
            var trace := Entries(Planned(plan)[..c], |Preparation(plan)|) + tail;
            && ForwardCalls(trace) <= Planned(plan) && NeverRestoresDestroyed(trace) && RecoversOnce(trace)
            && (!irreversible && Calls(trace, Forward(Stage)) ==> Calls(trace, DiscardStaged))
            && (!irreversible && Disturbs(ForwardCalls(trace)) ==> Calls(trace, RestoreServices))
            && (irreversible ==> Calls(trace, RecoverFresh))
            && (OnlyForward(trace) <==> tail == [])
  {
    hide Planned, Preparation, ForwardCalls, NeverRestoresDestroyed, RecoversOnce, Calls, Disturbs, Entries, Compensation;
    Tails(plan, c, irreversible);
    TraceLaws(plan, c, irreversible, Compensation(plan, c, irreversible));
    if !irreversible {
      PutBack(plan, c);
    }
  }

  // ------------------------------------------------------------------- executor

  class Executor {
    const plan: Plan
    const operation: string
    const journal: Journal
    const adapter: nat -> Reply
    const aborted: nat -> bool
    const clock: nat -> int
    var calls: nat
    var checks: nat
    var ticks: nat
    var sequence: int
    var staged: bool
    var preparationChanged: bool
    var irreversible: bool
    var replacementVerified: bool
    var completed: seq<Action>
    var trace: seq<Entry>

    ghost predicate Open()
      reads this, journal
    {
      && journal.Valid() && journal.begun == Some(operation) && !journal.completed && journal.receiptFile.None?
      && journal.lastSequence <= sequence
    }

    /** `c` forward calls made, and the flags that go with them. */
    ghost predicate Called(c: nat)
      requires c <= |Planned(plan)|
      reads `trace, `calls, `staged, `preparationChanged, `irreversible
    {
      var p, b := Planned(plan), |Preparation(plan)|;
      && trace == Entries(p[..c], b) && calls == |trace|
      && (staged <==> c >= 2) && (preparationChanged <==> Disturbs(p[..c]))
      && (if irreversible then c >= b else c <= b)
    }

    /** `c` forward calls made, `d` actions completed, `j` of them recorded as completed. */
    ghost predicate Ran(c: nat, d: nat, j: nat)
      reads this, journal
    {
      && j <= d <= c <= |Planned(plan)| && c <= j + 1
      && Called(c) && completed == Planned(plan)[..d] && CompletedIn(journal.Recorded()) == Planned(plan)[..j]
      && Open()
    }

    /** Between two actions nothing is half done and the two counters agree. */
    ghost predicate Between()
      reads this, journal
    {
      Ran(|completed|, |completed|, |completed|) && !replacementVerified && sequence == journal.lastSequence
    }

    /** After a failure; recorded and completed differ by the last action at most. */
    ghost predicate Stopped()
      reads this, journal
    {
      !replacementVerified && exists c, d, j :: Ran(c, d, j)
    }

    constructor (plan: Plan, operation: string, journal: Journal, adapter: nat -> Reply, aborted: nat -> bool, clock: nat -> int)
      ensures this.plan == plan && this.operation == operation && this.journal == journal && this.adapter == adapter
      ensures trace == [] && completed == [] && sequence == 0
      ensures !staged && !preparationChanged && !irreversible && !replacementVerified
    {
      this.plan, this.operation, this.journal := plan, operation, journal;
      this.adapter, this.aborted, this.clock := adapter, aborted, clock;
      calls, checks, ticks, sequence := 0, 0, 0, 0;
      staged, preparationChanged, irreversible, replacementVerified := false, false, false, false;
      completed, trace := [], [];
    }

    method Call(call: Call) returns (reply: Reply)
      modifies `calls, `trace
      ensures trace == old(trace) + [Entry(call, irreversible, replacementVerified)]
      ensures reply == adapter(old(calls)) && calls == old(calls) + 1
    {
      trace := trace + [Entry(call, irreversible, replacementVerified)];
      reply := adapter(calls);
      calls := calls + 1;
    }

    /** The adapter call of an action, with the flags that its closure sets first. */
    method Perform(action: Action) returns (failure: Option<Code>)
      modifies `calls, `trace, `staged, `preparationChanged
      ensures trace == old(trace) + [Entry(Forward(action), irreversible, replacementVerified)]
      ensures staged == (old(staged) || action.Stage?)
      ensures preparationChanged == (old(preparationChanged) || Disturbing(action))
      ensures calls == old(calls) + 1
      ensures failure.None? ==> adapter(old(calls)).Done? && (action.Verify? ==> adapter(old(calls)).proven)
    {
      if action.Stage? {
        staged := true;
      }
      if Disturbing(action) {
        preparationChanged := true;
      }
      var reply := Call(Forward(action));
      if reply.Thrown? {
        return Some(reply.code);
      }
      if action.Verify? && !reply.proven {
        return Some("CUTOVER_REPLACEMENT_VERIFICATION_FAILED");
      }
      failure := None;
    }

    method Append(action: Action, status: EventStatus, code: Option<Code>) returns (failure: Option<Code>)
      requires Open()
      modifies `sequence, journal
      ensures Open() && sequence == old(sequence) + 1
      ensures failure.None? ==> journal.Recorded() == old(journal.Recorded()) + [Event(sequence, action, status, code)]
      ensures failure.Some? ==> journal.Recorded() == old(journal.Recorded())
      ensures old(sequence) != old(journal.lastSequence) ==>
                failure.Some? && sequence != journal.lastSequence && journal.journalFile == old(journal.journalFile)
      ensures failure.None? ==> journal.lastSequence == sequence
      ensures failure.Some? ==> journal.lastSequence == old(journal.lastSequence)
    {
      sequence := sequence + 1;
      failure := journal.Append(Event(sequence, action, status, code));
    }

    method Attempt(action: Action) returns (failure: Option<Code>)
      requires Between() && |completed| < |Planned(plan)| && Planned(plan)[|completed|] == action
      requires irreversible <==> |completed| >= |Preparation(plan)|
      modifies `calls, `trace, `staged, `preparationChanged
      ensures Ran(|completed| + 1, |completed|, |completed|)
      ensures failure.None? && action.Verify? ==> calls > 0 && adapter(calls - 1).Done? && adapter(calls - 1).proven
    {
      NextAction(plan, |completed|, action);
      hide Planned, Preparation, Entries, Disturbs, CompletedIn;
      failure := Perform(action);
    }

    /** The part of an action between its two journal entries and the second entry, or the record of its failure. */
    method Act(action: Action) returns (failure: Option<Code>)
      requires Between() && |completed| < |Planned(plan)| && Planned(plan)[|completed|] == action
      requires irreversible <==> |completed| >= |Preparation(plan)|
      modifies this, journal
      ensures irreversible == old(irreversible) && !replacementVerified
      ensures failure.None? ==> Between() && completed == old(completed) + [action]
      ensures failure.None? && action.Verify? ==> calls > 0 && adapter(calls - 1).Done? && adapter(calls - 1).proven
      ensures failure.Some? ==>
                var k := |old(completed)|; Ran(k + 1, k, k) || Ran(k + 1, k + 1, k)
    {
      ghost var k := |completed|;
      hide Planned, Preparation, Entries, Disturbs, CompletedIn;
      failure := Attempt(action);
      hide Ran;
      if failure.None? {
        failure := RecordCompletion(action, k);
        if failure.None? {
          return;
        }
        RecordFailure(action, failure, k + 1, k + 1, k);
      } else {
        RecordFailure(action, failure, k + 1, k, k);
      }
    }

    method RecordCompletion(action: Action, ghost k: nat) returns (failure: Option<Code>)
      requires Ran(k + 1, k, k) && !replacementVerified && sequence == journal.lastSequence
      requires k < |Planned(plan)| && Planned(plan)[k] == action
      modifies `completed, `sequence, journal
      ensures failure.None? ==> Between() && |completed| == k + 1
      ensures failure.Some? ==> Ran(k + 1, k + 1, k)
    {
      NextAction(plan, k, action);
      hide Planned, Preparation, Entries, Disturbs, CompletedIn, Called;
      ghost var before := journal.Recorded();
      completed := completed + [action];
      assert completed == Planned(plan)[..k + 1] && Called(k + 1);
      failure := Append(action, EventStatus.Completed, None);
      assert Called(k + 1);
      CompletedSnoc(before, Event(sequence, action, EventStatus.Completed, None));
    }

    /** A failure that cannot be recorded either is passed over: the action's own failure counts. */
    method RecordFailure(action: Action, code: Option<Code>, ghost c: nat, ghost d: nat, ghost j: nat)
      requires Ran(c, d, j)
      modifies `sequence, journal
      ensures Ran(c, d, j)
    {
      hide Planned, Preparation, Entries, Disturbs, CompletedIn, Called;
      ghost var before := journal.Recorded();
      var _ := Append(action, EventStatus.Failed, code);
      CompletedSnoc(before, Event(sequence, action, EventStatus.Failed, code));
    }

    /** One action of the plan: announce it, do it, record it; or stop. */
    method Run(action: Action) returns (failure: Option<Code>)
      requires Between() && |completed| < |Planned(plan)| && Planned(plan)[|completed|] == action
      requires irreversible <==> |completed| >= |Preparation(plan)|
      modifies this, journal
      ensures irreversible == old(irreversible)
      ensures failure.None? ==> Between() && completed == old(completed) + [action]
      ensures failure.None? && action.Verify? ==> calls > 0 && adapter(calls - 1).Done? && adapter(calls - 1).proven
      ensures failure.Some? ==> Stopped()
    {
      ghost var k := |completed|;
      hide Planned, Preparation, Entries, Disturbs, CompletedIn;
      assert Ran(k, k, k);
      var abort := aborted(checks);
      checks := checks + 1;
      assert Ran(k, k, k);
      if abort {
        return Some("CUTOVER_ABORTED");
      }
      ghost var before := journal.Recorded();
      failure := Append(action, Started, None);
      CompletedSnoc(before, Event(sequence, action, Started, None));
      assert Ran(k, k, k);
      if failure.Some? {
        return;
      }
      failure := Act(action);
    }

    /** The loops over agents and paths. */
    method RunEach(actions: seq<Action>) returns (failure: Option<Code>)
      requires Between() && completed + actions <= Planned(plan)
      requires if irreversible then |completed| >= |Preparation(plan)| else |completed| + |actions| <= |Preparation(plan)|
      modifies this, journal
      ensures irreversible == old(irreversible)
      ensures failure.None? ==> Between() && completed == old(completed) + actions
      ensures failure.Some? ==> Stopped()
    {
      hide Planned, Preparation, Ran;
      ghost var before := completed;
      var i := 0;
      while i < |actions|
        invariant 0 <= i <= |actions|
        invariant Between() && completed == before + actions[..i] && irreversible == old(irreversible)
      {
        assert (before + actions)[|before| + i] == actions[i];
        assert actions[..i + 1] == actions[..i] + [actions[i]];
        failure := Run(actions[i]);
        if failure.Some? {
          return;
        }
        i := i + 1;
      }
      failure := None;
    }

    /** The steps up to the boundary. */
    method Prepare() returns (failure: Option<Code>)
      requires Between() && completed == [] && !irreversible
      modifies this, journal
      ensures !irreversible
      ensures failure.None? ==> Between() && completed == Preparation(plan)
      ensures failure.Some? ==> Stopped()
    {
      PreparationIsFirst(plan);
      hide Planned, Preparation, Ran, PresentAgents, Unloads;
      failure := RunNext(Preflight);
      if failure.Some? {
        return;
      }
      failure := RunNext(Stage);
      if failure.Some? {
        return;
      }
      if !plan.owner.OtherOwner? {
        failure := RunNext(StopPortOwner);
        if failure.Some? {
          return;
        }
      }
      failure := RunEach(Unloads(PresentAgents(plan.agents)));
    }

    method RunNext(action: Action) returns (failure: Option<Code>)
      requires Between() && completed + [action] <= Planned(plan)
      requires irreversible <==> |completed| >= |Preparation(plan)|
      modifies this, journal
      ensures irreversible == old(irreversible)
      ensures failure.None? ==> Between() && completed == old(completed) + [action]
      ensures failure.None? && action.Verify? ==> calls > 0 && adapter(calls - 1).Done? && adapter(calls - 1).proven
      ensures failure.Some? ==> Stopped()
    {
      assert (completed + [action])[|completed|] == action;
      failure := Run(action);
    }

    /** The steps past the boundary that take the old installation away. */
    method Destroy() returns (failure: Option<Code>)
      requires Between() && completed == Preparation(plan) && irreversible
      modifies this, journal
      ensures irreversible
      ensures failure.None? ==> Between() && completed == Preparation(plan) + Destruction(plan)
      ensures failure.Some? ==> Stopped()
    {
      DestructionIsNext(plan);
      hide Planned, Preparation, Destruction, Ran, PresentAgents, AgentRemovals, RemovablePaths, PathRemovals;
      failure := RunNext(RevokeCredential);
      if failure.Some? {
        return;
      }
      failure := RunEach(AgentRemovals(PresentAgents(plan.agents)));
      if failure.Some? {
        return;
      }
      failure := RunEach(PathRemovals(RemovablePaths(plan.paths)));
      if failure.Some? {
        return;
      }
      if plan.legacyPackage {
        failure := RunNext(RemovePackage);
      }
    }

    /** The steps that put the replacement in place and prove it. */
    method Replace() returns (failure: Option<Code>)
      requires Between() && completed == Preparation(plan) + Destruction(plan) && irreversible
      modifies this, journal
      ensures failure.None? ==>
                && HasRuntime(plan.paths) && replacementVerified && Ran(|completed|, |completed|, |completed|)
                && completed == Planned(plan) && calls > 0 && adapter(calls - 1) == Done(true)
      ensures irreversible
      ensures failure.Some? ==> Stopped()
    {
      if !HasRuntime(plan.paths) {
        return Some("CUTOVER_RUNTIME_SCOPE_MISSING");
      }
      ReplacementIsLast(plan);
      hide Planned, Preparation, Destruction, Ran;
      failure := Install();
      if failure.Some? {
        return;
      }
      failure := RunNext(Verify);
      if failure.Some? {
        return;
      }
      label verified:
      replacementVerified := true;
      SameRan@verified(|completed|);
    }

    method Install() returns (failure: Option<Code>)
      requires Between() && completed == Preparation(plan) + Destruction(plan) && irreversible && HasRuntime(plan.paths)
      modifies this, journal
      ensures irreversible
      ensures failure.None? ==>
                && Between()
                && completed == old(completed) + [PromoteRuntime] + [InstallRouter] + [InstallAgents] + [Activate]
      ensures failure.Some? ==> Stopped()
    {
      ReplacementIsLast(plan);
      hide Planned, Preparation, Destruction, Ran;
      failure := RunNext(PromoteRuntime);
      if failure.Some? {
        return;
      }
      failure := RunNext(InstallRouter);
      if failure.Some? {
        return;
      }
      failure := RunNext(InstallAgents);
      if failure.Some? {
        return;
      }
      failure := RunNext(Activate);
    }

    /** The flag for a verified replacement is not part of what has run. */
    twostate lemma SameRan(n: nat)
      requires old(Ran(n, n, n)) && old(journal.Valid()) && unchanged(journal)
      requires unchanged(`sequence) && unchanged(`staged) && unchanged(`preparationChanged) && unchanged(`irreversible)
      requires unchanged(`completed) && unchanged(`trace) && unchanged(`calls)
      ensures Ran(n, n, n)
    {
    }

    /** One call of a compensation; the status only ever gets worse. */
    method Repair(call: Call, was: Recovery) returns (recovery: Recovery)
      modifies `calls, `trace
      ensures trace == old(trace) + [Entry(call, irreversible, replacementVerified)]
      ensures calls == old(calls) + 1
      ensures recovery == if adapter(old(calls)).Thrown? then RecoveryFailed else was
    {
      var reply := Call(call);
      recovery := if reply.Thrown? then RecoveryFailed else was;
    }

    /** Undo what can be undone, or recover from the replacement. */
    method Compensate(ghost c: nat, ghost d: nat, ghost j: nat) returns (recovery: Recovery)
      requires Ran(c, d, j) && !replacementVerified
      modifies `calls, `trace
      ensures trace == old(trace) + Compensation(plan, c, irreversible)
      ensures recovery == NotRequired <==> Compensation(plan, c, irreversible) == []
      ensures recovery == RecoveryFailed <==>
                exists i | c <= i < c + |Compensation(plan, c, irreversible)| :: adapter(i).Thrown?
    {
      assert calls == c;
      hide Planned, Preparation, Disturbs;
      recovery := NotRequired;
      if irreversible {
        recovery := Repair(RecoverFresh, RecoveryCompleted);
        return;
      }
      if preparationChanged || staged {
        recovery := RecoveryCompleted;
      }
      if preparationChanged {
        recovery := Repair(RestoreServices, recovery);
      }
      if staged {
        recovery := Repair(DiscardStaged, recovery);
      }
    }

    method Now() returns (t: int)
      modifies `ticks
    {
      t := clock(ticks);
      ticks := ticks + 1;
    }

    /** The forward part: `None` once the replacement is verified. */
    method GoForward() returns (failure: Option<Code>)
      requires Between() && completed == [] && !irreversible
      modifies this, journal
      ensures failure.None? ==>
                && HasRuntime(plan.paths) && replacementVerified && irreversible
                && Ran(|completed|, |completed|, |completed|)
                && completed == Planned(plan) && calls > 0 && adapter(calls - 1) == Done(true)
      ensures failure.Some? ==> Stopped()
    {
      hide Planned, Preparation, Destruction;
      failure := Prepare();
      if failure.Some? {
        return;
      }
      irreversible := true;
      failure := Destroy();
      if failure.Some? {
        return;
      }
      failure := Replace();
    }

    ghost predicate New()
      reads this, journal
    {
      && trace == [] && completed == [] && sequence == 0 && calls == 0
      && !staged && !preparationChanged && !irreversible && !replacementVerified
      && journal.Valid() && journal.begun.None? && journal.receiptFile.None? && journal.lastSequence == 0
    }

    /** The receipt is sealed in the journal, or the failure to do so is the outcome. */
    method Seal(receipt: Receipt) returns (failure: Option<Code>)
      requires Open() && receipt.operation == operation
      modifies journal
      ensures journal.Valid() && journal.Recorded() == old(journal.Recorded())
      ensures failure.None? ==> ValidReceipt(receipt, journal.safe) && journal.completed && journal.receiptFile == Some(receipt)
    {
      if !ValidReceipt(receipt, journal.safe) {
        return Some("CUTOVER_RECEIPT_INVALID");
      }
      failure := journal.Complete(receipt);
    }

    /** The replacement is live and verified: a failure to say so is surfaced, and nothing is torn down. */
    method Finalize(startedAt: int) returns (r: Outcome)
      requires replacementVerified && Ran(|completed|, |completed|, |completed|) && completed == Planned(plan)
      modifies `ticks, journal
      ensures journal.Valid() && journal.Recorded() == old(journal.Recorded())
      ensures r.Returned? ==>
                && ValidReceipt(r.receipt, journal.safe) && r.receipt.completed == completed && r.receipt.status == Committed
                && journal.completed && journal.receiptFile == Some(r.receipt)
      ensures r.Threw? ==> r.code == "CUTOVER_RECEIPT_FINALIZATION_FAILED"
    {
      var finishedAt := Now();
      var receipt := Receipt(operation, Committed, completed, NotRequired, None, startedAt, finishedAt);
      var failure := Seal(receipt);
      r := if failure.None? then Returned(receipt) else Threw("CUTOVER_RECEIPT_FINALIZATION_FAILED");
    }

    /** The order of calls: a prefix of the plan, then the compensation the boundary allows, and no other. */
    ghost predicate CallsInOrder()
      reads this
    {
      && ForwardCalls(trace) <= Planned(plan) && NeverRestoresDestroyed(trace) && RecoversOnce(trace)
      && (!irreversible && Calls(trace, Forward(Stage)) ==> Calls(trace, DiscardStaged))
      && (!irreversible && Disturbs(ForwardCalls(trace)) ==> Calls(trace, RestoreServices))
      && (irreversible && !replacementVerified ==> Calls(trace, RecoverFresh))
      && (replacementVerified ==> trace == Entries(Planned(plan), |Preparation(plan)|))
    }

    /** Executor, journal and outcome tell the same story. */
    ghost predicate Agrees(r: Outcome)
      reads this, journal
    {
      && journal.Valid() && completed <= Planned(plan) && AgreesWith(completed, CompletedIn(journal.Recorded()))
      && (r.Threw? && replacementVerified ==> r.code == "CUTOVER_RECEIPT_FINALIZATION_FAILED")
      && (r.Returned? ==>
            && ValidReceipt(r.receipt, journal.safe) && r.receipt.completed == completed
            && journal.completed && journal.receiptFile == Some(r.receipt)
            && (r.receipt.status == Committed ==>
                  && HasRuntime(plan.paths) && completed == Planned(plan) && CompletedIn(journal.Recorded()) == completed
                  && replacementVerified && calls > 0 && adapter(calls - 1) == Done(true))
            && (r.receipt.status == NotCommitted ==>
                  !replacementVerified && Tells(r.receipt.recovery, trace, adapter)))
    }

    /** The catch branch: compensate, then seal a receipt that says so. */
    method Abandon(code: Code, startedAt: int) returns (r: Outcome)
      requires Stopped()
      modifies `calls, `trace, `ticks, journal
      ensures CallsInOrder() && Agrees(r)
    {
      var recovery := Undo();
      hide CallsInOrder, CompletedIn, Planned, Tells;
      var finishedAt := Now();
      var receipt := Receipt(operation, NotCommitted, completed, recovery, Some(code), startedAt, finishedAt);
      var failure := Seal(receipt);
      r := if failure.None? then Returned(receipt) else Threw(failure.value);
    }

    lemma RanMeans(c: nat, d: nat, j: nat)
      requires Ran(c, d, j)
      ensures c <= |Planned(plan)| && trace == Entries(Planned(plan)[..c], |Preparation(plan)|)
      ensures if irreversible then c >= |Preparation(plan)| else c <= |Preparation(plan)|
      ensures Open() && completed <= Planned(plan) && AgreesWith(completed, CompletedIn(journal.Recorded()))
    {
      hide Planned, Preparation, Entries, Disturbs, CompletedIn;
    }

    method Undo() returns (recovery: Recovery)
      requires Stopped()
      modifies `calls, `trace
      ensures CallsInOrder() && Open() && Tells(recovery, trace, adapter)
      ensures completed <= Planned(plan) && AgreesWith(completed, CompletedIn(journal.Recorded()))
    {
      ghost var c, d, j :| Ran(c, d, j);
      RanMeans(c, d, j);
      hide Planned, Preparation, ForwardCalls, NeverRestoresDestroyed, RecoversOnce, Calls, Disturbs, Entries;
      hide Compensation, CompletedIn, AgreesWith, OnlyForward, Ran, Tells;
      CompensationLaws(plan, c, irreversible);
      recovery := Compensate(c, d, j);
      TellsAll(plan, c, irreversible, recovery, adapter);
    }

    /**
     * `executeV4Cutover`, whatever the adapter, the journal, the abort signal and the clock do.
     * `admission` is the first check to fail before the journal is begun, if one does.
     */
    method Execute(admission: Option<Code>) returns (r: Outcome)
      requires New()
      modifies this, journal
      ensures CallsInOrder() && Agrees(r)
      ensures admission.Some? ==> r == Threw(admission.value) && trace == [] && journal.begun.None?
    {
      NothingYet(plan);
      assert CompletedIn(journal.Recorded()) == [];
      hide Planned, Preparation, ForwardCalls, CompletedIn, Disturbs;
      if admission.Some? {
        return Threw(admission.value);
      }
      var startedAt := Now();
      var failure := journal.Begin(operation);
      if failure.Some? {
        return Threw(failure.value);
      }
      assert Between();
      hide Agrees, CallsInOrder, NeverRestoresDestroyed, RecoversOnce, Calls;
      r := Proceed(startedAt);
    }

    method Proceed(startedAt: int) returns (r: Outcome)
      requires Between() && completed == [] && !irreversible
      modifies this, journal
      ensures CallsInOrder() && Agrees(r)
    {
      hide Planned, Preparation, ForwardCalls, CompletedIn, Disturbs, NeverRestoresDestroyed, RecoversOnce, Calls;
      var failure := GoForward();
      if failure.None? {
        WholeTrace(plan);
        r := Finalize(startedAt);
      } else {
        r := Abandon(failure.value, startedAt);
      }
    }
  }

  lemma NothingYet(plan: Plan)
    ensures Entries(Planned(plan)[..0], |Preparation(plan)|) == [] && Planned(plan)[..0] == []
    ensures ForwardCalls([]) == [] && !Disturbs([]) && |Preparation(plan)| >= 2 && CompletedIn([]) == []
    ensures NeverRestoresDestroyed([]) && RecoversOnce([])
  {
    PreparationShape(plan);
  }

  /** The trace of a run that reached the end of the plan. */
  lemma WholeTrace(plan: Plan)
    ensures var trace := Entries(Planned(plan), |Preparation(plan)|);
            && ForwardCalls(trace) == Planned(plan) && NeverRestoresDestroyed(trace) && RecoversOnce(trace)
    ensures Planned(plan)[..|Planned(plan)|] == Planned(plan)
  {
    var p := Planned(plan);
    assert p[..|p|] == p && Entries(p, |Preparation(plan)|) + [] == Entries(p, |Preparation(plan)|);
    TraceLaws(plan, |p|, true, []);
  }
}
