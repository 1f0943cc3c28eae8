/** The same protocol run by one host at a time: where a fault leaves the files, and what recovery makes of them. */
module ChallengeHost {
  import opened Basics
  import opened ChallengeLedger
  import opened ChallengeProtocol
  import opened ChallengeSafety

  function Rank(stage: Stage): nat {
    match stage
    case Planned => 0 case BackupFilled => 1 case BackedUp => 2 case ReceiptOpened => 3
    case ReceiptFilled => 4 case ReceiptSynced => 5 case TempWritten => 6 case TempSynced => 7
    case Renamed => 8 case DirectorySynced => 9 case AppliedRenamed => 10 case AppliedSynced => 11
  }

  /** The applied receipt carries the clock it was written at. */
  ghost predicate CompletedAt(receipts: map<OperationId, Cell<Receipt>>, plan: Plan, stage: Stage, now: Instant) {
    Verdict(stage) ==>
      && plan.id in receipts && receipts[plan.id].disk != []
      && receipts[plan.id].Visible() == Whole(ReceiptOf(plan, AppliedStatus, Some(now)))
  }

  /** The files a commit leaves when it dies right after the effect `stage` names. */
  ghost predicate LeftAt(w: World, plan: Plan, stage: Stage, now: Instant) {
    && w.ledger.disk != []
    && FilesAt(w.receipts, w.backups, plan, stage) && CompletedAt(w.receipts, plan, stage, now)
    && w.ledger.Visible() == (if BeforeRename(stage) then plan.pre else Whole(plan.post))
  }

  lemma StillAtPre(w: World, plan: Plan)
    requires w.ledger.disk != [] && w.ledger.Visible() == plan.pre && ReadLedger(plan.pre).Success?
    ensures StillAt(w, plan.pre)
  {
    SameReferenceSelf(plan.pre);
  }

  /** Where an effect leads, and what it leaves alone. */
  ghost predicate Follows(w: World, v: World, pid: Pid, plan: Plan, stage: Stage) {
    && pid in v.procs && v.procs[pid].Committing? && v.procs[pid].plan == plan
    && Rank(v.procs[pid].stage) == Rank(stage) + (if stage == Planned && !plan.pre.Whole? then 2 else 1)
    && v.procs == w.procs[pid := v.procs[pid]] && v.consumed == w.consumed && v.registry == w.registry
    && v.challenges == w.challenges
  }

  lemma NextOnFiles(w: World, pid: Pid, plan: Plan, stage: Stage, tempDurable: bool, now: Instant)
    requires Running(w, pid, plan, stage, tempDurable) && OnFiles(stage) && w.ledger.disk != []
    requires stage == BackupFilled ==> plan.id in w.backups
    requires stage in {ReceiptOpened, ReceiptFilled, AppliedRenamed} ==> plan.id in w.receipts
    ensures Follows(w, Commit(w, pid, plan, stage, tempDurable, now), pid, plan, stage)
  {
    hide StillAt, ReceiptOf, RenameOver;
  }

  lemma NextOnLedger(w: World, pid: Pid, plan: Plan, stage: Stage, tempDurable: bool, now: Instant)
    requires Running(w, pid, plan, stage, tempDurable) && !OnFiles(stage) && stage != AppliedSynced
    requires w.ledger.disk != []
    requires stage == DirectorySynced ==> plan.id in w.receipts
    requires stage == ReceiptSynced || stage == TempSynced ==> StillAt(w, plan.pre)
    ensures Follows(w, Commit(w, pid, plan, stage, tempDurable, now), pid, plan, stage)
  {
    hide StillAt, ReceiptOf, RenameOver;
  }

  lemma CompletedNext(w: World, pid: Pid, plan: Plan, stage: Stage, tempDurable: bool, now: Instant)
    requires Running(w, pid, plan, stage, tempDurable) && stage != AppliedSynced && w.ledger.disk != []
    requires stage == BackupFilled ==> plan.id in w.backups
    requires stage in {ReceiptOpened, ReceiptFilled, DirectorySynced, AppliedRenamed} ==> plan.id in w.receipts
    requires stage == DirectorySynced ==> w.receipts[plan.id].disk != []
    requires CompletedAt(w.receipts, plan, stage, now)
    ensures var v := Commit(w, pid, plan, stage, tempDurable, now);
            pid in v.procs && v.procs[pid].Committing? ==> CompletedAt(v.receipts, plan, v.procs[pid].stage, now)
  {
    hide StillAt, ReceiptOf, RenameOver;
    assert Verdict(stage) <==> stage == AppliedRenamed;
  }

  /** Without interference every stage is followed by the next one. */
  lemma NextStage(w: World, pid: Pid, plan: Plan, stage: Stage, tempDurable: bool, now: Instant)
    requires RegistryOk(w.registry) && ProcessesOk(w)
    requires Running(w, pid, plan, stage, tempDurable) && stage != AppliedSynced
    requires CompletedAt(w.receipts, plan, stage, now)
    ensures CommitOk(w, plan, stage, tempDurable)
    ensures var v := Commit(w, pid, plan, stage, tempDurable, now);
            Follows(w, v, pid, plan, stage) && CompletedAt(v.receipts, plan, v.procs[pid].stage, now)
  {
    RunningOk(w, pid, plan, stage, tempDurable);
    if stage == ReceiptSynced || stage == TempSynced {
      assert PlanOk(plan);
      StillAtPre(w, plan);
    }
    if OnFiles(stage) {
      NextOnFiles(w, pid, plan, stage, tempDurable, now);
    } else {
      NextOnLedger(w, pid, plan, stage, tempDurable, now);
    }
    hide Commit, Follows;
    CompletedNext(w, pid, plan, stage, tempDurable, now);
  }

  lemma PlannedOk(w: World, plan: Plan)
    requires RegistryOk(w.registry) && plan.id in w.registry && w.registry[plan.id] == plan
    ensures PlanOk(plan)
  {
  }

  lemma RecoveringOk(w: World, pid: Pid, id: OperationId, verdict: ReceiptStatus)
    requires ProcessesOk(w) && pid in w.procs && w.procs[pid] == Recovering(id, verdict, false)
    ensures w.lock == Some(pid) && RecoverOk(w, id, verdict, false)
  {
    assert ProcessOk(w, pid, w.procs[pid]);
  }

  /** What a process that dies at `stage`, or returns after the last one, leaves behind. */
  lemma LeftBehind(w: World, pid: Pid, plan: Plan, stage: Stage, tempDurable: bool, now: Instant)
    requires ProcessesOk(w) && Running(w, pid, plan, stage, tempDurable) && CompletedAt(w.receipts, plan, stage, now)
    ensures w.lock == Some(pid) && LeftAt(w, plan, stage, now) && CommitOk(w, plan, stage, tempDurable)
  {
    RunningOk(w, pid, plan, stage, tempDurable);
  }

  lemma WrittenThenSynced(w: World, pid: Pid, id: OperationId, verdict: ReceiptStatus, now: Instant)
    requires w.lock == Some(pid) && pid in w.procs && RecoverOk(w, id, verdict, false)
    ensures var w1 := WriteVerdict(w, pid, id, verdict, now);
            && pid in w1.procs && w1.procs[pid] == Recovering(id, verdict, true) && id in w1.receipts
            && w1.lock == Some(pid) && w1.registry == w.registry && w1.ledger == w.ledger
            && var synced := w1.receipts[id].Sync();
            && synced.disk != [] && synced.Durable() == Whole(ReceiptOf(w.registry[id], verdict, Some(now)))
  {
  }

  /** The two effects that end a recovery: the verdict renamed over the receipt, then made durable. */
  lemma WriteThenSync(w: World, pid: Pid, id: OperationId, verdict: ReceiptStatus, now: Instant)
    requires Inv(w) && pid in w.procs && w.procs[pid] == Recovering(id, verdict, false)
    ensures var w1 := Step(w, Go(pid, id, _ => "", now));
            && Inv(w1)
            && var w2 := Step(w1, Go(pid, id, _ => "", now));
            && pid !in w2.procs && w2.lock.None? && w2.registry == w.registry && w2.ledger == w.ledger
            && id in w.registry && id in w2.receipts && w2.receipts[id].disk != []
            && w2.receipts[id].Durable() == Whole(ReceiptOf(w.registry[id], verdict, Some(now)))
  {
    RecoveringOk(w, pid, id, verdict);
    StepSafe(w, Go(pid, id, _ => "", now));
    WrittenThenSynced(w, pid, id, verdict, now);
    hide Inv, Grows, Commit, StartCommit, Decide, WriteVerdict;
    hide RequestOk, CommitOk, ReceiptParses;
    assert Step(w, Go(pid, id, _ => "", now)) == WriteVerdict(w, pid, id, verdict, now);
  }

  /** What the caller of a commit gets once it returns. */
  ghost predicate Committed(w: World, plan: Plan, now: Instant) {
    && w.ledger.disk != [] && w.ledger.Durable() == Whole(plan.post) && w.ledger.pending == []
    && plan.id in w.receipts && w.receipts[plan.id].disk != [] && w.receipts[plan.id].pending == []
    && w.receipts[plan.id].Durable() == Whole(ReceiptOf(plan, AppliedStatus, Some(now)))
  }

  lemma BothDurable(w: World, plan: Plan, now: Instant)
    requires CommitOk(w, plan, AppliedSynced, true) || CommitOk(w, plan, AppliedSynced, false)
    requires CompletedAt(w.receipts, plan, AppliedSynced, now)
    ensures Committed(w, plan, now)
  {
  }

  lemma StepIsCommit(w: World, pid: Pid, plan: Plan, stage: Stage, tempDurable: bool, now: Instant)
    requires Inv(w) && Running(w, pid, plan, stage, tempDurable)
    ensures CommitOk(w, plan, stage, tempDurable)
    ensures Step(w, Go(pid, plan.id, _ => "", now)) == Commit(w, pid, plan, stage, tempDurable, now)
  {
    RunningOk(w, pid, plan, stage, tempDurable);
    hide LedgerOk, RegistryOk, ReceiptsOk, BackupsOk, VerdictsOk, ConsumedOk, ProcessesOk, Decide, StartCommit, Commit;
  }

  lemma LastIsReturn(w: World, pid: Pid, plan: Plan, tempDurable: bool, now: Instant)
    requires w.ledger.disk != []
    ensures Commit(w, pid, plan, AppliedSynced, tempDurable, now) == Return(w, pid, plan)
  {
    hide Return;
  }

  /** The last event of a commit is its return. */
  lemma Returns(w: World, pid: Pid, plan: Plan, tempDurable: bool, now: Instant)
    requires Inv(w) && Running(w, pid, plan, AppliedSynced, tempDurable)
    requires CompletedAt(w.receipts, plan, AppliedSynced, now)
    ensures var v := Step(w, Go(pid, plan.id, _ => "", now));
            && v.procs == w.procs - {pid} && v.lock.None? && v.registry == w.registry && Committed(v, plan, now)
            && v.challenges == w.challenges
            && v.consumed == w.consumed
               + (if plan.operation.ConsumeOp? then [(plan.entry.keyId, plan.entry.challenge)] else [])
  {
    LeftBehind(w, pid, plan, AppliedSynced, tempDurable, now);
    BothDurable(w, plan, now);
    StepIsCommit(w, pid, plan, AppliedSynced, tempDurable, now);
    LastIsReturn(w, pid, plan, tempDurable, now);
    hide Inv, Step, Commit, LeftAt, CommitOk, FilesAt;
  }

  /** The process dies where it stands. */
  lemma Dies(w: World, pid: Pid, plan: Plan, stage: Stage, tempDurable: bool, now: Instant)
    requires Inv(w) && Running(w, pid, plan, stage, tempDurable) && CompletedAt(w.receipts, plan, stage, now)
    ensures var v := Step(w, Halt(pid));
            && v.procs == w.procs - {pid} && v.lock.None? && v.registry == w.registry
            && v.consumed == w.consumed && LeftAt(v, plan, stage, now)
  {
    LeftBehind(w, pid, plan, stage, tempDurable, now);
    hide LedgerOk, RegistryOk, ReceiptsOk, BackupsOk, VerdictsOk, ConsumedOk, ProcessesOk, CommitOk, FilesAt;
  }

  lemma NotYetCompleted(w: World, plan: Plan, now: Instant)
    ensures CompletedAt(w.receipts, plan, Planned, now)
  {
  }

  class Host {
    var world: World

    ghost predicate Valid()
      reads this
    {
      Inv(world)
    }

    constructor ()
      ensures Valid() && world == START
    {
      world := START;
      var s := START.ledger.States();
      assert |s| == 1 && s[0] == Absent;
    }

    method Do(e: Event)
      requires Valid()
      modifies this
      ensures Valid() && world == Step(old(world), e) && Grows(old(world), world)
    {
      StepSafe(world, e);
      world := Step(world, e);
    }

    /** One effect of a commit that is not its last. */
    method Next(pid: Pid, plan: Plan, stage: Stage, tempDurable: bool, now: Instant)
      returns (stage': Stage, tempDurable': bool)
      requires Valid() && Running(world, pid, plan, stage, tempDurable) && stage != AppliedSynced
      requires CompletedAt(world.receipts, plan, stage, now)
      modifies this
      ensures Valid() && Running(world, pid, plan, stage', tempDurable')
      ensures CompletedAt(world.receipts, plan, stage', now)
      ensures Rank(stage') == Rank(stage) + (if stage == Planned && !plan.pre.Whole? then 2 else 1)
      ensures world.procs == old(world.procs)[pid := Committing(plan, stage', tempDurable')]
      ensures world.registry == old(world.registry) && world.consumed == old(world.consumed)
      ensures world.challenges == old(world.challenges)
    {
      NextStage(world, pid, plan, stage, tempDurable, now);
      StepIsCommit(world, pid, plan, stage, tempDurable, now);
      hide Inv, Step, CommitOk, Commit, Grows, CompletedAt, Rank;
      Do(Go(pid, plan.id, _ => "", now));
      stage', tempDurable' := world.procs[pid].stage, world.procs[pid].tempDurable;
    }

    /**
     * `commitTransition`, alone on the host. With no fault it returns with the new
     * ledger and its applied receipt both durable; a fault leaves exactly `LeftAt`.
     */
    method CommitTransition(pid: Pid, plan: Plan, fault: Option<Stage>, now: Instant) returns (completed: bool)
      requires Valid() && Running(world, pid, plan, Planned, false)
      requires fault == Some(BackupFilled) ==> plan.pre.Whole?
      modifies this
      ensures Valid() && world.procs == old(world.procs) - {pid} && world.lock.None?
      ensures world.registry == old(world.registry)
      ensures completed ==> world.challenges == old(world.challenges)
      ensures completed <==> fault.None?
      ensures !completed ==> LeftAt(world, plan, fault.value, now) && world.consumed == old(world.consumed)
      ensures completed ==>
                && Committed(world, plan, now)
                && world.consumed == old(world.consumed)
                   + (if plan.operation.ConsumeOp? then [(plan.entry.keyId, plan.entry.challenge)] else [])
    {
      hide Inv, Grows, Step, Committed, LeftAt, CompletedAt;
      var stage, tempDurable := Planned, false;
      assert CompletedAt(world.receipts, plan, stage, now) by {
        NotYetCompleted(world, plan, now);
      }
      while stage != AppliedSynced && fault != Some(stage)
        invariant Valid() && Running(world, pid, plan, stage, tempDurable)
        invariant CompletedAt(world.receipts, plan, stage, now)
        invariant world.procs == old(world.procs)[pid := Committing(plan, stage, tempDurable)]
        invariant fault.Some? ==> Rank(stage) <= Rank(fault.value)
        invariant world.registry == old(world.registry) && world.consumed == old(world.consumed)
        invariant world.challenges == old(world.challenges)
        decreases Rank(AppliedSynced) - Rank(stage)
      {
        stage, tempDurable := Next(pid, plan, stage, tempDurable, now);
      }
      completed := fault != Some(stage);
      if completed {
        Returns(world, pid, plan, tempDurable, now);
        Do(Go(pid, plan.id, _ => "", now));
      } else {
        Dies(world, pid, plan, stage, tempDurable, now);
        Do(Halt(pid));
      }
    }

    /** A call up to its plan: begin, take the lock, read the ledger, decide. */
    method PlanCall(pid: Pid, request: Request, id: OperationId, generate: nat -> string, now: Instant)
      requires Valid() && pid !in world.procs && world.lock.None? && !request.RecoverCall?
      requires CanBegin(world, request) && Fresh(world, request, id, generate)
      modifies this
      ensures Valid() && old(world).ledger.disk != []
      ensures world == StartCommit(Admitted(old(world), pid, request), pid, request, id, generate)
    {
      hide LedgerOk, RegistryOk, ReceiptsOk, BackupsOk, VerdictsOk, ConsumedOk, ProcessesOk;
      hide Commit, StartCommit, Decide, WriteVerdict, Grows;
      LedgerThere(world);
      Do(Begin(pid, request));
      Do(Go(pid, id, generate, now));
      assert world.procs == Admitted(old(world), pid, request).procs;
      Do(Go(pid, id, generate, now));
    }

    /**
     * An issue, a consume or a rollback, alone on the host and without a fault: it commits exactly
     * when its plan can be made from the ledger as it is, and otherwise changes no file.
     */
    method Execute(pid: Pid, request: Request, id: OperationId, generate: nat -> string, now: Instant)
      returns (ok: bool)
      requires Valid() && pid !in world.procs && world.lock.None? && !request.RecoverCall?
      requires CanBegin(world, request) && Fresh(world, request, id, generate)
      modifies this
      ensures Valid() && world.procs == old(world.procs) && world.lock.None? && old(world).ledger.disk != []
      ensures var plan := PlanFor(old(world).ledger.Visible(), request, id, generate);
              && ok == plan.Success?
              && (ok ==>
                    && Committed(world, plan.value, now) && world.registry == old(world.registry)[id := plan.value]
                    && world.challenges == old(world.challenges) + {plan.value.entry.challenge}
                    && world.consumed == old(world.consumed)
                       + (if request.ConsumeCall? then [(plan.value.entry.keyId, plan.value.entry.challenge)] else []))
      ensures !ok ==> world == old(world)
    {
      PlanShape(world, request, id, generate);
      var plan := PlanFor(world.ledger.Visible(), request, id, generate);
      PlanCall(pid, request, id, generate, now);
      ok := plan.Success?;
      StartedAs(old(world), pid, request, id, generate);
      hide Inv, PlanFor, StartCommit, Committed, Fresh, CanBegin;
      if ok {
        var _ := CommitTransition(pid, plan.value, None, now);
      }
    }

    /** Recovery up to its decision: load the receipt, take the lock, compare. */
    method Compare(pid: Pid, id: OperationId, now: Instant)
      requires Valid() && pid !in world.procs && world.lock.None? && CanBegin(world, RecoverCall(id))
      modifies this
      ensures Valid()
      ensures var w := old(world);
              && w.ledger.disk != [] && id in w.receipts && w.receipts[id].disk != []
              && world == Decide(Entered(w, pid, id), pid, id)
    {
      hide LedgerOk, RegistryOk, ReceiptsOk, BackupsOk, VerdictsOk, ConsumedOk, ProcessesOk;
      hide Commit, StartCommit, Decide, WriteVerdict;
      Do(Begin(pid, RecoverCall(id)));
      Do(Go(pid, id, _ => "", now));
      assert world.procs == Entered(old(world), pid, id).procs;
      DecideStep(world, pid, id);
      Do(Go(pid, id, _ => "", now));
    }

    /** Recovery after its decision: rewrite the receipt, sync it, release. */
    method Record(pid: Pid, id: OperationId, verdict: ReceiptStatus, now: Instant)
      requires Valid() && pid in world.procs && world.procs[pid] == Recovering(id, verdict, false)
      modifies this
      ensures Valid() && pid !in world.procs && world.lock.None?
      ensures id in world.registry && world.registry == old(world.registry) && world.ledger == old(world.ledger)
      ensures id in world.receipts && world.receipts[id].disk != []
      ensures world.receipts[id].Durable() == Whole(ReceiptOf(world.registry[id], verdict, Some(now)))
    {
      RecoveringOk(world, pid, id, verdict);
      WriteThenSync(world, pid, id, verdict, now);
      hide Inv, Grows, Step, Advance;
      Do(Go(pid, id, _ => "", now));
      Do(Go(pid, id, _ => "", now));
    }

    /**
     * `recoverChallengeOperation` on a prepared receipt, alone on the host: applied if the
     * ledger shows the operation's result, aborted if it still shows its starting point,
     * and otherwise (drift, or an unreadable ledger) no verdict at all.
     */
    method Recover(pid: Pid, id: OperationId, now: Instant) returns (verdict: Option<ReceiptStatus>)
      requires Valid() && pid !in world.procs && world.lock.None? && CanBegin(world, RecoverCall(id))
      modifies this
      ensures Valid() && pid !in world.procs && world.lock.None?
      ensures id in old(world.registry) && world.registry == old(world.registry) && id in world.receipts
      ensures verdict ==
              var shown := old(world.ledger.Visible());
              var plan := old(world.registry[id]);
              if ReadLedger(shown).Failure? then None
              else if shown == Whole(plan.post) then Some(AppliedStatus)
              else if shown == plan.pre then Some(AbortedStatus)
              else None
      ensures world.ledger.disk != [] && world.ledger.Visible() == old(world.ledger.Visible())
      ensures verdict == Some(AppliedStatus) ==> world.ledger.Durable() == world.ledger.Visible()
      ensures verdict.None? ==> world.receipts[id] == old(world.receipts[id])
      ensures verdict.Some? ==>
                && world.receipts[id].disk != []
                && world.receipts[id].Durable() == Whole(ReceiptOf(world.registry[id], verdict.value, Some(now)))
    {
      VisibleReceipt(world, id);
      DecideMeans(world, pid, id);
      Compare(pid, id, now);
      if pid !in world.procs {
        return None;
      }
      verdict := Some(world.procs[pid].verdict);
      Record(pid, id, verdict.value, now);
    }
  }

  lemma LedgerThere(w: World)
    requires Inv(w)
    ensures w.ledger.disk != []
  {
  }

  /** The world in which a call holds the lock. */
  function Admitted(w: World, pid: Pid, request: Request): World {
    w.(procs := w.procs[pid := Holding(request)], lock := Some(pid))
  }

  lemma PlanShape(w: World, request: Request, id: OperationId, generate: nat -> string)
    requires Inv(w) && !request.RecoverCall?
    ensures w.ledger.disk != []
    ensures var plan := PlanFor(w.ledger.Visible(), request, id, generate);
            plan.Success? ==> plan.value.id == id && (plan.value.operation.ConsumeOp? <==> request.ConsumeCall?)
  {
    hide RegistryOk, ReceiptsOk, BackupsOk, VerdictsOk, ConsumedOk, ProcessesOk, Issue, Consume, Revoke;
  }

  /** What a call finds once its plan is made, or could not be. */
  lemma StartedAs(w: World, pid: Pid, request: Request, id: OperationId, generate: nat -> string)
    requires w.ledger.disk != [] && !request.RecoverCall? && pid !in w.procs && w.lock.None?
    ensures var v := StartCommit(Admitted(w, pid, request), pid, request, id, generate);
            var plan := PlanFor(w.ledger.Visible(), request, id, generate);
            if plan.Failure? then v == w
            else Running(v, pid, plan.value, Planned, false) && v.procs - {pid} == w.procs
                 && v.registry == w.registry[id := plan.value] && v.consumed == w.consumed
                 && v.challenges == w.challenges + {plan.value.entry.challenge}
  {
    hide PlanFor;
  }

  /** The world in which a recovery of `id` holds the lock. */
  function Entered(w: World, pid: Pid, id: OperationId): World {
    w.(procs := w.procs[pid := Holding(RecoverCall(id))], lock := Some(pid))
  }

  lemma DecideForm(w: World, pid: Pid, plan: Plan)
    requires w.ledger.disk != [] && plan.id in w.receipts && w.receipts[plan.id].disk != []
    requires ReceiptParses(Prepared(plan))
    requires w.receipts[plan.id].Visible() == Whole(Prepared(plan))
    ensures var current := ReadLedger(w.ledger.Visible());
            Decide(w, pid, plan.id) ==
            if current.Failure? then End(w, pid)
            else if SameReference(current.value, ReferenceOf(Whole(plan.post))) then
              Become(w, pid, Recovering(plan.id, AppliedStatus, false)).(ledger := w.ledger.Sync())
            else if SameReference(current.value, ReferenceOf(plan.pre)) then
              Become(w, pid, Recovering(plan.id, AbortedStatus, false))
            else End(w, pid)
  {
    hide ReceiptParses, SameReference, ReadLedger;
  }

  lemma EnteredThen(w: World, pid: Pid, id: OperationId, p: Process)
    requires pid !in w.procs
    ensures Become(Entered(w, pid, id), pid, p) == w.(procs := w.procs[pid := p], lock := Some(pid))
    ensures End(Entered(w, pid, id), pid) == w.(procs := w.procs, lock := None)
  {
  }

  /** The decision of recovery in terms of what the ledger shows. */
  lemma DecideMeans(w: World, pid: Pid, id: OperationId)
    requires RegistryOk(w.registry) && w.lock.None? && pid !in w.procs && w.ledger.disk != []
    requires CanBegin(w, RecoverCall(id)) && id in w.registry
    requires w.receipts[id].Visible() == Whole(Prepared(w.registry[id]))
    ensures var v := Decide(Entered(w, pid, id), pid, id);
            var shown, plan := w.ledger.Visible(), w.registry[id];
            && v.registry == w.registry && v.receipts == w.receipts && v.ledger.disk != [] && v.ledger.Visible() == shown
            && (if ReadLedger(shown).Failure? || (shown != Whole(plan.post) && shown != plan.pre) then
                  pid !in v.procs && v.lock.None?
                else if shown == Whole(plan.post) then
                  v.procs == w.procs[pid := Recovering(id, AppliedStatus, false)] && v.ledger.Durable() == shown
                else v.procs == w.procs[pid := Recovering(id, AbortedStatus, false)])
  {
    PlannedOk(w, w.registry[id]);
    DecideForm(Entered(w, pid, id), pid, w.registry[id]);
    EnteredThen(w, pid, id, Recovering(id, AppliedStatus, false));
    EnteredThen(w, pid, id, Recovering(id, AbortedStatus, false));
    hide Become, End, RegistryOk, PlanOk, ReceiptParses, Decide, SameReference, ReadLedger, ReferenceOf;
    if ReadLedger(w.ledger.Visible()).Success? {
      Verdicts(w.ledger.Visible(), w.registry[id]);
    }
  }

  /** The two reference comparisons of recovery, on a readable ledger. */
  lemma Verdicts(shown: Contents<Ledger>, plan: Plan)
    requires PlanOk(plan) && ReadLedger(shown).Success?
    ensures SameReference(ReadLedger(shown).value, ReferenceOf(Whole(plan.post))) <==> shown == Whole(plan.post)
    ensures SameReference(ReadLedger(shown).value, ReferenceOf(plan.pre)) <==> shown == plan.pre
  {
    if SameReference(ReadLedger(shown).value, ReferenceOf(Whole(plan.post))) {
      SameReferenceMeans(shown, Whole(plan.post));
    }
    if SameReference(ReadLedger(shown).value, ReferenceOf(plan.pre)) {
      SameReferenceMeans(shown, plan.pre);
    }
    SameReferenceSelf(shown);
  }

  /** A death between the two receipt writes leaves a receipt that recovery can load, if its clock is canonical. */
  lemma LeftRecoverable(w: World, plan: Plan, fault: Stage, now: Instant)
    requires LeftAt(w, plan, fault, now) && PlanOk(plan)
    requires !BeforeReceipt(fault) && fault != ReceiptOpened && !Verdict(fault)
    ensures CanBegin(w, RecoverCall(plan.id)) <==> CanonicalTime(plan.createdAt)
    ensures ReadLedger(w.ledger.Visible()).Success? <==> BeforeRename(fault) || Parses(plan.post)
    ensures Whole(plan.post) != plan.pre
  {
    PlanReceiptParses(plan, Whole(Prepared(plan)), PreparedStatus);
  }

  /**
   * A commit that dies between its prepared receipt and its applied one, then is recovered. Recovery
   * can begin exactly when the commit's clock was canonical. Before the rename its verdict is aborted;
   * after it, applied, provided that the new ledger can be read at all.
   */
  method FaultThenRecover(host: Host, pid: Pid, plan: Plan, fault: Stage, other: Pid, now: Instant)
    returns (verdict: Option<ReceiptStatus>)
    requires host.Valid() && Running(host.world, pid, plan, Planned, false) && other !in host.world.procs
    requires !BeforeReceipt(fault) && fault != ReceiptOpened && !Verdict(fault)
    modifies host
    ensures host.Valid()
    ensures verdict == if !CanonicalTime(plan.createdAt) then None
                       else if BeforeRename(fault) then Some(AbortedStatus)
                       else if Parses(plan.post) then Some(AppliedStatus)
                       else None
    ensures plan.id in host.world.receipts && host.world.receipts[plan.id].disk != []
    ensures verdict.Some? ==>
              host.world.receipts[plan.id].Durable() == Whole(ReceiptOf(plan, verdict.value, Some(now)))
    ensures verdict.None? ==> host.world.receipts[plan.id].Visible() == Whole(Prepared(plan))
  {
    RunningOk(host.world, pid, plan, Planned, false);
    PlannedOk(host.world, plan);
    hide Inv, CommitOk, PlanOk;
    var completed := host.CommitTransition(pid, plan, Some(fault), now);
    LeftRecoverable(host.world, plan, fault, now);
    LeftPrepared(host.world, plan, fault, now);
    hide ParseLedger, ReadLedger, FilesAt, CanBegin, LeftAt;
    if !CanonicalTime(plan.createdAt) {
      return None;
    }
    verdict := host.Recover(other, plan.id, now);
  }

  lemma LeftPrepared(w: World, plan: Plan, fault: Stage, now: Instant)
    requires LeftAt(w, plan, fault, now)
    requires !BeforeReceipt(fault) && fault != ReceiptOpened && !Verdict(fault)
    ensures plan.id in w.receipts && w.receipts[plan.id].disk != []
    ensures w.receipts[plan.id].Visible() == Whole(Prepared(plan))
    ensures w.ledger.disk != [] && w.ledger.Visible() == (if BeforeRename(fault) then plan.pre else Whole(plan.post))
  {
  }

  lemma ConsumePlanNames(visible: Contents<Ledger>, keyId: string, challenge: string, nowMs: int, id: OperationId,
                         generate: nat -> string)
    requires PlanFor(visible, ConsumeCall(keyId, challenge, nowMs), id, generate).Success?
    ensures var plan := PlanFor(visible, ConsumeCall(keyId, challenge, nowMs), id, generate).value;
            plan.operation.ConsumeOp? && plan.entry.keyId == keyId && plan.entry.challenge == challenge && plan.id == id
  {
    hide ParseLedger, Parses;
  }

  /** A ledger that holds the result of a consume lets nobody consume that challenge again. */
  lemma ConsumedIsSpent(w: World, plan: Plan, now: Instant, nowMs: int, id: OperationId, generate: nat -> string)
    requires PlanOk(plan) && plan.operation.ConsumeOp? && Committed(w, plan, now)
    ensures PlanFor(w.ledger.Visible(), ConsumeCall(plan.entry.keyId, plan.entry.challenge, nowMs), id, generate).Failure?
  {
    assert w.ledger.Visible() == Whole(plan.post);
    hide ParseLedger, Parses, Committed;
  }

  /** Two consume calls for one challenge: if the first returns success, the second does not. */
  method ConsumeTwice(host: Host, pid: Pid, keyId: string, challenge: string, first: int, second: int,
                      one: OperationId, two: OperationId, generate: nat -> string, now: Instant)
    returns (once: bool, twice: bool)
    requires host.Valid() && pid !in host.world.procs && host.world.lock.None? && one != two
    requires Fresh(host.world, ConsumeCall(keyId, challenge, first), one, generate)
    requires Fresh(host.world, ConsumeCall(keyId, challenge, second), two, generate)
    requires forall i | 0 <= i < ISSUE_ATTEMPTS :: generate(i) != challenge
    modifies host
    ensures host.Valid() && !(once && twice)
    ensures old(host.world).ledger.disk != []
    ensures once == PlanFor(old(host.world).ledger.Visible(), ConsumeCall(keyId, challenge, first), one, generate).Success?
  {
    hide Inv, PlanFor, Committed, CanBegin, PlanOk;
    assert CanBegin(host.world, ConsumeCall(keyId, challenge, first)) by {
      MayConsume(host.world, keyId, challenge, first);
    }
    once := host.Execute(pid, ConsumeCall(keyId, challenge, first), one, generate, now);
    if once {
      ConsumePlanNames(old(host.world).ledger.Visible(), keyId, challenge, first, one, generate);
      PlannedIn(host.world, one);
      ConsumedIsSpent(host.world, host.world.registry[one], now, second, two, generate);
    }
    MayConsume(host.world, keyId, challenge, second);
    twice := host.Execute(pid, ConsumeCall(keyId, challenge, second), two, generate, now);
  }

  lemma MayConsume(w: World, keyId: string, challenge: string, nowMs: int)
    ensures CanBegin(w, ConsumeCall(keyId, challenge, nowMs))
  {
  }

  function OtherChallenge(): (c: string)
    ensures ValidChallenge(c) && c != SampleChallenge()
  {
    var c := seq(64, _ => 'b');
    assert c[0] != SampleChallenge()[0];
    c
  }

  function SamplePlan(): Plan {
    Plan(IssueOp, "op", 10, SampleEntry(10), Absent, Ledger(1, Some("op"), 10, [SampleEntry(10)]))
  }

  lemma SamplePlans()
    ensures PlanFor(Absent, IssueCall(IssueRequest("k", 10, 1, 90_000)), "op", _ => SampleChallenge())
            == Success(SamplePlan())
    ensures PlanFor(Whole(Ledger(1, Some("op"), 10, [SampleEntry(10)])), ConsumeCall("k", SampleChallenge(), 10), "op2",
                    _ => OtherChallenge()).Success?
  {
    var issued := Ledger(1, Some("op"), 10, [SampleEntry(10)]);
    SampleIssue(10);
    IssueReadable(INITIAL, IssueRequest("k", 10, 1, 90_000), _ => SampleChallenge(), "op");
    SampleConsume();
    hide ParseLedger, Issue, Consume, SampleChallenge, OtherChallenge;
  }

  lemma SampleConsume()
    ensures Consume(Ledger(1, Some("op"), 10, [SampleEntry(10)]), "k", SampleChallenge(), 10, "op2").Success?
  {
    var spent := SampleEntry(10).(status := Consumed, consumedAt := Some(10));
    assert EntryFor([SampleEntry(10)], "k", SampleChallenge()) == Some(SampleEntry(10));
    assert Replace([SampleEntry(10)], spent) == [spent];
    assert Sort([spent]) == [spent];
    assert EntriesSize([spent]) == EntrySize(spent);
  }

  /** A run from the start in which a challenge is issued, consumed once, and refused the second time. */
  method FirstUse() returns (issued: bool, consumed: bool, again: bool)
    ensures issued && consumed && !again
  {
    var host := new Host();
    SamplePlans();
    hide Inv, PlanFor, Committed, StartCommit;
    issued := host.Execute(0, IssueCall(IssueRequest("k", 10, 1, 90_000)), "op", _ => SampleChallenge(), 10);
    assert host.world.ledger.Visible() == Whole(Ledger(1, Some("op"), 10, [SampleEntry(10)])) by {
      CommittedShows(host.world, host.world.registry["op"], 10);
    }
    consumed, again := ConsumeTwice(host, 0, "k", SampleChallenge(), 10, 10, "op2", "op3", _ => OtherChallenge(), 10);
  }

  /**
   * Rolling that issue back at a clock past year 9999 is not refused, but neither the receipt
   * nor the ledger it writes is accepted again.
   */
  lemma LateRollbackUnreadable(generate: nat -> string)
    ensures StampedBy("+op", MAX_CANONICAL_MS + 1)
    ensures var request := RevokeCall(ReceiptOf(SamplePlan(), AppliedStatus, Some(10)), MAX_CANONICAL_MS + 1);
            var plan := PlanFor(Whole(SamplePlan().post), request, "+op", generate);
            && plan.Success? && plan.value.id == "+op" && plan.value.createdAt == MAX_CANONICAL_MS + 1
            && !ReceiptParses(Prepared(plan.value)) && !Parses(plan.value.post)
  {
    SampleReads();
    SampleRevoke(MAX_CANONICAL_MS + 1, "+op");
    RevokeReadable(SamplePlan().post, "k", SampleChallenge(), MAX_CANONICAL_MS + 1, "+op");
    hide Parses, Revoke, SampleChallenge, SameReference, ReadLedger;
  }

  lemma SampleReads()
    ensures var post := SamplePlan().post;
            && Parses(post) && ReadLedger(Whole(post)) == Success(Snapshot(true, Sha256(post), post))
            && SameReference(Snapshot(true, Sha256(post), post), ReferenceOf(Whole(post)))
  {
    SampleIssue(10);
    IssueReadable(INITIAL, IssueRequest("k", 10, 1, 90_000), _ => SampleChallenge(), "op");
    hide ParseLedger, Issue;
  }

  /** The run that does so, from the absent ledger. */
  method LateRollback() returns (issued: bool, rolledBack: bool, receiptLoads: bool, ledgerReads: bool)
    ensures issued && rolledBack && !receiptLoads && !ledgerReads
  {
    var host := new Host();
    SamplePlans();
    hide Inv, PlanFor, Committed, StartCommit;
    issued := host.Execute(0, IssueCall(IssueRequest("k", 10, 1, 90_000)), "op", _ => SampleChallenge(), 10);
    CommittedShows(host.world, SamplePlan(), 10);
    var late := RevokeCall(ReceiptOf(SamplePlan(), AppliedStatus, Some(10)), MAX_CANONICAL_MS + 1);
    assert CanBegin(host.world, late) by {
      SampleSource(host.world, MAX_CANONICAL_MS + 1);
    }
    LateRollbackUnreadable(_ => OtherChallenge());
    ghost var plan := PlanFor(Whole(SamplePlan().post), late, "+op", _ => OtherChallenge()).value;
    rolledBack := host.Execute(0, late, "+op", _ => OtherChallenge(), 10);
    CommittedShows(host.world, plan, 10);
    receiptLoads := ReceiptParses(host.world.receipts["+op"].Visible().value);
    ledgerReads := ReadLedger(host.world.ledger.Visible()).Success?;
  }

  lemma CommittedShows(w: World, plan: Plan, now: Instant)
    requires Committed(w, plan, now)
    ensures w.ledger.disk != [] && w.ledger.Visible() == Whole(plan.post)
    ensures plan.id in w.receipts && w.receipts[plan.id].disk != []
    ensures w.receipts[plan.id].Visible() == Whole(ReceiptOf(plan, AppliedStatus, Some(now)))
  {
  }

  lemma SampleSource(w: World, nowMs: int)
    requires Committed(w, SamplePlan(), 10)
    ensures CanBegin(w, RevokeCall(ReceiptOf(SamplePlan(), AppliedStatus, Some(10)), nowMs))
  {
    CommittedShows(w, SamplePlan(), 10);
  }
}
