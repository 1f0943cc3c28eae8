/** What holds in every run of the ledger protocol, read off its invariant. */
module ChallengeRuns {
  import opened Basics
  import opened ChallengeLedger
  import opened ChallengeProtocol
  import opened ChallengeSafety

  lemma StartOk()
    ensures Inv(START)
  {
    var s := START.ledger.States();
    assert |s| == 1 && s[0] == Absent;
  }

  /** The world after any finite interleaving of calls, steps, deaths and power losses. */
  function Run(events: seq<Event>): (w: World)
    ensures Inv(w)
  {
    if events == [] then
      StartOk(); START
    else
      var w := Run(events[..|events| - 1]);
      StepSafe(w, Last(events));
      Step(w, Last(events))
  }

  lemma GrowsTransitive(u: World, v: World, w: World)
    requires Grows(u, v) && Grows(v, w)
    ensures Grows(u, w)
  {
  }

  /** Continuing a run takes nothing back. */
  lemma {:induction false} RunGrows(events: seq<Event>, more: seq<Event>)
    ensures Grows(Run(events), Run(events + more))
  {
    if more == [] {
      assert events + more == events;
    } else {
      var before := more[..|more| - 1];
      RunGrows(events, before);
      assert (events + more)[..|events + more| - 1] == events + before;
      assert Last(events + more) == Last(more);
      StepSafe(Run(events + before), Last(more));
      GrowsTransitive(Run(events), Run(events + before), Run(events + more));
    }
  }

  lemma VersionOk(w: World, id: OperationId, c: Contents<Receipt>)
    requires Inv(w) && id in w.receipts && c in w.receipts[id].States() && c.Whole?
    ensures id in w.registry && Says(c, w.registry[id], c.value.status)
    ensures c.value.status.AppliedStatus? ==> id in w.applied
    ensures c.value.status.AbortedStatus? ==> id in w.aborted
  {
    assert ReceiptOk(w.receipts[id], w.registry[id], id in w.applied, id in w.aborted);
  }

  // ------------------------------------------------------------------ verdicts

  /** A receipt that ever says applied belongs to a ledger that really became durable. */
  lemma AppliedMeansDurable(events: seq<Event>, id: OperationId, c: Contents<Receipt>)
    requires id in Run(events).receipts && c in Run(events).receipts[id].States()
    requires c.Whole? && c.value.status.AppliedStatus?
    ensures id in Run(events).registry
    ensures Whole(Run(events).registry[id].post) in Run(events).ledger.disk
  {
    VersionOk(Run(events), id, c);
  }

  /**
   * A receipt that ever says aborted belongs to a ledger that was never durable, and that no
   * later content of the ledger file, durable or pending, brings back.
   */
  lemma AbortedMeansNever(events: seq<Event>, more: seq<Event>, id: OperationId, c: Contents<Receipt>)
    requires id in Run(events).receipts && c in Run(events).receipts[id].States()
    requires c.Whole? && c.value.status.AbortedStatus?
    ensures id in Run(events).registry
    ensures Whole(Run(events).registry[id].post) !in Run(events + more).ledger.States()
  {
    VersionOk(Run(events), id, c);
    RunGrows(events, more);
  }

  /** No operation is ever seen both applied and aborted. */
  lemma VerdictsExclusive(events: seq<Event>)
    ensures Run(events).applied !! Run(events).aborted
  {
    var w := Run(events);
    forall id | id in w.applied ensures id !in w.aborted {
      assert Whole(w.registry[id].post) in w.ledger.States();
    }
  }

  lemma TerminalCell(before: Cell<Receipt>, after: Cell<Receipt>, plan: Plan, applied: bool, aborted: bool)
    requires ReceiptOk(after, plan, applied, aborted) && before.disk != [] && before.disk <= after.disk
    requires Terminal(before.Durable())
    ensures after.Durable() == after.Visible() == before.Durable()
  {
    var s, n := after.States(), |before.disk| - 1;
    assert s[n] == after.disk[n] == before.Durable();
    assert s[|s| - 1] == after.Visible() && s[|after.disk| - 1] == after.Durable();
  }

  /** Once a verdict is durable it is the receipt's content for good, visibly and durably. */
  lemma VerdictIsFinal(events: seq<Event>, more: seq<Event>, id: OperationId)
    requires id in Run(events).receipts && Run(events).receipts[id].disk != []
    requires Terminal(Run(events).receipts[id].Durable())
    ensures id in Run(events + more).receipts && Run(events + more).receipts[id].disk != []
    ensures Run(events + more).receipts[id].Durable() == Run(events).receipts[id].Durable()
    ensures Run(events + more).receipts[id].Visible() == Run(events).receipts[id].Durable()
  {
    var v := Run(events + more);
    RunGrows(events, more);
    assert ReceiptOk(v.receipts[id], v.registry[id], id in v.applied, id in v.aborted);
    TerminalCell(Run(events).receipts[id], v.receipts[id], v.registry[id], id in v.applied, id in v.aborted);
  }

  /** While its process is still committing, an operation has no aborted receipt. */
  lemma InFlightNeverAborted(events: seq<Event>, pid: Pid, c: Contents<Receipt>)
    requires pid in Run(events).procs && Run(events).procs[pid].Committing?
    requires Run(events).procs[pid].plan.id in Run(events).receipts
    requires c in Run(events).receipts[Run(events).procs[pid].plan.id].States()
    ensures !(c.Whole? && c.value.status.AbortedStatus?)
  {
    var w := Run(events);
    assert ProcessOk(w, pid, w.procs[pid]);
    if c.Whole? {
      VersionOk(w, w.procs[pid].plan.id, c);
    }
  }

  /** Every receipt written in any run is loaded again exactly when the clocks it was given are canonical. */
  lemma ReceiptsParse(events: seq<Event>, id: OperationId, c: Contents<Receipt>)
    requires id in Run(events).receipts && c in Run(events).receipts[id].States() && c.Whole?
    ensures ReceiptParses(c.value) <==>
            CanonicalTime(c.value.createdAt)
            && (c.value.completedAt.Some? ==> CanonicalTime(c.value.completedAt.value))
  {
    VersionOk(Run(events), id, c);
    PlannedIn(Run(events), id);
    PlanReceiptParses(Run(events).registry[id], c, c.value.status);
  }

  /** A receipt file is only ever there beside a durable copy of the ledger it replaces. */
  lemma BackupBeforeReceipt(events: seq<Event>, id: OperationId)
    requires id in Run(events).receipts
    ensures id in Run(events).registry
    ensures Run(events).registry[id].pre.Whole? ==>
              && id in Run(events).backups && Run(events).backups[id].disk != []
              && Run(events).backups[id].Durable() == Run(events).registry[id].pre
  {
    var w := Run(events);
    assert BackedUpBy(w.backups, w.registry[id]);
  }

  // ------------------------------------------------------------ entries, ledger

  /** No challenge is successfully consumed twice, whatever happened in between. */
  lemma ConsumedOnce(events: seq<Event>)
    ensures NoDuplicates(Run(events).consumed)
  {
    assert ConsumedOk(Run(events).ledger, Run(events).consumed);
  }

  /** After a successful consume, no later ledger shows the challenge as issued. */
  lemma ConsumedStaysClosed(events: seq<Event>, more: seq<Event>, x: (string, string))
    requires x in Run(events).consumed
    ensures Run(events + more).ledger.disk != []
    ensures forall e | e in StateOf(Run(events + more).ledger.Visible()).entries && Names(e, x.0, x.1) ::
              !e.status.Issued?
  {
    var v := Run(events + more);
    RunGrows(events, more);
    DiskGrows(Run(events).ledger, v.ledger, Run(events).consumed);
    assert x == (x.0, x.1);
    forall e | e in StateOf(v.ledger.Visible()).entries && Names(e, x.0, x.1) ensures !e.status.Issued? {
      if e.status.Issued? {
        NotYetConsumed(v.ledger, v.challenges, Run(events).consumed, x.0, x.1);
      }
    }
  }

  /** Through the durable history an entry only stays, or moves once from issued to a terminal status. */
  lemma EntriesOnlyAdvance(events: seq<Event>, i: nat, j: nat, e: Entry, f: Entry)
    requires i <= j < |Run(events).ledger.disk|
    requires e in StateOf(Run(events).ledger.disk[i]).entries && f in StateOf(Run(events).ledger.disk[j]).entries
    requires Names(f, e.keyId, e.challenge)
    ensures Advances(e, f)
  {
    var cell := Run(events).ledger;
    var s := cell.States();
    assert s[i] == cell.disk[i] && s[j] == cell.disk[j];
    assert Later(StateOf(s[i]), StateOf(s[j]));
  }

  lemma CellNeverTorn(cell: Cell<Ledger>, challenges: set<string>, keep: nat)
    requires LedgerOk(cell, challenges)
    ensures !cell.Visible().Torn? && !cell.Lose(keep).Visible().Torn?
    ensures Generation(cell.Durable()) <= Generation(cell.Lose(keep).Visible()) <= Generation(cell.Visible())
  {
    var s := cell.States();
    var n := |cell.disk| - 1 + if 0 < keep <= |cell.pending| then keep else 0;
    assert s[|s| - 1] == cell.Visible() && s[n] == cell.Lose(keep).Visible() && s[|cell.disk| - 1] == cell.Durable();
    assert forall i | 0 <= i < |s| - 1 :: Generation(s[i]) < Generation(s[|s| - 1]);
  }

  /** The ledger name never shows a torn file, before or after power loss, and never goes back. */
  lemma LedgerNeverTorn(events: seq<Event>, keep: nat)
    ensures Run(events).ledger.disk != []
    ensures !Run(events).ledger.Visible().Torn? && !Run(events).ledger.Lose(keep).Visible().Torn?
    ensures Generation(Run(events).ledger.Durable()) <= Generation(Run(events).ledger.Lose(keep).Visible())
            <= Generation(Run(events).ledger.Visible())
  {
    CellNeverTorn(Run(events).ledger, Run(events).challenges, keep);
  }

  /** One process at a time is past the lock. */
  lemma MutualExclusion(events: seq<Event>, p: Pid, q: Pid)
    requires p in Run(events).procs && q in Run(events).procs && p != q
    ensures Run(events).procs[p].Waiting? || Run(events).procs[q].Waiting?
  {
    var w := Run(events);
    assert ProcessOk(w, p, w.procs[p]) && ProcessOk(w, q, w.procs[q]);
  }

  /** Neither drift check of a commit can fail while every writer takes the lock. */
  lemma CommitNeverDrifts(events: seq<Event>, pid: Pid)
    requires pid in Run(events).procs && Run(events).procs[pid].Committing?
    requires BeforeRename(Run(events).procs[pid].stage)
    ensures Run(events).ledger.disk != [] && StillAt(Run(events), Run(events).procs[pid].plan.pre)
  {
    var w := Run(events);
    assert ProcessOk(w, pid, w.procs[pid]);
    assert PlanOk(w.procs[pid].plan);
    SameReferenceSelf(w.procs[pid].plan.pre);
  }

  /**
   * The "would reopen terminal state" branch of rollback is dead: a ledger that still
   * matches the issue's own result still holds the issued entry.
   */
  lemma RollbackNeverReopens(events: seq<Event>, pid: Pid, source: Receipt, nowMs: int)
    requires pid in Run(events).procs
    requires Run(events).procs[pid] == Holding(RevokeCall(source, nowMs))
    ensures Run(events).ledger.disk != []
    ensures var read := ReadLedger(Run(events).ledger.Visible());
            read.Success? && SameReference(read.value, source.post) ==>
              var found := EntryFor(read.value.state.entries, source.keyId, source.challenge);
              found.Some? && found.value.status.Issued?
  {
    var w := Run(events);
    assert ProcessOk(w, pid, w.procs[pid]);
    var plan := w.registry[source.operationId];
    assert PlanOk(plan);
    var read := ReadLedger(w.ledger.Visible());
    if read.Success? && SameReference(read.value, source.post) {
      SameReferenceMeans(w.ledger.Visible(), Whole(plan.post));
    }
  }
}
