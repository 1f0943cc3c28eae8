/** Every run of the ledger protocol, under every interleaving and fault, keeps its invariant. */
module ChallengeSafety {
  import opened Basics
  import opened ChallengeLedger
  import opened ChallengeProtocol

  // ------------------------------------------------------------ ledger history

  /** Dropping any part of the un-synced history leaves a good history. */
  lemma LedgerOkKeep(cell: Cell<Ledger>, challenges: set<string>, n: nat)
    requires LedgerOk(cell, challenges)
    requires n < |cell.pending|
    ensures LedgerOk(Cell(cell.disk + [cell.pending[n]], []), challenges)
  {
    var s, d := cell.States(), |cell.disk|;
    var t := Cell(cell.disk + [cell.pending[n]], []).States();
    assert forall i | 0 <= i < d :: t[i] == s[i];
    assert t[d] == s[d + n] && |t| == d + 1;
    forall i | 0 <= i < d ensures Generation(t[i]) < Generation(t[d]) && Later(StateOf(t[i]), StateOf(t[d])) {
      assert Generation(s[i]) < Generation(s[d + n]);
    }
  }

  /** A content that becomes durable on its own skips the un-synced ones before it, and no more. */
  lemma FlushStates<T>(cell: Cell<T>, n: nat)
    requires cell.disk != []
    ensures var s, t, d := cell.States(), cell.Flush(n).States(), |cell.disk|;
            var skipped := if 0 < n <= |cell.pending| then n - 1 else 0;
            && |t| == |s| - skipped
            && forall i | 0 <= i < |t| :: t[i] == s[if i < d then i else i + skipped]
    ensures cell.disk <= cell.Flush(n).disk && cell.Flush(n).Visible() == cell.Visible()
    ensures cell.pending == [] ==> cell.Flush(n) == cell
  {
  }

  lemma LedgerOkFlush(cell: Cell<Ledger>, challenges: set<string>, n: nat)
    requires LedgerOk(cell, challenges)
    ensures LedgerOk(cell.Flush(n), challenges)
    ensures forall c | c in cell.Flush(n).States() :: c in cell.States()
  {
    FlushStates(cell, n);
    hide Later, Generation;
    var s, t, d := cell.States(), cell.Flush(n).States(), |cell.disk|;
    var skipped := |s| - |t|;
    forall i, j | 0 <= i <= j < |t|
      ensures i < j ==> Generation(t[i]) < Generation(t[j])
      ensures Later(StateOf(t[i]), StateOf(t[j]))
    {
      var k, l := if i < d then i else i + skipped, if j < d then j else j + skipped;
      assert t[i] == s[k] && t[j] == s[l];
    }
  }

  lemma LedgerOkDrop(cell: Cell<Ledger>, challenges: set<string>)
    requires LedgerOk(cell, challenges)
    ensures LedgerOk(Cell(cell.disk, []), challenges)
  {
    var s, t := cell.States(), Cell(cell.disk, []).States();
    assert forall i | 0 <= i < |t| :: t[i] == s[i];
  }

  lemma LedgerOkSync(cell: Cell<Ledger>, challenges: set<string>)
    requires LedgerOk(cell, challenges)
    ensures LedgerOk(cell.Sync(), challenges)
    ensures cell.Sync().Visible() == cell.Visible() == cell.Sync().Durable()
    ensures cell.Sync().pending == [] && cell.disk <= cell.Sync().disk
    ensures forall c | c in cell.Sync().States() :: c in cell.States()
  {
    if cell.pending != [] {
      LedgerOkKeep(cell, challenges, |cell.pending| - 1);
    }
  }

  lemma LedgerOkMore(cell: Cell<Ledger>, challenges: set<string>, more: set<string>)
    requires LedgerOk(cell, challenges) && challenges <= more
    ensures LedgerOk(cell, more)
  {
  }

  lemma LaterStep(s: Ledger, pre: Ledger, post: Ledger, minted: Option<string>)
    requires Later(s, pre) && Evolves(pre, post, minted)
    requires minted.Some? ==> forall e | e in s.entries :: e.challenge != minted.value
    ensures Later(s, post)
  {
    forall e, f | e in s.entries && f in post.entries && Names(f, e.keyId, e.challenge)
      ensures Advances(e, f)
    {
      if f !in pre.entries {
        var g :| g in pre.entries && Names(f, g.keyId, g.challenge) && Advances(g, f) && !f.status.Issued?;
        assert Names(g, e.keyId, e.challenge) && Advances(e, g);
      }
    }
  }

  lemma LaterSelf(l: Ledger)
    requires UniqueKeys(l.entries)
    ensures Later(l, l)
  {
    forall e, f | e in l.entries && f in l.entries && Names(f, e.keyId, e.challenge) ensures e == f {
      EntryForFinds(l.entries, e);
      EntryForFinds(l.entries, f);
    }
  }

  /** A transition of the visible ledger extends a good history. */
  lemma LedgerOkExtend(cell: Cell<Ledger>, challenges: set<string>, post: Ledger, minted: Option<string>)
    requires LedgerOk(cell, challenges)
    requires Evolves(StateOf(cell.Visible()), post, minted) && UniqueKeys(post.entries)
    requires minted.Some? ==> minted.value !in challenges
    ensures LedgerOk(cell.Put(Whole(post)), if minted.Some? then challenges + {minted.value} else challenges)
  {
    var s := cell.States();
    var t := cell.Put(Whole(post)).States();
    var n := |s|;
    var pre := StateOf(cell.Visible());
    assert t == s + [Whole(post)] && s[n - 1] == cell.Visible();
    forall i | 0 <= i < n ensures Later(StateOf(s[i]), post) && Generation(s[i]) < post.generation {
      LaterStep(StateOf(s[i]), pre, post, minted);
    }
    LaterSelf(post);
    forall f | f in post.entries
      ensures f.challenge in (if minted.Some? then challenges + {minted.value} else challenges)
    {
      if f !in pre.entries && minted != Some(f.challenge) {
        var g :| g in pre.entries && Names(f, g.keyId, g.challenge);
      }
    }
  }

  // ------------------------------------------------------------------ planning

  lemma SameReferenceMeans(c: Contents<Ledger>, d: Contents<Ledger>)
    requires ReadLedger(c).Success? && !d.Torn?
    requires SameReference(ReadLedger(c).value, ReferenceOf(d))
    ensures c == d
  {
  }

  lemma SameReferenceSelf(c: Contents<Ledger>)
    requires ReadLedger(c).Success?
    ensures SameReference(ReadLedger(c).value, ReferenceOf(c))
  {
  }

  lemma ReadableVisible(c: Contents<Ledger>)
    requires ReadLedger(c).Success?
    ensures Readable(StateOf(c)) && ReadLedger(c).value.state == StateOf(c)
    ensures UniqueKeys(StateOf(c).entries) && forall e | e in StateOf(c).entries :: ParseEntry(e).Success?
  {
    ReadableFacts(StateOf(c));
  }

  lemma PostUnique(pre: Ledger, operationId: string, now: nat, es: seq<Entry>, entry: Entry)
    requires UniqueKeys(es) && entry in es
    ensures UniqueKeys(Sort(es)) && EntryFor(Sort(es), entry.keyId, entry.challenge) == Some(entry)
  {
    SortSorts(es);
    StrictlySortedUnique(Sort(es));
    SortMembers(es, entry);
    EntryForFinds(Sort(es), entry);
  }

  lemma IssuePlan(cell: Cell<Ledger>, challenges: set<string>, q: IssueRequest, id: OperationId, generate: nat -> string)
    requires LedgerOk(cell, challenges) && StampedBy(id, q.nowMs)
    requires forall i | 0 <= i < ISSUE_ATTEMPTS :: ValidChallenge(generate(i)) && generate(i) !in challenges
    requires PlanFor(cell.Visible(), IssueCall(q), id, generate).Success?
    ensures var p := PlanFor(cell.Visible(), IssueCall(q), id, generate).value;
            PlanOk(p) && p.pre == cell.Visible() && p.operation == IssueOp && p.id == id
            && LedgerOk(cell.Put(Whole(p.post)), challenges + {p.entry.challenge})
  {
    var pre := StateOf(cell.Visible());
    ReadableVisible(cell.Visible());
    var c := Issue(pre, q, generate, id).value;
    var kept := Prune(pre.entries, q.nowMs);
    IssueForm(pre, q, generate, id);
    IssueEntryForm(kept, q, generate);
    PruneUnique(pre.entries, q.nowMs);
    AppendUnique(kept, c.entry);
    assert c.entry in kept + [c.entry];
    PostUnique(pre, id, c.entry.issuedAt, kept + [c.entry], c.entry);
    AppendEvolves(pre, c.post, q.nowMs, c.entry);
    LedgerOkExtend(cell, challenges, c.post, Some(c.entry.challenge));
  }

  lemma VisibleEntry(cell: Cell<Ledger>, challenges: set<string>, e: Entry)
    requires LedgerOk(cell, challenges) && ReadLedger(cell.Visible()).Success?
    requires e in StateOf(cell.Visible()).entries
    ensures e.challenge in challenges && ValidKeyId(e.keyId) && ValidChallenge(e.challenge)
  {
    VisibleRecorded(cell, challenges, e);
    ReadableVisible(cell.Visible());
    ParsedIdentity(e);
  }

  lemma VisibleRecorded(cell: Cell<Ledger>, challenges: set<string>, e: Entry)
    requires LedgerOk(cell, challenges) && e in StateOf(cell.Visible()).entries
    ensures e.challenge in challenges
  {
    var s := cell.States();
    assert s[|s| - 1] == cell.Visible();
  }

  lemma ParsedIdentity(e: Entry)
    requires ParseEntry(e).Success?
    ensures ValidKeyId(e.keyId) && ValidChallenge(e.challenge)
  {
  }

  lemma ReplacePlan(cell: Cell<Ledger>, challenges: set<string>, was: Entry, entry: Entry, post: Ledger, id: OperationId, now: nat)
    requires LedgerOk(cell, challenges) && ReadLedger(cell.Visible()).Success?
    requires was in StateOf(cell.Visible()).entries && SameIdentity(was, entry)
    requires was.status.Issued? && !entry.status.Issued?
    requires post == NextState(StateOf(cell.Visible()), id, now, Replace(StateOf(cell.Visible()).entries, entry))
    ensures LedgerOk(cell.Put(Whole(post)), challenges)
    ensures EntryFor(post.entries, entry.keyId, entry.challenge) == Some(entry)
  {
    var pre := StateOf(cell.Visible());
    ReadableVisible(cell.Visible());
    ReplaceFacts(pre.entries, was, entry);
    assert entry in Replace(pre.entries, entry);
    PostUnique(pre, id, now, Replace(pre.entries, entry), entry);
    ReplaceEvolves(pre, post, was, entry);
    LedgerOkExtend(cell, challenges, post, None);
  }

  lemma ConsumePlan(cell: Cell<Ledger>, challenges: set<string>, keyId: string, challenge: string, nowMs: int,
                    id: OperationId, generate: nat -> string)
    requires LedgerOk(cell, challenges) && StampedBy(id, nowMs)
    requires PlanFor(cell.Visible(), ConsumeCall(keyId, challenge, nowMs), id, generate).Success?
    ensures var p := PlanFor(cell.Visible(), ConsumeCall(keyId, challenge, nowMs), id, generate).value;
            && PlanOk(p) && p.pre == cell.Visible() && p.operation == ConsumeOp && p.id == id
            && p.entry.challenge in challenges
            && LedgerOk(cell.Put(Whole(p.post)), challenges)
            && (exists e | e in StateOf(cell.Visible()).entries :: Names(e, p.entry.keyId, p.entry.challenge) && e.status.Issued?)
  {
    var pre := StateOf(cell.Visible());
    ReadableVisible(cell.Visible());
    ConsumeForm(pre, keyId, challenge, nowMs, id);
    var c := Consume(pre, keyId, challenge, nowMs, id).value;
    var was := EntryFor(pre.entries, keyId, challenge).value;
    VisibleEntry(cell, challenges, was);
    ReplacePlan(cell, challenges, was, c.entry, c.post, id, nowMs);
  }

  lemma RevokePlan(cell: Cell<Ledger>, challenges: set<string>, source: Receipt, nowMs: int,
                   id: OperationId, generate: nat -> string)
    requires LedgerOk(cell, challenges) && StampedBy(id, nowMs)
    requires PlanFor(cell.Visible(), RevokeCall(source, nowMs), id, generate).Success?
    ensures var p := PlanFor(cell.Visible(), RevokeCall(source, nowMs), id, generate).value;
            && PlanOk(p) && p.pre == cell.Visible() && p.operation == RevokeOp && p.id == id
            && p.entry.challenge in challenges
            && LedgerOk(cell.Put(Whole(p.post)), challenges)
  {
    var pre := StateOf(cell.Visible());
    ReadableVisible(cell.Visible());
    RevokeForm(pre, source.keyId, source.challenge, nowMs, id);
    var c := Revoke(pre, source.keyId, source.challenge, nowMs, id).value;
    var was := EntryFor(pre.entries, source.keyId, source.challenge).value;
    VisibleEntry(cell, challenges, was);
    ReplacePlan(cell, challenges, was, c.entry, c.post, id, nowMs);
  }

  lemma PlanExtends(cell: Cell<Ledger>, challenges: set<string>, request: Request, id: OperationId, generate: nat -> string)
    requires LedgerOk(cell, challenges) && StampedBy(id, Clock(request)) && !request.RecoverCall?
    requires forall i | 0 <= i < ISSUE_ATTEMPTS :: ValidChallenge(generate(i)) && generate(i) !in challenges
    requires PlanFor(cell.Visible(), request, id, generate).Success?
    ensures var p := PlanFor(cell.Visible(), request, id, generate).value;
            && PlanOk(p) && p.pre == cell.Visible() && p.id == id
            && LedgerOk(cell.Put(Whole(p.post)), challenges + {p.entry.challenge})
            && (p.operation.ConsumeOp? ==>
                  exists e | e in StateOf(cell.Visible()).entries :: Names(e, p.entry.keyId, p.entry.challenge) && e.status.Issued?)
  {
    hide LedgerOk, PlanOk, PlanFor;
    match request
    case IssueCall(q) => IssuePlan(cell, challenges, q, id, generate);
    case ConsumeCall(keyId, challenge, nowMs) =>
      ConsumePlan(cell, challenges, keyId, challenge, nowMs, id, generate);
      LedgerOkMore(cell, challenges, challenges + {PlanFor(cell.Visible(), request, id, generate).value.entry.challenge});
      assert challenges + {PlanFor(cell.Visible(), request, id, generate).value.entry.challenge} == challenges;
    case RevokeCall(source, nowMs) =>
      RevokePlan(cell, challenges, source, nowMs, id, generate);
      assert challenges + {PlanFor(cell.Visible(), request, id, generate).value.entry.challenge} == challenges;
  }

  /** What a plan's receipt says is accepted again exactly when both its clocks are canonical. */
  lemma PlanReceiptParses(p: Plan, c: Contents<Receipt>, status: ReceiptStatus)
    requires PlanOk(p) && Says(c, p, status)
    ensures ReceiptParses(c.value) <==>
            CanonicalTime(p.createdAt) && (c.value.completedAt.Some? ==> CanonicalTime(c.value.completedAt.value))
  {
    StampValid(p.id, p.createdAt);
    if p.pre.Whole? {
      ParsesMeans(p.pre.value);
    }
  }

  lemma PlannedIn(w: World, id: OperationId)
    requires Inv(w) && id in w.registry
    ensures w.registry[id].id == id && PlanOk(w.registry[id])
  {
  }

  // -------------------------------------------------------------- the frame

  /** What no step takes back. */
  ghost predicate Grows(w: World, v: World) {
    && (forall id | id in w.registry :: id in v.registry && v.registry[id] == w.registry[id])
    && (forall id | id in w.receipts :: id in v.receipts && w.receipts[id].disk <= v.receipts[id].disk)
    && w.applied <= v.applied && w.aborted <= v.aborted
    && w.ledger.disk <= v.ledger.disk
  }

  /** When the lock holder (or nobody) moves, every other process only waits, and keeps waiting. */
  lemma OthersOk(w: World, v: World, pid: Pid)
    requires ProcessesOk(w)
    requires w.lock.None? || w.lock == Some(pid)
    requires v.lock.None? || (v.lock == Some(pid) && pid in v.procs)
    requires Grows(w, v)
    requires forall q | q in v.procs && q != pid :: q in w.procs && v.procs[q] == w.procs[q]
    requires pid in v.procs ==> ProcessOk(v, pid, v.procs[pid])
    ensures ProcessesOk(v)
  {
    forall q | q in v.procs && q != pid ensures ProcessOk(v, q, v.procs[q]) {
      assert ProcessOk(w, q, w.procs[q]);
    }
  }

  // ------------------------------------------------------------ receipt cells

  lemma SaysItself(plan: Plan, status: ReceiptStatus, at: Option<nat>)
    requires status.PreparedStatus? <==> at.None?
    ensures Says(Whole(ReceiptOf(plan, status, at)), plan, status)
    ensures ReceiptOf(plan, status, at).status == status
  {
  }

  lemma ReceiptPut(cell: Cell<Receipt>, plan: Plan, applied: bool, aborted: bool,
                   c: Contents<Receipt>, status: ReceiptStatus)
    requires ReceiptOk(cell, plan, applied, aborted) && !Terminal(cell.Visible())
    requires Says(c, plan, status)
    ensures ReceiptOk(cell.Put(c), plan, applied || status.AppliedStatus?, aborted || status.AbortedStatus?)
  {
    var s, t := cell.States(), cell.Put(c).States();
    assert t == s + [c];
    assert s[|s| - 1] == cell.Visible();
  }

  lemma ReceiptKeep(cell: Cell<Receipt>, plan: Plan, applied: bool, aborted: bool, n: nat)
    requires ReceiptOk(cell, plan, applied, aborted)
    requires n < |cell.pending|
    ensures ReceiptOk(Cell(cell.disk + [cell.pending[n]], []), plan, applied, aborted)
  {
    var s := cell.States();
    var t := Cell(cell.disk + [cell.pending[n]], []).States();
    var at := i => if i < |cell.disk| then i else |cell.disk| + n;
    assert forall i | 0 <= i < |t| :: t[i] == s[at(i)];
    forall i, j | 0 <= i < j < |t| && Terminal(t[i]) ensures t[j] == t[i] {
      assert at(i) < at(j) && t[i] == s[at(i)] && t[j] == s[at(j)];
    }
  }

  lemma ReceiptDrop(cell: Cell<Receipt>, plan: Plan, applied: bool, aborted: bool)
    requires ReceiptOk(cell, plan, applied, aborted)
    ensures ReceiptOk(Cell(cell.disk, []), plan, applied, aborted)
  {
    var s, t := cell.States(), Cell(cell.disk, []).States();
    assert forall i | 0 <= i < |t| :: t[i] == s[i];
  }

  lemma ReceiptSync(cell: Cell<Receipt>, plan: Plan, applied: bool, aborted: bool)
    requires ReceiptOk(cell, plan, applied, aborted)
    ensures ReceiptOk(cell.Sync(), plan, applied, aborted)
  {
    if cell.pending != [] {
      ReceiptKeep(cell, plan, applied, aborted, |cell.pending| - 1);
    }
  }

  lemma ReceiptFlush(cell: Cell<Receipt>, plan: Plan, applied: bool, aborted: bool, n: nat)
    requires ReceiptOk(cell, plan, applied, aborted)
    ensures ReceiptOk(cell.Flush(n), plan, applied, aborted)
  {
    FlushStates(cell, n);
    var s, t, d := cell.States(), cell.Flush(n).States(), |cell.disk|;
    var skipped := |s| - |t|;
    forall i, j | 0 <= i < j < |t| && Terminal(t[i]) ensures t[j] == t[i] {
      var k, l := if i < d then i else i + skipped, if j < d then j else j + skipped;
      assert t[i] == s[k] && t[j] == s[l];
    }
  }

  lemma ReceiptLose(cell: Cell<Receipt>, plan: Plan, applied: bool, aborted: bool, keep: nat)
    requires ReceiptOk(cell, plan, applied, aborted)
    ensures ReceiptOk(cell.Lose(keep), plan, applied, aborted)
  {
    if 0 < keep <= |cell.pending| {
      ReceiptKeep(cell, plan, applied, aborted, keep - 1);
    } else {
      ReceiptDrop(cell, plan, applied, aborted);
    }
  }

  // ------------------------------------------------ component-wise preservation

  lemma SetReceipt(receipts: map<OperationId, Cell<Receipt>>, registry: map<OperationId, Plan>,
                   applied: set<OperationId>, aborted: set<OperationId>,
                   id: OperationId, cell: Cell<Receipt>, applied': set<OperationId>, aborted': set<OperationId>)
    requires ReceiptsOk(receipts, registry, applied, aborted)
    requires id in registry && ReceiptOk(cell, registry[id], id in applied', id in aborted')
    requires applied <= applied' <= applied + {id} && aborted <= aborted' <= aborted + {id}
    ensures ReceiptsOk(receipts[id := cell], registry, applied', aborted')
  {
    forall x | x in receipts && x != id
      ensures ReceiptOk(receipts[x], registry[x], x in applied', x in aborted')
    {
      assert (x in applied' <==> x in applied) && (x in aborted' <==> x in aborted);
    }
  }

  /** The un-synced result of a rename contradicts no earlier verdict. */
  lemma VerdictsPut(ledger: Cell<Ledger>, registry: map<OperationId, Plan>,
                    applied: set<OperationId>, aborted: set<OperationId>, plan: Plan)
    requires VerdictsOk(ledger, registry, applied, aborted) && RegistryOk(registry)
    requires plan.id in registry && registry[plan.id] == plan && plan.id !in aborted
    ensures VerdictsOk(ledger.Put(Whole(plan.post)), registry, applied, aborted)
  {
    var cell := ledger.Put(Whole(plan.post));
    assert cell.States() == ledger.States() + [Whole(plan.post)];
    forall id | id in aborted ensures Whole(registry[id].post) !in cell.States() {
      assert registry[id].post.lastOperationId == Some(id);
    }
  }

  lemma VerdictsShrink(a: Cell<Ledger>, b: Cell<Ledger>, registry: map<OperationId, Plan>,
                       applied: set<OperationId>, aborted: set<OperationId>)
    requires VerdictsOk(a, registry, applied, aborted)
    requires a.disk <= b.disk && forall c | c in b.States() :: c in a.States()
    ensures VerdictsOk(b, registry, applied, aborted)
  {
  }

  lemma DiskGrows(a: Cell<Ledger>, b: Cell<Ledger>, consumed: seq<(string, string)>)
    requires ConsumedOk(a, consumed) && a.disk <= b.disk
    ensures ConsumedOk(b, consumed)
  {
    forall x | x in consumed ensures exists i | 0 <= i < |b.disk| :: HasConsumed(StateOf(b.disk[i]), x.0, x.1) {
      var i :| 0 <= i < |a.disk| && HasConsumed(StateOf(a.disk[i]), x.0, x.1);
      assert b.disk[i] == a.disk[i];
    }
  }

  /** Syncing the ledger directory keeps history, verdicts and consume records. */
  lemma SyncKeeps(w: World)
    requires LedgerOk(w.ledger, w.challenges) && ConsumedOk(w.ledger, w.consumed)
    requires VerdictsOk(w.ledger, w.registry, w.applied, w.aborted)
    ensures LedgerOk(w.ledger.Sync(), w.challenges) && ConsumedOk(w.ledger.Sync(), w.consumed)
    ensures VerdictsOk(w.ledger.Sync(), w.registry, w.applied, w.aborted)
    ensures w.ledger.disk <= w.ledger.Sync().disk && w.ledger.Sync().pending == []
    ensures w.ledger.Sync().Visible() == w.ledger.Visible() == w.ledger.Sync().Durable()
  {
    LedgerOkSync(w.ledger, w.challenges);
    DiskGrows(w.ledger, w.ledger.Sync(), w.consumed);
    VerdictsShrink(w.ledger, w.ledger.Sync(), w.registry, w.applied, w.aborted);
  }

  /** While the ledger still shows a plan's starting point, its result is nowhere in the history. */
  lemma PostIsAhead(cell: Cell<Ledger>, challenges: set<string>, plan: Plan)
    requires LedgerOk(cell, challenges) && cell.Visible() == plan.pre
    requires plan.post.generation == Generation(plan.pre) + 1
    ensures Whole(plan.post) !in cell.States()
  {
    var s := cell.States();
    assert s[|s| - 1] == cell.Visible();
    assert forall i | 0 <= i < |s| :: Generation(s[i]) <= Generation(s[|s| - 1]);
  }

  /** An entry still issued in the visible ledger was never returned by a successful consume. */
  lemma NotYetConsumed(ledger: Cell<Ledger>, challenges: set<string>, consumed: seq<(string, string)>,
                       keyId: string, challenge: string)
    requires LedgerOk(ledger, challenges) && ConsumedOk(ledger, consumed)
    requires exists e | e in StateOf(ledger.Visible()).entries :: Names(e, keyId, challenge) && e.status.Issued?
    ensures (keyId, challenge) !in consumed
  {
    var s := ledger.States();
    assert s[|s| - 1] == ledger.Visible();
    var e :| e in StateOf(ledger.Visible()).entries && Names(e, keyId, challenge) && e.status.Issued?;
    forall i | 0 <= i < |ledger.disk| ensures !HasConsumed(StateOf(ledger.disk[i]), keyId, challenge) {
      assert s[i] == ledger.disk[i];
      assert Later(StateOf(s[i]), StateOf(s[|s| - 1]));
      forall c | c in StateOf(s[i]).entries && Names(c, keyId, challenge) ensures !c.status.Consumed? {
        assert Advances(c, e);
      }
    }
  }

  // -------------------------------------------------------------------- steps

  lemma BeginStep(w: World, pid: Pid, request: Request)
    requires Inv(w) && pid !in w.procs && CanBegin(w, request)
    ensures Inv(Become(w, pid, Waiting(request))) && Grows(w, Become(w, pid, Waiting(request)))
  {
    var v := Become(w, pid, Waiting(request));
    if request.RevokeCall? {
      VisibleReceipt(w, request.source.operationId);
    }
    forall q | q in v.procs && q != pid ensures ProcessOk(v, q, v.procs[q]) {
      assert ProcessOk(w, q, w.procs[q]);
    }
  }

  /** A readable receipt file says what its plan says. */
  lemma VisibleReceipt(w: World, id: OperationId)
    requires ReceiptsOk(w.receipts, w.registry, w.applied, w.aborted) && id in w.receipts
    ensures w.receipts[id].disk != []
    ensures var c := w.receipts[id].Visible();
            c.Whole? ==>
              id in w.registry && Says(c, w.registry[id], c.value.status)
              && (c.value.status.AppliedStatus? ==> id in w.applied)
              && (c.value.status.AbortedStatus? ==> id in w.aborted)
  {
    assert ReceiptOk(w.receipts[id], w.registry[id], id in w.applied, id in w.aborted);
    var s := w.receipts[id].States();
    assert s[|s| - 1] == w.receipts[id].Visible();
  }

  lemma EndStep(w: World, pid: Pid)
    requires Inv(w) && pid in w.procs
    ensures Inv(End(w, pid)) && Grows(w, End(w, pid))
  {
    EndProcesses(w, pid);
  }

  lemma EndProcesses(w: World, pid: Pid)
    requires ProcessesOk(w) && pid in w.procs
    ensures ProcessesOk(End(w, pid))
  {
    var v := End(w, pid);
    forall q | q in v.procs ensures ProcessOk(v, q, v.procs[q]) {
      assert ProcessOk(w, q, w.procs[q]);
    }
  }

  /** Taking the free lock. */
  lemma AcquireStep(w: World, pid: Pid, request: Request)
    requires Inv(w) && pid in w.procs && w.procs[pid] == Waiting(request) && w.lock.None?
    ensures var v := Become(w, pid, Holding(request)).(lock := Some(pid));
            Inv(v) && Grows(w, v)
  {
    var v := Become(w, pid, Holding(request)).(lock := Some(pid));
    assert ProcessOk(w, pid, w.procs[pid]);
    OthersOk(w, v, pid);
  }

  lemma StartStep(w: World, pid: Pid, request: Request, id: OperationId, generate: nat -> string)
    requires Inv(w) && pid in w.procs && w.procs[pid] == Holding(request) && !request.RecoverCall?
    requires Fresh(w, request, id, generate)
    ensures Inv(StartCommit(w, pid, request, id, generate)) && Grows(w, StartCommit(w, pid, request, id, generate))
  {
    var plan := PlanFor(w.ledger.Visible(), request, id, generate);
    if plan.Failure? {
      EndStep(w, pid);
      return;
    }
    PlanExtends(w.ledger, w.challenges, request, id, generate);
    StartRegistered(w, pid, plan.value);
  }

  lemma RegisterKeeps(w: World, p: Plan)
    requires RegistryOk(w.registry) && ReceiptsOk(w.receipts, w.registry, w.applied, w.aborted)
    requires BackupsOk(w.receipts, w.registry, w.backups)
    requires VerdictsOk(w.ledger, w.registry, w.applied, w.aborted)
    requires p.id !in w.registry && PlanOk(p)
    ensures RegistryOk(w.registry[p.id := p]) && ReceiptsOk(w.receipts, w.registry[p.id := p], w.applied, w.aborted)
    ensures BackupsOk(w.receipts, w.registry[p.id := p], w.backups)
    ensures VerdictsOk(w.ledger, w.registry[p.id := p], w.applied, w.aborted)
    ensures p.id !in w.receipts && p.id !in w.aborted && p.id !in w.applied
  {
    hide PlanOk, ReceiptOk, BackedUpBy;
  }

  lemma StartRegistered(w: World, pid: Pid, p: Plan)
    requires Inv(w) && pid in w.procs && w.procs[pid].Holding?
    requires p.id !in w.registry && PlanOk(p) && p.pre == w.ledger.Visible()
    requires LedgerOk(w.ledger.Put(Whole(p.post)), w.challenges + {p.entry.challenge})
    requires p.operation.ConsumeOp? ==>
               exists e | e in StateOf(w.ledger.Visible()).entries :: Names(e, p.entry.keyId, p.entry.challenge) && e.status.Issued?
    ensures var v := Become(w, pid, Committing(p, Planned, false))
                       .(registry := w.registry[p.id := p], challenges := w.challenges + {p.entry.challenge});
            Inv(v) && Grows(w, v)
  {
    var v := Become(w, pid, Committing(p, Planned, false))
               .(registry := w.registry[p.id := p], challenges := w.challenges + {p.entry.challenge});
    LedgerOkMore(w.ledger, w.challenges, v.challenges);
    RegisterKeeps(w, p);
    assert ProcessOk(w, pid, w.procs[pid]);
    if p.operation.ConsumeOp? {
      NotYetConsumed(w.ledger, w.challenges, w.consumed, p.entry.keyId, p.entry.challenge);
    }
    PlannedCommit(v, p);
    hide CommitOk, LedgerOk, PlanOk, ReceiptsOk, BackupsOk, VerdictsOk, ConsumedOk;
    OthersOk(w, v, pid);
  }

  lemma PlannedCommit(v: World, p: Plan)
    requires p.id in v.registry && v.registry[p.id] == p && p.id !in v.aborted && p.id !in v.receipts
    requires v.ledger.disk != [] && p.pre == v.ledger.Visible() && LedgerOk(v.ledger.Put(Whole(p.post)), v.challenges)
    requires p.operation.ConsumeOp? ==> (p.entry.keyId, p.entry.challenge) !in v.consumed
    ensures CommitOk(v, p, Planned, false)
  {
    hide LedgerOk;
  }

  predicate Running(w: World, pid: Pid, plan: Plan, stage: Stage, tempDurable: bool) {
    pid in w.procs && w.procs[pid] == Committing(plan, stage, tempDurable)
  }

  lemma RunningOk(w: World, pid: Pid, plan: Plan, stage: Stage, tempDurable: bool)
    requires ProcessesOk(w) && Running(w, pid, plan, stage, tempDurable)
    ensures w.lock == Some(pid) && CommitOk(w, plan, stage, tempDurable)
  {
    assert ProcessOk(w, pid, w.procs[pid]);
  }

  /** A stage that leaves the ledger alone and stays on one side of the rename. */
  lemma FilesMove(w: World, v: World, pid: Pid, plan: Plan, stage: Stage, next: Stage, tempDurable: bool)
    requires ProcessesOk(w) && w.lock == Some(pid) && CommitOk(w, plan, stage, tempDurable)
    requires BeforeRename(stage) == BeforeRename(next) && stage != Renamed && next != Renamed && next != TempSynced
    requires v.ledger == w.ledger && v.challenges == w.challenges && v.registry == w.registry
    requires v.aborted == w.aborted && v.consumed == w.consumed && w.applied <= v.applied && v.lock == w.lock
    requires forall id | id in w.receipts :: id in v.receipts && w.receipts[id].disk <= v.receipts[id].disk
    requires v.procs == w.procs[pid := Committing(plan, next, tempDurable)]
    requires FilesAt(v.receipts, v.backups, plan, next)
    ensures ProcessesOk(v) && Grows(w, v)
  {
    assert LedgerAt(v.ledger, v.challenges, plan, next);
    OthersOk(w, v, pid);
  }

  lemma SetBackup(receipts: map<OperationId, Cell<Receipt>>, registry: map<OperationId, Plan>,
                  backups: map<OperationId, Cell<Ledger>>, id: OperationId, cell: Cell<Ledger>)
    requires BackupsOk(receipts, registry, backups) && RegistryOk(registry) && id !in receipts
    ensures BackupsOk(receipts, registry, backups[id := cell])
  {
    forall x | x in receipts && x in registry ensures BackedUpBy(backups[id := cell], registry[x]) {
      assert BackedUpBy(backups, registry[x]);
    }
  }

  lemma CreateBackupOk(w: World, pid: Pid, plan: Plan, tempDurable: bool)
    requires ProcessesOk(w) && Running(w, pid, plan, Planned, tempDurable) && CommitOk(w, plan, Planned, tempDurable)
    requires RegistryOk(w.registry)
    requires BackupsOk(w.receipts, w.registry, w.backups)
    ensures var v := CreateBackup(w, pid, plan, tempDurable);
            && Grows(w, v)
            && ProcessesOk(v)
            && BackupsOk(v.receipts, v.registry, v.backups)
  {
    RunningOk(w, pid, plan, Planned, tempDurable);
    hide PlanOk, LedgerAt, ReceiptOf, Says, Prepared;
    if plan.pre.Whole? {
      SetBackup(w.receipts, w.registry, w.backups, plan.id, Cell([Absent], [Torn, plan.pre]));
    }
    FilesMove(w, CreateBackup(w, pid, plan, tempDurable), pid, plan, Planned,
              if plan.pre.Whole? then BackupFilled else BackedUp, tempDurable);
  }

  lemma SyncBackupOk(w: World, pid: Pid, plan: Plan, tempDurable: bool)
    requires ProcessesOk(w) && Running(w, pid, plan, BackupFilled, tempDurable)
    requires CommitOk(w, plan, BackupFilled, tempDurable)
    requires RegistryOk(w.registry)
    requires BackupsOk(w.receipts, w.registry, w.backups)
    ensures var v := SyncBackup(w, pid, plan, tempDurable);
            && Grows(w, v)
            && ProcessesOk(v)
            && BackupsOk(v.receipts, v.registry, v.backups)
  {
    RunningOk(w, pid, plan, BackupFilled, tempDurable);
    hide PlanOk, LedgerAt, ReceiptOf, Says, Prepared;
    SetBackup(w.receipts, w.registry, w.backups, plan.id, w.backups[plan.id].Sync());
    FilesMove(w, SyncBackup(w, pid, plan, tempDurable), pid, plan, BackupFilled, BackedUp, tempDurable);
  }

  /** What writing a receipt does to the files of a commit. */
  lemma ReceiptFiles(receipts: map<OperationId, Cell<Receipt>>, backups: map<OperationId, Cell<Ledger>>, plan: Plan,
                     now: Instant)
    ensures FilesAt(receipts, backups, plan, ReceiptOpened) ==>
              && plan.id in receipts && !Terminal(receipts[plan.id].Visible())
              && FilesAt(receipts[plan.id := receipts[plan.id].Put(Whole(Prepared(plan)))], backups, plan, ReceiptFilled)
    ensures FilesAt(receipts, backups, plan, DirectorySynced) ==>
              && plan.id in receipts && !Terminal(receipts[plan.id].Visible())
              && FilesAt(receipts[plan.id := receipts[plan.id].Put(Whole(ReceiptOf(plan, AppliedStatus, Some(now))))],
                         backups, plan, AppliedRenamed)
  {
    hide BackedUpBy;
  }

  lemma OpenReceiptOk(w: World, pid: Pid, plan: Plan, tempDurable: bool)
    requires ProcessesOk(w) && Running(w, pid, plan, BackedUp, tempDurable) && CommitOk(w, plan, BackedUp, tempDurable)
    requires ReceiptsOk(w.receipts, w.registry, w.applied, w.aborted)
    requires BackupsOk(w.receipts, w.registry, w.backups)
    ensures var v := OpenReceipt(w, pid, plan, tempDurable);
            && Grows(w, v)
            && ProcessesOk(v)
            && ReceiptsOk(v.receipts, v.registry, v.applied, v.aborted)
            && BackupsOk(v.receipts, v.registry, v.backups)
  {
    RunningOk(w, pid, plan, BackedUp, tempDurable);
    SetReceipt(w.receipts, w.registry, w.applied, w.aborted, plan.id, Cell([Absent], [Torn]), w.applied, w.aborted);
    FilesMove(w, OpenReceipt(w, pid, plan, tempDurable), pid, plan, BackedUp, ReceiptOpened, tempDurable);
  }

  lemma FillReceiptOk(w: World, pid: Pid, plan: Plan, tempDurable: bool)
    requires ProcessesOk(w) && Running(w, pid, plan, ReceiptOpened, tempDurable)
    requires CommitOk(w, plan, ReceiptOpened, tempDurable)
    requires ReceiptsOk(w.receipts, w.registry, w.applied, w.aborted)
    requires BackupsOk(w.receipts, w.registry, w.backups)
    ensures var v := FillReceipt(w, pid, plan, tempDurable);
            && Grows(w, v)
            && ProcessesOk(v)
            && ReceiptsOk(v.receipts, v.registry, v.applied, v.aborted)
            && BackupsOk(v.receipts, v.registry, v.backups)
  {
    SaysItself(plan, PreparedStatus, None);
    RunningOk(w, pid, plan, ReceiptOpened, tempDurable);
    ReceiptFiles(w.receipts, w.backups, plan, 0);
    hide LedgerAt, BackedUpBy, FilesAt, ReceiptOk, ReceiptOf, Says, Terminal;
    ReceiptPut(w.receipts[plan.id], plan, plan.id in w.applied, plan.id in w.aborted,
               Whole(Prepared(plan)), PreparedStatus);
    SetReceipt(w.receipts, w.registry, w.applied, w.aborted, plan.id, FillReceipt(w, pid, plan, tempDurable).receipts[plan.id],
               w.applied, w.aborted);
    FilesMove(w, FillReceipt(w, pid, plan, tempDurable), pid, plan, ReceiptOpened, ReceiptFilled, tempDurable);
  }

  lemma SyncPreparedOk(w: World, pid: Pid, plan: Plan, tempDurable: bool)
    requires ProcessesOk(w) && Running(w, pid, plan, ReceiptFilled, tempDurable)
    requires CommitOk(w, plan, ReceiptFilled, tempDurable)
    requires ReceiptsOk(w.receipts, w.registry, w.applied, w.aborted)
    requires BackupsOk(w.receipts, w.registry, w.backups)
    ensures var v := SyncReceipt(w, pid, plan, ReceiptSynced, tempDurable);
            && Grows(w, v)
            && ProcessesOk(v)
            && ReceiptsOk(v.receipts, v.registry, v.applied, v.aborted)
            && BackupsOk(v.receipts, v.registry, v.backups)
  {
    hide LedgerAt, BackedUpBy, ReceiptOk, ReceiptOf, Says, Prepared;
    RunningOk(w, pid, plan, ReceiptFilled, tempDurable);
    ReceiptSync(w.receipts[plan.id], plan, plan.id in w.applied, plan.id in w.aborted);
    SetReceipt(w.receipts, w.registry, w.applied, w.aborted, plan.id, SyncReceipt(w, pid, plan, ReceiptSynced, tempDurable).receipts[plan.id],
               w.applied, w.aborted);
    FilesMove(w, SyncReceipt(w, pid, plan, ReceiptSynced, tempDurable), pid, plan, ReceiptFilled, ReceiptSynced, tempDurable);
  }

  lemma CreateTempOk(w: World, pid: Pid, plan: Plan, tempDurable: bool)
    requires ProcessesOk(w) && Running(w, pid, plan, ReceiptSynced, tempDurable)
    requires CommitOk(w, plan, ReceiptSynced, tempDurable)
    ensures var v := CreateTemp(w, pid, plan, tempDurable);
            && Grows(w, v)
            && ProcessesOk(v)
  {
    RunningOk(w, pid, plan, ReceiptSynced, tempDurable);
    hide PlanOk, LedgerOk, BackedUpBy, ReceiptOf, Says, Prepared;
    if StillAt(w, plan.pre) {
      OthersOk(w, CreateTemp(w, pid, plan, tempDurable), pid);
    } else {
      EndProcesses(w, pid);
    }
  }

  lemma SyncTempOk(w: World, pid: Pid, plan: Plan, tempDurable: bool)
    requires ProcessesOk(w) && Running(w, pid, plan, TempWritten, tempDurable)
    requires CommitOk(w, plan, TempWritten, tempDurable)
    ensures var v := SyncTemp(w, pid, plan);
            && Grows(w, v)
            && ProcessesOk(v)
  {
    RunningOk(w, pid, plan, TempWritten, tempDurable);
    OthersOk(w, SyncTemp(w, pid, plan), pid);
  }

  lemma RenameKeeps(w: World, plan: Plan)
    requires RegistryOk(w.registry) && ConsumedOk(w.ledger, w.consumed)
    requires VerdictsOk(w.ledger, w.registry, w.applied, w.aborted)
    requires plan.id in w.registry && w.registry[plan.id] == plan && plan.id !in w.aborted
    requires w.ledger.disk != []
    ensures var ledger := w.ledger.Put(Whole(plan.post));
            && RenameOver(w.ledger, plan.post, true) == ledger
            && VerdictsOk(ledger, w.registry, w.applied, w.aborted) && ConsumedOk(ledger, w.consumed)
            && ledger.Visible() == Whole(plan.post) && ledger.disk == w.ledger.disk
  {
    VerdictsPut(w.ledger, w.registry, w.applied, w.aborted, plan);
    DiskGrows(w.ledger, w.ledger.Put(Whole(plan.post)), w.consumed);
  }

  lemma RenameLedgerOk(w: World, pid: Pid, plan: Plan, tempDurable: bool)
    requires ProcessesOk(w) && Running(w, pid, plan, TempSynced, tempDurable)
    requires CommitOk(w, plan, TempSynced, tempDurable)
    requires RegistryOk(w.registry) && ConsumedOk(w.ledger, w.consumed)
    requires VerdictsOk(w.ledger, w.registry, w.applied, w.aborted)
    requires LedgerOk(w.ledger, w.challenges)
    ensures var v := RenameLedger(w, pid, plan, tempDurable);
            && Grows(w, v) && ProcessesOk(v)
            && LedgerOk(v.ledger, v.challenges) && ConsumedOk(v.ledger, v.consumed)
            && VerdictsOk(v.ledger, v.registry, v.applied, v.aborted)
  {
    RunningOk(w, pid, plan, TempSynced, tempDurable);
    if StillAt(w, plan.pre) {
      RenameKeeps(w, plan);
      RenamedProcesses(w, RenameLedger(w, pid, plan, tempDurable), pid, plan);
    } else {
      EndProcesses(w, pid);
    }
  }

  lemma RenamedProcesses(w: World, v: World, pid: Pid, plan: Plan)
    requires ProcessesOk(w) && w.lock == Some(pid)
    requires plan.id in w.registry && w.registry[plan.id] == plan && plan.id !in w.aborted
    requires plan.operation.ConsumeOp? ==> (plan.entry.keyId, plan.entry.challenge) !in w.consumed
    requires FilesAt(w.receipts, w.backups, plan, TempSynced)
    requires v == w.(procs := w.procs[pid := Committing(plan, Renamed, true)], ledger := v.ledger)
    requires v.ledger.disk != [] && v.ledger.disk == w.ledger.disk && v.ledger.Visible() == Whole(plan.post)
    ensures ProcessesOk(v) && Grows(w, v)
  {
    assert LedgerAt(v.ledger, v.challenges, plan, Renamed);
    OthersOk(w, v, pid);
  }

  lemma SyncDirectoryOk(w: World, pid: Pid, plan: Plan, tempDurable: bool)
    requires ProcessesOk(w) && Running(w, pid, plan, Renamed, tempDurable) && CommitOk(w, plan, Renamed, tempDurable)
    requires LedgerOk(w.ledger, w.challenges) && ConsumedOk(w.ledger, w.consumed)
    requires VerdictsOk(w.ledger, w.registry, w.applied, w.aborted)
    ensures var v := SyncDirectory(w, pid, plan, tempDurable);
            && Grows(w, v)
            && ProcessesOk(v)
            && LedgerOk(v.ledger, v.challenges)
            && ConsumedOk(v.ledger, v.consumed)
            && VerdictsOk(v.ledger, v.registry, v.applied, v.aborted)
  {
    RunningOk(w, pid, plan, Renamed, tempDurable);
    SyncKeeps(w);
    OthersOk(w, SyncDirectory(w, pid, plan, tempDurable), pid);
  }

  lemma WriteAppliedOk(w: World, pid: Pid, plan: Plan, tempDurable: bool, now: Instant)
    requires ProcessesOk(w) && Running(w, pid, plan, DirectorySynced, tempDurable)
    requires CommitOk(w, plan, DirectorySynced, tempDurable)
    requires ReceiptsOk(w.receipts, w.registry, w.applied, w.aborted)
    requires BackupsOk(w.receipts, w.registry, w.backups)
    ensures var v := WriteApplied(w, pid, plan, tempDurable, now);
            && Grows(w, v)
            && ProcessesOk(v)
            && ReceiptsOk(v.receipts, v.registry, v.applied, v.aborted)
            && BackupsOk(v.receipts, v.registry, v.backups)
  {
    SaysItself(plan, AppliedStatus, Some(now));
    RunningOk(w, pid, plan, DirectorySynced, tempDurable);
    ReceiptFiles(w.receipts, w.backups, plan, now);
    assert plan.id in w.registry && w.registry[plan.id] == plan;
    hide CommitOk, LedgerAt, BackedUpBy, FilesAt, ReceiptOk, ReceiptOf, Says, Terminal, Prepared;
    ReceiptPut(w.receipts[plan.id], plan, plan.id in w.applied, plan.id in w.aborted,
               Whole(ReceiptOf(plan, AppliedStatus, Some(now))), AppliedStatus);
    SetReceipt(w.receipts, w.registry, w.applied, w.aborted, plan.id, WriteApplied(w, pid, plan, tempDurable, now).receipts[plan.id],
               WriteApplied(w, pid, plan, tempDurable, now).applied, w.aborted);
    FilesMove(w, WriteApplied(w, pid, plan, tempDurable, now), pid, plan, DirectorySynced, AppliedRenamed, tempDurable);
  }

  lemma AppliedVerdicts(w: World, plan: Plan)
    requires VerdictsOk(w.ledger, w.registry, w.applied, w.aborted)
    requires plan.id in w.registry && w.registry[plan.id] == plan
    requires LedgerAt(w.ledger, w.challenges, plan, DirectorySynced)
    ensures VerdictsOk(w.ledger, w.registry, w.applied + {plan.id}, w.aborted)
  {
  }

  lemma SyncAppliedOk(w: World, pid: Pid, plan: Plan, tempDurable: bool)
    requires ProcessesOk(w) && Running(w, pid, plan, AppliedRenamed, tempDurable)
    requires CommitOk(w, plan, AppliedRenamed, tempDurable)
    requires ReceiptsOk(w.receipts, w.registry, w.applied, w.aborted)
    requires BackupsOk(w.receipts, w.registry, w.backups)
    ensures var v := SyncReceipt(w, pid, plan, AppliedSynced, tempDurable);
            && Grows(w, v)
            && ProcessesOk(v)
            && ReceiptsOk(v.receipts, v.registry, v.applied, v.aborted)
            && BackupsOk(v.receipts, v.registry, v.backups)
  {
    hide LedgerAt, BackedUpBy, ReceiptOk, ReceiptOf, Says, Prepared;
    RunningOk(w, pid, plan, AppliedRenamed, tempDurable);
    ReceiptSync(w.receipts[plan.id], plan, plan.id in w.applied, plan.id in w.aborted);
    SetReceipt(w.receipts, w.registry, w.applied, w.aborted, plan.id, SyncReceipt(w, pid, plan, AppliedSynced, tempDurable).receipts[plan.id],
               w.applied, w.aborted);
    FilesMove(w, SyncReceipt(w, pid, plan, AppliedSynced, tempDurable), pid, plan, AppliedRenamed, AppliedSynced, tempDurable);
  }

  lemma ConsumedPut(ledger: Cell<Ledger>, consumed: seq<(string, string)>, plan: Plan)
    requires ConsumedOk(ledger, consumed) && PlanOk(plan) && plan.operation.ConsumeOp?
    requires ledger.disk != [] && ledger.Durable() == Whole(plan.post)
    requires (plan.entry.keyId, plan.entry.challenge) !in consumed
    ensures ConsumedOk(ledger, consumed + [(plan.entry.keyId, plan.entry.challenge)])
  {
    assert HasConsumed(plan.post, plan.entry.keyId, plan.entry.challenge);
    assert HasConsumed(StateOf(ledger.disk[|ledger.disk| - 1]), plan.entry.keyId, plan.entry.challenge);
  }

  lemma ReturnOk(w: World, pid: Pid, plan: Plan, tempDurable: bool)
    requires ProcessesOk(w) && Running(w, pid, plan, AppliedSynced, tempDurable)
    requires CommitOk(w, plan, AppliedSynced, tempDurable)
    requires RegistryOk(w.registry)
    requires ConsumedOk(w.ledger, w.consumed)
    ensures var v := Return(w, pid, plan);
            && Grows(w, v)
            && ProcessesOk(v)
            && ConsumedOk(v.ledger, v.consumed)
  {
    hide PlanOk, FilesAt, HasConsumed;
    RunningOk(w, pid, plan, AppliedSynced, tempDurable);
    if plan.operation.ConsumeOp? {
      ConsumedPut(w.ledger, w.consumed, plan);
    }
    OthersOk(w, Return(w, pid, plan), pid);
  }

  predicate OnFiles(stage: Stage) {
    stage.Planned? || stage.BackupFilled? || stage.BackedUp? || stage.ReceiptOpened? || stage.ReceiptFilled?
    || stage.AppliedRenamed?
  }

  lemma CommitFilesStep(w: World, pid: Pid, plan: Plan, stage: Stage, tempDurable: bool, now: Instant)
    requires Inv(w) && Running(w, pid, plan, stage, tempDurable) && OnFiles(stage)
    requires CommitOk(w, plan, stage, tempDurable)
    ensures Inv(Commit(w, pid, plan, stage, tempDurable, now)) && Grows(w, Commit(w, pid, plan, stage, tempDurable, now))
  {
    hide LedgerOk, RegistryOk, ReceiptsOk, BackupsOk, VerdictsOk, ConsumedOk, ProcessesOk, CommitOk;
    if
    case stage.Planned? => CreateBackupOk(w, pid, plan, tempDurable);
    case stage.BackupFilled? => SyncBackupOk(w, pid, plan, tempDurable);
    case stage.BackedUp? => OpenReceiptOk(w, pid, plan, tempDurable);
    case stage.ReceiptOpened? => FillReceiptOk(w, pid, plan, tempDurable);
    case stage.ReceiptFilled? => SyncPreparedOk(w, pid, plan, tempDurable);
    case stage.AppliedRenamed? => SyncAppliedOk(w, pid, plan, tempDurable);
  }

  lemma CommitLedgerStep(w: World, pid: Pid, plan: Plan, stage: Stage, tempDurable: bool, now: Instant)
    requires Inv(w) && Running(w, pid, plan, stage, tempDurable) && !OnFiles(stage)
    requires CommitOk(w, plan, stage, tempDurable)
    ensures Inv(Commit(w, pid, plan, stage, tempDurable, now)) && Grows(w, Commit(w, pid, plan, stage, tempDurable, now))
  {
    hide LedgerOk, RegistryOk, ReceiptsOk, BackupsOk, VerdictsOk, ConsumedOk, ProcessesOk;
    if
    case stage.ReceiptSynced? => CreateTempOk(w, pid, plan, tempDurable);
    case stage.TempWritten? => SyncTempOk(w, pid, plan, tempDurable);
    case stage.TempSynced? => RenameLedgerOk(w, pid, plan, tempDurable);
    case stage.Renamed? => SyncDirectoryOk(w, pid, plan, tempDurable);
    case stage.DirectorySynced? =>
      AppliedVerdicts(w, plan);
      WriteAppliedOk(w, pid, plan, tempDurable, now);
    case stage.AppliedSynced? => ReturnOk(w, pid, plan, tempDurable);
  }

  lemma CommitStep(w: World, pid: Pid, plan: Plan, stage: Stage, tempDurable: bool, now: Instant)
    requires Inv(w) && Running(w, pid, plan, stage, tempDurable)
    ensures CommitOk(w, plan, stage, tempDurable)
    ensures Inv(Commit(w, pid, plan, stage, tempDurable, now)) && Grows(w, Commit(w, pid, plan, stage, tempDurable, now))
  {
    RunningOk(w, pid, plan, stage, tempDurable);
    if OnFiles(stage) {
      CommitFilesStep(w, pid, plan, stage, tempDurable, now);
    } else {
      CommitLedgerStep(w, pid, plan, stage, tempDurable, now);
    }
  }

  lemma DecideStep(w: World, pid: Pid, id: OperationId)
    requires Inv(w) && pid in w.procs && w.procs[pid] == Holding(RecoverCall(id))
    ensures id in w.receipts && w.receipts[id].disk != [] && w.ledger.disk != []
    ensures Inv(Decide(w, pid, id)) && Grows(w, Decide(w, pid, id))
  {
    assert ProcessOk(w, pid, w.procs[pid]);
    VisibleReceipt(w, id);
    var v := Decide(w, pid, id);
    if v == End(w, pid) {
      EndStep(w, pid);
    } else {
      var plan := w.registry[id];
      if v.procs[pid] == Recovering(id, AppliedStatus, false) {
        SameReferenceMeans(w.ledger.Visible(), Whole(plan.post));
        DecideApplied(w, pid, id);
      } else {
        assert PlanOk(plan);
        SameReferenceMeans(w.ledger.Visible(), plan.pre);
        RecoveringProcesses(w, v, pid, id, AbortedStatus, false);
      }
    }
  }

  lemma DecideApplied(w: World, pid: Pid, id: OperationId)
    requires Inv(w) && pid in w.procs && w.lock == Some(pid)
    requires id in w.receipts && id in w.registry && w.receipts[id].disk != []
    requires w.receipts[id].Visible() == Whole(Prepared(w.registry[id]))
    requires w.ledger.Visible() == Whole(w.registry[id].post)
    ensures var v := Become(w, pid, Recovering(id, AppliedStatus, false)).(ledger := w.ledger.Sync());
            Inv(v) && Grows(w, v)
  {
    var v := Become(w, pid, Recovering(id, AppliedStatus, false)).(ledger := w.ledger.Sync());
    SyncKeeps(w);
    RecoveringProcesses(w, v, pid, id, AppliedStatus, false);
  }

  lemma RecoveringProcesses(w: World, v: World, pid: Pid, id: OperationId, verdict: ReceiptStatus, written: bool)
    requires ProcessesOk(w) && w.lock == Some(pid) && v.lock == w.lock
    requires v.procs == w.procs[pid := Recovering(id, verdict, written)]
    requires v.registry == w.registry && w.ledger.disk <= v.ledger.disk
    requires w.applied <= v.applied && w.aborted <= v.aborted
    requires forall x | x in w.receipts :: x in v.receipts && w.receipts[x].disk <= v.receipts[x].disk
    requires RecoverOk(v, id, verdict, written)
    ensures ProcessesOk(v) && Grows(w, v)
  {
    OthersOk(w, v, pid);
  }

  lemma VerdictFiles(w: World, pid: Pid, id: OperationId, verdict: ReceiptStatus, now: Instant)
    requires ReceiptsOk(w.receipts, w.registry, w.applied, w.aborted)
    requires BackupsOk(w.receipts, w.registry, w.backups)
    requires RecoverOk(w, id, verdict, false)
    ensures var v := WriteVerdict(w, pid, id, verdict, now);
            && v.receipts == w.receipts[id := w.receipts[id].Put(Whole(ReceiptOf(w.registry[id], verdict, Some(now))))]
            && ReceiptsOk(v.receipts, v.registry, v.applied, v.aborted)
            && BackupsOk(v.receipts, v.registry, v.backups)
  {
    var v := WriteVerdict(w, pid, id, verdict, now);
    var c := Whole(ReceiptOf(w.registry[id], verdict, Some(now)));
    ReceiptPut(w.receipts[id], w.registry[id], id in w.applied, id in w.aborted, c, verdict);
    assert v.receipts[id] == w.receipts[id].Put(c);
    SetReceipt(w.receipts, w.registry, w.applied, w.aborted, id, v.receipts[id], v.applied, v.aborted);
  }

  lemma VerdictLedger(w: World, pid: Pid, id: OperationId, verdict: ReceiptStatus, now: Instant)
    requires LedgerOk(w.ledger, w.challenges) && RegistryOk(w.registry)
    requires VerdictsOk(w.ledger, w.registry, w.applied, w.aborted)
    requires RecoverOk(w, id, verdict, false)
    ensures var v := WriteVerdict(w, pid, id, verdict, now);
            VerdictsOk(v.ledger, v.registry, v.applied, v.aborted)
  {
    if verdict.AbortedStatus? {
      assert PlanOk(w.registry[id]);
      PostIsAhead(w.ledger, w.challenges, w.registry[id]);
    }
  }

  lemma VerdictStep(w: World, pid: Pid, id: OperationId, verdict: ReceiptStatus, now: Instant)
    requires Inv(w) && pid in w.procs && w.procs[pid] == Recovering(id, verdict, false)
    ensures RecoverOk(w, id, verdict, false)
    ensures Inv(WriteVerdict(w, pid, id, verdict, now)) && Grows(w, WriteVerdict(w, pid, id, verdict, now))
  {
    assert ProcessOk(w, pid, w.procs[pid]);
    VerdictFiles(w, pid, id, verdict, now);
    VerdictLedger(w, pid, id, verdict, now);
    RecoveringProcesses(w, WriteVerdict(w, pid, id, verdict, now), pid, id, verdict, true);
  }

  lemma RecoverEndStep(w: World, pid: Pid, id: OperationId, verdict: ReceiptStatus)
    requires Inv(w) && pid in w.procs && w.procs[pid] == Recovering(id, verdict, true)
    ensures RecoverOk(w, id, verdict, true)
    ensures var v := End(w, pid).(receipts := w.receipts[id := w.receipts[id].Sync()]);
            Inv(v) && Grows(w, v)
  {
    assert ProcessOk(w, pid, w.procs[pid]);
    var v := End(w, pid).(receipts := w.receipts[id := w.receipts[id].Sync()]);
    ReceiptSync(w.receipts[id], w.registry[id], id in w.applied, id in w.aborted);
    SetReceipt(w.receipts, w.registry, w.applied, w.aborted, id, v.receipts[id], w.applied, w.aborted);
    OthersOk(w, v, pid);
  }

  lemma LedgerLose(w: World, keep: nat)
    requires LedgerOk(w.ledger, w.challenges) && ConsumedOk(w.ledger, w.consumed)
    requires VerdictsOk(w.ledger, w.registry, w.applied, w.aborted)
    ensures LedgerOk(w.ledger.Lose(keep), w.challenges) && ConsumedOk(w.ledger.Lose(keep), w.consumed)
    ensures VerdictsOk(w.ledger.Lose(keep), w.registry, w.applied, w.aborted)
    ensures w.ledger.disk <= w.ledger.Lose(keep).disk
  {
    if 0 < keep <= |w.ledger.pending| {
      LedgerOkKeep(w.ledger, w.challenges, keep - 1);
    } else {
      LedgerOkDrop(w.ledger, w.challenges);
    }
    DiskGrows(w.ledger, w.ledger.Lose(keep), w.consumed);
    VerdictsShrink(w.ledger, w.ledger.Lose(keep), w.registry, w.applied, w.aborted);
  }

  lemma FilesLose(w: World, keepReceipt: OperationId -> nat, keepBackup: OperationId -> nat)
    requires ReceiptsOk(w.receipts, w.registry, w.applied, w.aborted)
    requires BackupsOk(w.receipts, w.registry, w.backups)
    ensures ReceiptsOk(LoseAll(w.receipts, keepReceipt), w.registry, w.applied, w.aborted)
    ensures BackupsOk(LoseAll(w.receipts, keepReceipt), w.registry, LoseAll(w.backups, keepBackup))
    ensures forall id | id in w.receipts ::
              id in LoseAll(w.receipts, keepReceipt) && w.receipts[id].disk <= LoseAll(w.receipts, keepReceipt)[id].disk
  {
    forall id | id in w.receipts
      ensures ReceiptOk(w.receipts[id].Lose(keepReceipt(id)), w.registry[id], id in w.applied, id in w.aborted)
    {
      ReceiptLose(w.receipts[id], w.registry[id], id in w.applied, id in w.aborted, keepReceipt(id));
    }
    forall id | id in w.receipts ensures BackedUpBy(LoseAll(w.backups, keepBackup), w.registry[id]) {
      assert BackedUpBy(w.backups, w.registry[id]);
    }
  }

  lemma PowerLossStep(w: World, keepLedger: nat, keepReceipt: OperationId -> nat, keepBackup: OperationId -> nat)
    requires Inv(w)
    ensures Inv(Step(w, PowerLoss(keepLedger, keepReceipt, keepBackup)))
    ensures Grows(w, Step(w, PowerLoss(keepLedger, keepReceipt, keepBackup)))
  {
    LedgerLose(w, keepLedger);
    FilesLose(w, keepReceipt, keepBackup);
    hide LedgerOk, RegistryOk, ReceiptsOk, BackupsOk, VerdictsOk, ConsumedOk, LoseAll;
  }

  // ---------------------------------------------------------------- write-back

  lemma LedgerFlush(w: World, n: nat)
    requires LedgerOk(w.ledger, w.challenges) && ConsumedOk(w.ledger, w.consumed)
    requires VerdictsOk(w.ledger, w.registry, w.applied, w.aborted)
    ensures LedgerOk(w.ledger.Flush(n), w.challenges) && ConsumedOk(w.ledger.Flush(n), w.consumed)
    ensures VerdictsOk(w.ledger.Flush(n), w.registry, w.applied, w.aborted)
    ensures w.ledger.disk <= w.ledger.Flush(n).disk
  {
    LedgerOkFlush(w.ledger, w.challenges, n);
    DiskGrows(w.ledger, w.ledger.Flush(n), w.consumed);
    VerdictsShrink(w.ledger, w.ledger.Flush(n), w.registry, w.applied, w.aborted);
  }

  lemma FilesFlush(w: World, flushReceipt: OperationId -> nat, flushBackup: OperationId -> nat)
    requires ReceiptsOk(w.receipts, w.registry, w.applied, w.aborted)
    requires BackupsOk(w.receipts, w.registry, w.backups)
    ensures ReceiptsOk(FlushAll(w.receipts, flushReceipt), w.registry, w.applied, w.aborted)
    ensures BackupsOk(FlushAll(w.receipts, flushReceipt), w.registry, FlushAll(w.backups, flushBackup))
    ensures forall id | id in w.receipts ::
              id in FlushAll(w.receipts, flushReceipt) && w.receipts[id].disk <= FlushAll(w.receipts, flushReceipt)[id].disk
  {
    forall id | id in w.receipts
      ensures ReceiptOk(w.receipts[id].Flush(flushReceipt(id)), w.registry[id], id in w.applied, id in w.aborted)
    {
      ReceiptFlush(w.receipts[id], w.registry[id], id in w.applied, id in w.aborted, flushReceipt(id));
    }
    forall id | id in w.receipts ensures BackedUpBy(FlushAll(w.backups, flushBackup), w.registry[id]) {
      assert BackedUpBy(w.backups, w.registry[id]);
    }
  }

  lemma FlushedCells<T>(cells: map<OperationId, Cell<T>>, flush: OperationId -> nat)
    ensures FlushAll(cells, flush).Keys == cells.Keys
    ensures forall id | id in cells && cells[id].disk != [] ::
              && cells[id].disk <= FlushAll(cells, flush)[id].disk
              && FlushAll(cells, flush)[id].Visible() == cells[id].Visible()
              && (cells[id].pending == [] ==> FlushAll(cells, flush)[id] == cells[id])
  {
    forall id | id in cells && cells[id].disk != []
      ensures cells[id].disk <= FlushAll(cells, flush)[id].disk
      ensures FlushAll(cells, flush)[id].Visible() == cells[id].Visible()
      ensures cells[id].pending == [] ==> FlushAll(cells, flush)[id] == cells[id]
    {
      FlushStates(cells[id], flush(id));
    }
  }

  lemma FlushedFiles(w: World, v: World, plan: Plan, stage: Stage, flushReceipt: OperationId -> nat,
                     flushBackup: OperationId -> nat)
    requires FilesAt(w.receipts, w.backups, plan, stage)
    requires v.receipts == FlushAll(w.receipts, flushReceipt) && v.backups == FlushAll(w.backups, flushBackup)
    ensures FilesAt(v.receipts, v.backups, plan, stage)
  {
    FlushedCells(w.receipts, flushReceipt);
    FlushedCells(w.backups, flushBackup);
    hide FlushAll;
  }

  lemma FlushedLedger(ledger: Cell<Ledger>, challenges: set<string>, plan: Plan, stage: Stage, n: nat)
    requires LedgerAt(ledger, challenges, plan, stage)
    ensures LedgerAt(ledger.Flush(n), challenges, plan, stage)
  {
    FlushStates(ledger, n);
    if BeforeRename(stage) && 0 < n <= |ledger.pending| {
      LedgerOkFlush(ledger.Put(Whole(plan.post)), challenges, n);
      assert ledger.Put(Whole(plan.post)).Flush(n) == ledger.Flush(n).Put(Whole(plan.post));
    }
  }

  lemma FlushedProcess(w: World, v: World, pid: Pid, flushLedger: nat, flushReceipt: OperationId -> nat,
                       flushBackup: OperationId -> nat)
    requires pid in w.procs && ProcessOk(w, pid, w.procs[pid]) && w.ledger.disk != []
    requires v == w.(ledger := w.ledger.Flush(flushLedger), receipts := FlushAll(w.receipts, flushReceipt),
                     backups := FlushAll(w.backups, flushBackup))
    ensures ProcessOk(v, pid, w.procs[pid])
  {
    FlushedCells(w.receipts, flushReceipt);
    FlushStates(w.ledger, flushLedger);
    hide FlushAll, LedgerOk, LedgerAt, PlanOk, ReceiptParses, FilesAt;
    if w.procs[pid].Committing? {
      FlushedFiles(w, v, w.procs[pid].plan, w.procs[pid].stage, flushReceipt, flushBackup);
      FlushedLedger(w.ledger, w.challenges, w.procs[pid].plan, w.procs[pid].stage, flushLedger);
    }
  }

  lemma FlushedProcesses(w: World, v: World, flushLedger: nat, flushReceipt: OperationId -> nat,
                         flushBackup: OperationId -> nat)
    requires ProcessesOk(w) && w.ledger.disk != []
    requires v == w.(ledger := w.ledger.Flush(flushLedger), receipts := FlushAll(w.receipts, flushReceipt),
                     backups := FlushAll(w.backups, flushBackup))
    ensures ProcessesOk(v)
  {
    hide ProcessOk, FlushAll;
    forall pid | pid in w.procs ensures ProcessOk(v, pid, v.procs[pid]) {
      FlushedProcess(w, v, pid, flushLedger, flushReceipt, flushBackup);
    }
  }

  /** Durability that arrives early disturbs no process. */
  lemma WriteBackStep(w: World, flushLedger: nat, flushReceipt: OperationId -> nat, flushBackup: OperationId -> nat)
    requires Inv(w)
    ensures Inv(Step(w, WriteBack(flushLedger, flushReceipt, flushBackup)))
    ensures Grows(w, Step(w, WriteBack(flushLedger, flushReceipt, flushBackup)))
  {
    LedgerFlush(w, flushLedger);
    FilesFlush(w, flushReceipt, flushBackup);
    hide RegistryOk, ReceiptsOk, BackupsOk, VerdictsOk, ConsumedOk, ProcessesOk, FlushAll;
    FlushedProcesses(w, Step(w, WriteBack(flushLedger, flushReceipt, flushBackup)), flushLedger, flushReceipt, flushBackup);
    hide LedgerOk;
  }

  /** Every event keeps the invariant and takes nothing back. */
  lemma StepSafe(w: World, e: Event)
    requires Inv(w)
    ensures Inv(Step(w, e)) && Grows(w, Step(w, e))
  {
    match e
    case Begin(pid, request) =>
      if pid !in w.procs && CanBegin(w, request) {
        BeginStep(w, pid, request);
      }
    case Go(pid, id, generate, now) =>
      if pid in w.procs {
        GoStep(w, pid, id, generate, now);
      }
    case Halt(pid) =>
      if pid in w.procs {
        EndStep(w, pid);
      }
    case WriteBack(flushLedger, flushReceipt, flushBackup) =>
      WriteBackStep(w, flushLedger, flushReceipt, flushBackup);
    case PowerLoss(keepLedger, keepReceipt, keepBackup) =>
      PowerLossStep(w, keepLedger, keepReceipt, keepBackup);
  }

  lemma WaitOrPlanStep(w: World, pid: Pid, id: OperationId, generate: nat -> string, now: Instant)
    requires Inv(w) && pid in w.procs && (w.procs[pid].Waiting? || w.procs[pid].Holding?)
    ensures Inv(Advance(w, pid, id, generate, now)) && Grows(w, Advance(w, pid, id, generate, now))
  {
    if w.procs[pid].Waiting? {
      if w.lock.None? {
        AcquireStep(w, pid, w.procs[pid].request);
      }
    } else if w.procs[pid].request.RecoverCall? {
      DecideStep(w, pid, w.procs[pid].request.id);
    } else if Fresh(w, w.procs[pid].request, id, generate) {
      StartStep(w, pid, w.procs[pid].request, id, generate);
    }
  }

  lemma GoStep(w: World, pid: Pid, id: OperationId, generate: nat -> string, now: Instant)
    requires Inv(w) && pid in w.procs
    ensures Inv(Advance(w, pid, id, generate, now)) && Grows(w, Advance(w, pid, id, generate, now))
  {
    match w.procs[pid]
    case Waiting(_) => WaitOrPlanStep(w, pid, id, generate, now);
    case Holding(_) => WaitOrPlanStep(w, pid, id, generate, now);
    case Committing(plan, stage, tempDurable) => CommitStep(w, pid, plan, stage, tempDurable, now);
    case Recovering(op, verdict, written) =>
      if written {
        RecoverEndStep(w, pid, op, verdict);
      } else {
        VerdictStep(w, pid, op, verdict, now);
      }
  }
}
