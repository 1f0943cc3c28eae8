/**
 * The write-ahead protocol around the ledger, as a state machine. Any number of
 * processes issue, consume, roll back and recover; a process can die at any point
 * (a crash or a thrown fault), and power loss drops any un-synced directory change.
 */
module ChallengeProtocol {
  import opened Basics
  import opened ChallengeLedger

  type Pid = nat
  type OperationId = string
  /** What the clock of the host can show. */
  type Instant = ms: nat | ms <= MAX_DATE_MS

  // ------------------------------------------------------------------- storage

  datatype Contents<T> = Absent | Torn | Whole(value: T)

  /**
   * One directory entry. `disk` lists every content the entry is known to have had
   * durably, oldest first; `pending` lists later contents that no sync has covered.
   */
  datatype Cell<T> = Cell(disk: seq<Contents<T>>, pending: seq<Contents<T>>) {

    ghost predicate Valid() {
      disk != []
    }

    function States(): seq<Contents<T>> {
      disk + pending
    }

    function Durable(): Contents<T>
      requires disk != []
    {
      Last(disk)
    }

    function Visible(): Contents<T>
      requires disk != []
    {
      if pending == [] then Last(disk) else Last(pending)
    }

    function Put(c: Contents<T>): Cell<T> {
      Cell(disk, pending + [c])
    }

    function Sync(): Cell<T> {
      if pending == [] then this else Cell(disk + [Last(pending)], [])
    }

    /** The file system makes the n-th pending content durable by itself. */
    function Flush(n: nat): Cell<T> {
      if 0 < n <= |pending| then Cell(disk + [pending[n - 1]], pending[n..]) else this
    }

    /** Power loss: the entry comes back with its durable content or any pending one. */
    function Lose(keep: nat): Cell<T> {
      if 0 < keep <= |pending| then Cell(disk + [pending[keep - 1]], []) else Cell(disk, [])
    }
  }

  // ------------------------------------------------- snapshots and references

  /** SHA-256 is taken to be injective: a digest is the content it was taken of. */
  datatype Digest = NoFile | Sha256(of: Ledger)

  datatype Reference = Reference(
    exists_: bool, generation: nat, digest: Digest, lastOperationId: Option<string>)

  datatype Snapshot = Snapshot(exists_: bool, digest: Digest, state: Ledger)

  function StateOf(c: Contents<Ledger>): Ledger {
    if c.Whole? then c.value else INITIAL
  }

  function Generation(c: Contents<Ledger>): nat {
    StateOf(c).generation
  }

  function ReadLedger(c: Contents<Ledger>): Result<Snapshot, string> {
    match c
    case Absent => Success(Snapshot(false, NoFile, INITIAL))
    case Torn => Failure("challenge-ledger-json-invalid")
    case Whole(l) => if Parses(l) then Success(Snapshot(true, Sha256(l), l))
                     else Failure("challenge-ledger-rejected")
  }

  function ReferenceOf(c: Contents<Ledger>): Reference {
    if c.Whole? then Reference(true, c.value.generation, Sha256(c.value), c.value.lastOperationId)
    else Reference(false, 0, NoFile, None)
  }

  predicate SameReference(s: Snapshot, r: Reference) {
    s.exists_ == r.exists_ && s.state.generation == r.generation && s.digest == r.digest
    && s.state.lastOperationId == r.lastOperationId
  }

  // ------------------------------------------------------ operations, receipts

  datatype Operation = IssueOp | ConsumeOp | RevokeOp
  datatype ReceiptStatus = PreparedStatus | AppliedStatus | AbortedStatus

  datatype Receipt = Receipt(
    status: ReceiptStatus, operation: Operation, operationId: OperationId,
    keyId: string, challenge: string, createdAt: nat, completedAt: Option<nat>,
    pre: Reference, post: Reference, backup: Option<Digest>, hasSource: bool)

  /** One call's decision: what it read, what it will commit. */
  datatype Plan = Plan(
    operation: Operation, id: OperationId, createdAt: nat, entry: Entry, pre: Contents<Ledger>, post: Ledger)

  function ReceiptOf(p: Plan, status: ReceiptStatus, completedAt: Option<nat>): Receipt {
    Receipt(status, p.operation, p.id, p.entry.keyId, p.entry.challenge, p.createdAt, completedAt,
            ReferenceOf(p.pre), ReferenceOf(Whole(p.post)),
            if p.pre.Whole? then Some(Sha256(p.pre.value)) else None, p.operation.RevokeOp?)
  }

  /** The receipt a commit writes before it touches the ledger. */
  function Prepared(p: Plan): Receipt {
    ReceiptOf(p, PreparedStatus, None)
  }

  /** The content of a receipt file that gives this plan this status, whenever it was completed. */
  predicate Says(c: Contents<Receipt>, p: Plan, status: ReceiptStatus) {
    && c.Whole? && c.value == ReceiptOf(p, status, c.value.completedAt)
    && (status.PreparedStatus? <==> c.value.completedAt.None?)
  }

  /** `receiptParser`: identities, timestamps and the cross-field invariants. */
  predicate ReceiptParses(r: Receipt) {
    && ValidOperationId(r.operationId) && ValidKeyId(r.keyId) && ValidChallenge(r.challenge)
    && CanonicalTime(r.createdAt) && (r.completedAt.Some? ==> CanonicalTime(r.completedAt.value))
    && r.pre.generation <= MAX_SAFE_INTEGER && r.post.generation <= MAX_SAFE_INTEGER
    && (!r.pre.exists_ ==> r.pre.generation == 0 && r.pre.digest.NoFile? && r.pre.lastOperationId.None?)
    && (r.pre.exists_ ==> r.pre.generation != 0 && r.pre.digest.Sha256? && r.pre.lastOperationId.Some?)
    && r.post.exists_ && r.post.generation == r.pre.generation + 1
    && r.post.lastOperationId == Some(r.operationId) && r.post.digest.Sha256?
    && r.backup == (if r.pre.exists_ then Some(r.pre.digest) else None)
    && (r.status.PreparedStatus? <==> r.completedAt.None?)
    && (r.operation.RevokeOp? <==> r.hasSource)
  }

  // ----------------------------------------------------------------- processes

  datatype Request =
    | IssueCall(q: IssueRequest)
    | ConsumeCall(keyId: string, challenge: string, nowMs: int)
    | RevokeCall(source: Receipt, nowMs: int)
    | RecoverCall(id: OperationId)

  /** Where `commitTransition` stands; each names the last effect that took place. */
  datatype Stage =
    | Planned | BackupFilled | BackedUp
    | ReceiptOpened | ReceiptFilled | ReceiptSynced
    | TempWritten | TempSynced | Renamed | DirectorySynced
    | AppliedRenamed | AppliedSynced

  datatype Process =
    | Waiting(request: Request)
    | Holding(request: Request)
    | Committing(plan: Plan, stage: Stage, tempDurable: bool)
    | Recovering(id: OperationId, verdict: ReceiptStatus, written: bool)

  /**
   * `registry` remembers every plan ever made, `challenges` every challenge ever
   * generated, `applied` and `aborted` every verdict ever visible, and `consumed`
   * the identity in every successful return of a consume call.
   */
  datatype World = World(
    ledger: Cell<Ledger>,
    receipts: map<OperationId, Cell<Receipt>>,
    backups: map<OperationId, Cell<Ledger>>,
    lock: Option<Pid>,
    procs: map<Pid, Process>,
    registry: map<OperationId, Plan>,
    challenges: set<string>,
    applied: set<OperationId>,
    aborted: set<OperationId>,
    consumed: seq<(string, string)>)

  const START := World(Cell([Absent], []), map[], map[], None, map[], map[], {}, {}, {}, [])

  /**
   * `Go` is the next effect of a process, given what it might generate and read from its clock.
   * `WriteBack` makes any pending change durable early: a sync made for another file of the same
   * directory (the lock file, a temp file that is cleaned up, another receipt) or by the system.
   */
  datatype Event =
    | Begin(pid: Pid, request: Request)
    | Go(pid: Pid, id: OperationId, generate: nat -> string, now: Instant)
    | Halt(pid: Pid)
    | WriteBack(flushLedger: nat, flushReceipt: OperationId -> nat, flushBackup: OperationId -> nat)
    | PowerLoss(keepLedger: nat, keepReceipt: OperationId -> nat, keepBackup: OperationId -> nat)

  /** The lock-free work before `acquireMutationLock`: loading the receipt a call is about. */
  predicate CanBegin(w: World, request: Request) {
    match request
    case IssueCall(_) => true
    case ConsumeCall(_, _, _) => true
    case RevokeCall(source, _) =>
      && source.operationId in w.receipts
      && w.receipts[source.operationId].disk != []
      && w.receipts[source.operationId].Visible() == Whole(source)
      && ReceiptParses(source) && source.status.AppliedStatus? && source.operation.IssueOp?
    case RecoverCall(id) =>
      && id in w.receipts && w.receipts[id].disk != []
      && w.receipts[id].Visible().Whole? && ReceiptParses(w.receipts[id].Visible().value)
      && w.receipts[id].Visible().value.status.PreparedStatus?
  }

  /** Process `pid` ends, by returning or by dying, and its lock goes with it. */
  function End(w: World, pid: Pid): World {
    w.(procs := w.procs - {pid}, lock := if w.lock == Some(pid) then None else w.lock)
  }

  function Become(w: World, pid: Pid, p: Process): World {
    w.(procs := w.procs[pid := p])
  }

  /** The clock a call was given, from which its operation id and its timestamps are made. */
  function Clock(request: Request): int {
    match request
    case IssueCall(q) => q.nowMs
    case ConsumeCall(_, _, nowMs) => nowMs
    case RevokeCall(_, nowMs) => nowMs
    case RecoverCall(_) => 0
  }

  /** Fresh identifiers: nothing generated earlier comes back. */
  predicate Fresh(w: World, request: Request, id: OperationId, generate: nat -> string) {
    && id !in w.registry && StampedBy(id, Clock(request))
    && forall i | 0 <= i < ISSUE_ATTEMPTS :: ValidChallenge(generate(i)) && generate(i) !in w.challenges
  }

  /** The body of issue, consume and rollback between the lock and `commitTransition`. */
  function PlanFor(visible: Contents<Ledger>, request: Request, id: OperationId, generate: nat -> string)
    : Result<Plan, string>
    requires !request.RecoverCall?
  {
    var pre :- ReadLedger(visible);
    match request
    case IssueCall(q) =>
      var c :- Issue(pre.state, q, generate, id);
      var now :- Timestamp(q.nowMs);
      Success(Plan(IssueOp, id, now, c.entry, visible, c.post))
    case ConsumeCall(keyId, challenge, nowMs) =>
      var c :- Consume(pre.state, keyId, challenge, nowMs, id);
      var now :- Timestamp(nowMs);
      Success(Plan(ConsumeOp, id, now, c.entry, visible, c.post))
    case RevokeCall(source, nowMs) =>
      if !SameReference(pre, source.post) then
        Failure("challenge-ledger-rollback-drift")
      else
        var c :- Revoke(pre.state, source.keyId, source.challenge, nowMs, id);
        var now :- Timestamp(nowMs);
        Success(Plan(RevokeOp, id, now, c.entry, visible, c.post))
  }

  function StartCommit(w: World, pid: Pid, request: Request, id: OperationId, generate: nat -> string): World
    requires w.ledger.disk != [] && !request.RecoverCall?
  {
    var plan := PlanFor(w.ledger.Visible(), request, id, generate);
    if plan.Failure? then End(w, pid)
    else
      Become(w, pid, Committing(plan.value, Planned, false))
        .(registry := w.registry[id := plan.value],
          challenges := w.challenges + {plan.value.entry.challenge})
  }

  /** `readLedger` followed by `sameReference`: the two drift checks of a commit. */
  predicate StillAt(w: World, pre: Contents<Ledger>)
    requires w.ledger.disk != []
  {
    var now := ReadLedger(w.ledger.Visible());
    now.Success? && SameReference(now.value, ReferenceOf(pre))
  }

  /** Renaming a temp whose bytes were never synced can leave a torn file after power loss. */
  function RenameOver(ledger: Cell<Ledger>, post: Ledger, tempDurable: bool): Cell<Ledger> {
    (if tempDurable then ledger else ledger.Put(Torn)).Put(Whole(post))
  }

  // The effects of `commitTransition`, in order. Each leaves `pid` at the stage it names.

  function CreateBackup(w: World, pid: Pid, plan: Plan, tempDurable: bool): World {
    if plan.pre.Whole? then
      w.(procs := w.procs[pid := Committing(plan, BackupFilled, tempDurable)],
         backups := w.backups[plan.id := Cell([Absent], [Torn, plan.pre])])
    else
      w.(procs := w.procs[pid := Committing(plan, BackedUp, tempDurable)])
  }

  function SyncBackup(w: World, pid: Pid, plan: Plan, tempDurable: bool): World
    requires plan.id in w.backups
  {
    w.(procs := w.procs[pid := Committing(plan, BackedUp, tempDurable)],
       backups := w.backups[plan.id := w.backups[plan.id].Sync()])
  }

  function OpenReceipt(w: World, pid: Pid, plan: Plan, tempDurable: bool): World {
    w.(procs := w.procs[pid := Committing(plan, ReceiptOpened, tempDurable)],
       receipts := w.receipts[plan.id := Cell([Absent], [Torn])])
  }

  function FillReceipt(w: World, pid: Pid, plan: Plan, tempDurable: bool): World
    requires plan.id in w.receipts
  {
    w.(procs := w.procs[pid := Committing(plan, ReceiptFilled, tempDurable)],
       receipts := w.receipts[plan.id := w.receipts[plan.id].Put(Whole(Prepared(plan)))])
  }

  function SyncReceipt(w: World, pid: Pid, plan: Plan, next: Stage, tempDurable: bool): World
    requires plan.id in w.receipts
  {
    w.(procs := w.procs[pid := Committing(plan, next, tempDurable)],
       receipts := w.receipts[plan.id := w.receipts[plan.id].Sync()])
  }

  function CreateTemp(w: World, pid: Pid, plan: Plan, tempDurable: bool): World
    requires w.ledger.disk != []
  {
    if StillAt(w, plan.pre) then w.(procs := w.procs[pid := Committing(plan, TempWritten, tempDurable)])
    else End(w, pid)
  }

  function SyncTemp(w: World, pid: Pid, plan: Plan): World {
    w.(procs := w.procs[pid := Committing(plan, TempSynced, true)])
  }

  function RenameLedger(w: World, pid: Pid, plan: Plan, tempDurable: bool): World
    requires w.ledger.disk != []
  {
    if StillAt(w, plan.pre) then
      w.(procs := w.procs[pid := Committing(plan, Renamed, tempDurable)],
         ledger := RenameOver(w.ledger, plan.post, tempDurable))
    else
      End(w, pid)
  }

  function SyncDirectory(w: World, pid: Pid, plan: Plan, tempDurable: bool): World {
    w.(procs := w.procs[pid := Committing(plan, DirectorySynced, tempDurable)], ledger := w.ledger.Sync())
  }

  function WriteApplied(w: World, pid: Pid, plan: Plan, tempDurable: bool, now: Instant): World
    requires plan.id in w.receipts
  {
    w.(procs := w.procs[pid := Committing(plan, AppliedRenamed, tempDurable)],
       receipts := w.receipts[plan.id := w.receipts[plan.id].Put(Whole(ReceiptOf(plan, AppliedStatus, Some(now))))],
       applied := w.applied + {plan.id})
  }

  function Return(w: World, pid: Pid, plan: Plan): World {
    End(w, pid).(consumed := if plan.operation.ConsumeOp?
                             then w.consumed + [(plan.entry.keyId, plan.entry.challenge)] else w.consumed)
  }

  /** The next effect of `commitTransition`. */
  function Commit(w: World, pid: Pid, plan: Plan, stage: Stage, tempDurable: bool, now: Instant): World
    requires w.ledger.disk != []
    requires stage == BackupFilled ==> plan.id in w.backups
    requires stage in {ReceiptOpened, ReceiptFilled, DirectorySynced, AppliedRenamed} ==> plan.id in w.receipts
  {
    match stage
    case Planned => CreateBackup(w, pid, plan, tempDurable)
    case BackupFilled => SyncBackup(w, pid, plan, tempDurable)
    case BackedUp => OpenReceipt(w, pid, plan, tempDurable)
    case ReceiptOpened => FillReceipt(w, pid, plan, tempDurable)
    case ReceiptFilled => SyncReceipt(w, pid, plan, ReceiptSynced, tempDurable)
    case ReceiptSynced => CreateTemp(w, pid, plan, tempDurable)
    case TempWritten => SyncTemp(w, pid, plan)
    case TempSynced => RenameLedger(w, pid, plan, tempDurable)
    case Renamed => SyncDirectory(w, pid, plan, tempDurable)
    case DirectorySynced => WriteApplied(w, pid, plan, tempDurable, now)
    case AppliedRenamed => SyncReceipt(w, pid, plan, AppliedSynced, tempDurable)
    case AppliedSynced => Return(w, pid, plan)
  }

  /** The decision of `recoverChallengeOperation`, made under the lock on the re-read receipt. */
  function Decide(w: World, pid: Pid, id: OperationId): World
    requires w.ledger.disk != []
    requires id in w.receipts && w.receipts[id].disk != []
  {
    var receipt := w.receipts[id].Visible();
    if !receipt.Whole? || !ReceiptParses(receipt.value) || receipt.value.operationId != id
       || !receipt.value.status.PreparedStatus? then
      End(w, pid)
    else
      var current := ReadLedger(w.ledger.Visible());
      if current.Failure? then End(w, pid)
      else if SameReference(current.value, receipt.value.post) then
        Become(w, pid, Recovering(id, AppliedStatus, false)).(ledger := w.ledger.Sync())
      else if SameReference(current.value, receipt.value.pre) then
        Become(w, pid, Recovering(id, AbortedStatus, false))
      else
        End(w, pid)
  }

  function WriteVerdict(w: World, pid: Pid, id: OperationId, verdict: ReceiptStatus, now: Instant): World
    requires id in w.receipts && w.receipts[id].disk != [] && w.receipts[id].Visible().Whole?
  {
    var receipt := w.receipts[id].Visible().value.(status := verdict, completedAt := Some(now));
    Become(w, pid, Recovering(id, verdict, true))
      .(receipts := w.receipts[id := w.receipts[id].Put(Whole(receipt))],
        applied := if verdict.AppliedStatus? then w.applied + {id} else w.applied,
        aborted := if verdict.AbortedStatus? then w.aborted + {id} else w.aborted)
  }

  /** One step of one process. */
  function Advance(w: World, pid: Pid, id: OperationId, generate: nat -> string, now: Instant): World
    requires Inv(w) && pid in w.procs
  {
    match w.procs[pid]
    case Waiting(request) =>
      if w.lock.None? then Become(w, pid, Holding(request)).(lock := Some(pid)) else w
    case Holding(request) =>
      if request.RecoverCall? then Decide(w, pid, request.id)
      else if Fresh(w, request, id, generate) then StartCommit(w, pid, request, id, generate)
      else w
    case Committing(plan, stage, tempDurable) => Commit(w, pid, plan, stage, tempDurable, now)
    case Recovering(op, verdict, written) =>
      if !written then WriteVerdict(w, pid, op, verdict, now)
      else End(w, pid).(receipts := w.receipts[op := w.receipts[op].Sync()])
  }

  function FlushAll<T>(cells: map<OperationId, Cell<T>>, flush: OperationId -> nat): map<OperationId, Cell<T>> {
    map id | id in cells :: cells[id].Flush(flush(id))
  }

  function LoseAll<T>(cells: map<OperationId, Cell<T>>, keep: OperationId -> nat): map<OperationId, Cell<T>> {
    map id | id in cells :: cells[id].Lose(keep(id))
  }

  function Step(w: World, e: Event): World
    requires Inv(w)
  {
    match e
    case Begin(pid, request) =>
      if pid !in w.procs && CanBegin(w, request) then Become(w, pid, Waiting(request)) else w
    case Go(pid, id, generate, now) =>
      if pid in w.procs then Advance(w, pid, id, generate, now) else w
    case Halt(pid) =>
      if pid in w.procs then End(w, pid) else w
    case WriteBack(flushLedger, flushReceipt, flushBackup) =>
      w.(ledger := w.ledger.Flush(flushLedger), receipts := FlushAll(w.receipts, flushReceipt),
         backups := FlushAll(w.backups, flushBackup))
    case PowerLoss(keepLedger, keepReceipt, keepBackup) =>
      w.(ledger := w.ledger.Lose(keepLedger), receipts := LoseAll(w.receipts, keepReceipt),
         backups := LoseAll(w.backups, keepBackup), lock := None, procs := map[])
  }

  // ---------------------------------------------------------------- invariant

  /** Ledger history: never torn, generations grow, entries only advance, challenges recorded. */
  ghost predicate LedgerOk(cell: Cell<Ledger>, challenges: set<string>) {
    var s := cell.States();
    && cell.disk != []
    && (forall i | 0 <= i < |s| :: !s[i].Torn?)
    && (forall i, j | 0 <= i < j < |s| :: Generation(s[i]) < Generation(s[j]))
    && (forall i, j | 0 <= i <= j < |s| :: Later(StateOf(s[i]), StateOf(s[j])))
    && (forall i | 0 <= i < |s| :: forall e | e in StateOf(s[i]).entries :: e.challenge in challenges)
  }

  ghost predicate PlanOk(p: Plan) {
    && StampedBy(p.id, p.createdAt) && ValidKeyId(p.entry.keyId) && ValidChallenge(p.entry.challenge)
    && ReadLedger(p.pre).Success?
    && p.post.generation == Generation(p.pre) + 1 <= MAX_SAFE_INTEGER
    && p.post.updatedAt == p.createdAt
    && p.post.lastOperationId == Some(p.id)
    && EntryFor(p.post.entries, p.entry.keyId, p.entry.challenge) == Some(p.entry)
    && p.entry.status == match p.operation case IssueOp => Issued case ConsumeOp => Consumed case RevokeOp => Revoked
  }

  ghost predicate RegistryOk(registry: map<OperationId, Plan>) {
    forall id | id in registry :: registry[id].id == id && PlanOk(registry[id])
  }

  predicate Terminal(c: Contents<Receipt>) {
    c.Whole? && !c.value.status.PreparedStatus?
  }

  /** A receipt file says only what its plan says, and a verdict in it is never overwritten. */
  ghost predicate ReceiptOk(cell: Cell<Receipt>, plan: Plan, applied: bool, aborted: bool) {
    var s := cell.States();
    && cell.disk != []
    && (forall i | 0 <= i < |s| && s[i].Whole? ::
          && Says(s[i], plan, s[i].value.status)
          && (s[i].value.status.AppliedStatus? ==> applied)
          && (s[i].value.status.AbortedStatus? ==> aborted))
    && (forall i, j | 0 <= i < j < |s| && Terminal(s[i]) :: s[j] == s[i])
  }

  ghost predicate ReceiptsOk(
    receipts: map<OperationId, Cell<Receipt>>, registry: map<OperationId, Plan>,
    applied: set<OperationId>, aborted: set<OperationId>)
  {
    forall id | id in receipts ::
      id in registry && ReceiptOk(receipts[id], registry[id], id in applied, id in aborted)
  }

  ghost predicate BackedUpBy(backups: map<OperationId, Cell<Ledger>>, plan: Plan) {
    plan.pre.Whole? ==>
      plan.id in backups && backups[plan.id].disk != [] && backups[plan.id].pending == []
      && backups[plan.id].Durable() == plan.pre
  }

  /** Write-ahead: a receipt file exists only beside a durable copy of the ledger it replaces. */
  ghost predicate BackupsOk(
    receipts: map<OperationId, Cell<Receipt>>, registry: map<OperationId, Plan>,
    backups: map<OperationId, Cell<Ledger>>)
  {
    forall id | id in receipts && id in registry :: BackedUpBy(backups, registry[id])
  }

  ghost predicate VerdictsOk(
    ledger: Cell<Ledger>, registry: map<OperationId, Plan>,
    applied: set<OperationId>, aborted: set<OperationId>)
  {
    && (forall id | id in applied :: id in registry && Whole(registry[id].post) in ledger.disk)
    && (forall id | id in aborted :: id in registry && Whole(registry[id].post) !in ledger.States())
  }

  ghost predicate HasConsumed(l: Ledger, keyId: string, challenge: string) {
    exists e | e in l.entries :: Names(e, keyId, challenge) && e.status.Consumed?
  }

  ghost predicate ConsumedOk(ledger: Cell<Ledger>, consumed: seq<(string, string)>) {
    && NoDuplicates(consumed)
    && forall x | x in consumed :: exists i | 0 <= i < |ledger.disk| :: HasConsumed(StateOf(ledger.disk[i]), x.0, x.1)
  }

  predicate BeforeRename(stage: Stage) {
    stage.Planned? || stage.BackupFilled? || stage.BackedUp? || stage.ReceiptOpened? || stage.ReceiptFilled?
    || stage.ReceiptSynced? || stage.TempWritten? || stage.TempSynced?
  }

  predicate BeforeReceipt(stage: Stage) {
    stage.Planned? || stage.BackupFilled? || stage.BackedUp?
  }

  predicate Verdict(stage: Stage) {
    stage.AppliedRenamed? || stage.AppliedSynced?
  }

  ghost predicate RequestOk(
    receipts: map<OperationId, Cell<Receipt>>, registry: map<OperationId, Plan>, r: Request)
  {
    match r
    case RevokeCall(source, _) =>
      && source.operationId in registry && Says(Whole(source), registry[source.operationId], AppliedStatus)
      && source.operation.IssueOp?
    case RecoverCall(id) => id in receipts
    case _ => true
  }

  /** The files a commit owns, stage by stage. */
  ghost predicate FilesAt(
    receipts: map<OperationId, Cell<Receipt>>, backups: map<OperationId, Cell<Ledger>>, plan: Plan, stage: Stage)
  {
    && (BeforeReceipt(stage) <==> plan.id !in receipts)
    && (stage == BackupFilled ==>
          plan.pre.Whole? && plan.id in backups && backups[plan.id].disk != []
          && backups[plan.id].Visible() == plan.pre)
    && (stage == BackedUp ==> BackedUpBy(backups, plan))
    && (stage == ReceiptOpened ==> receipts[plan.id].disk != [] && receipts[plan.id].Visible() == Torn)
    && (!BeforeReceipt(stage) && stage != ReceiptOpened && !Verdict(stage) ==>
          receipts[plan.id].disk != [] && receipts[plan.id].Visible() == Whole(Prepared(plan)))
    && (Verdict(stage) ==>
          receipts[plan.id].disk != [] && Says(receipts[plan.id].Visible(), plan, AppliedStatus))
    && (stage == AppliedSynced ==> receipts[plan.id].pending == [])
  }

  /** The ledger during a commit: first what was read, ready for the result; then the result. */
  ghost predicate LedgerAt(ledger: Cell<Ledger>, challenges: set<string>, plan: Plan, stage: Stage) {
    && ledger.disk != []
    && (BeforeRename(stage) ==>
          ledger.Visible() == plan.pre && LedgerOk(ledger.Put(Whole(plan.post)), challenges))
    && (stage == Renamed ==> ledger.Visible() == Whole(plan.post))
    && (!BeforeRename(stage) && stage != Renamed ==>
          ledger.Durable() == Whole(plan.post) && ledger.pending == [])
  }

  ghost predicate CommitOk(w: World, plan: Plan, stage: Stage, tempDurable: bool) {
    && plan.id in w.registry && w.registry[plan.id] == plan && plan.id !in w.aborted
    && (stage == TempSynced ==> tempDurable)
    && (plan.operation.ConsumeOp? ==> (plan.entry.keyId, plan.entry.challenge) !in w.consumed)
    && FilesAt(w.receipts, w.backups, plan, stage)
    && LedgerAt(w.ledger, w.challenges, plan, stage)
  }

  ghost predicate RecoverOk(w: World, id: OperationId, verdict: ReceiptStatus, written: bool) {
    && id in w.receipts && id in w.registry
    && w.receipts[id].disk != [] && w.ledger.disk != []
    && !verdict.PreparedStatus?
    && (!written ==>
          && w.receipts[id].Visible() == Whole(Prepared(w.registry[id]))
          && (verdict.AppliedStatus? ==> Whole(w.registry[id].post) in w.ledger.disk)
          && (verdict.AbortedStatus? ==> w.ledger.Visible() == w.registry[id].pre))
  }

  ghost predicate ProcessOk(w: World, pid: Pid, p: Process) {
    match p
    case Waiting(r) => RequestOk(w.receipts, w.registry, r) && w.lock != Some(pid)
    case Holding(r) => RequestOk(w.receipts, w.registry, r) && w.lock == Some(pid)
    case Committing(plan, stage, tempDurable) => w.lock == Some(pid) && CommitOk(w, plan, stage, tempDurable)
    case Recovering(id, verdict, written) => w.lock == Some(pid) && RecoverOk(w, id, verdict, written)
  }

  ghost predicate ProcessesOk(w: World) {
    && (w.lock.Some? ==> w.lock.value in w.procs)
    && (forall pid | pid in w.procs :: ProcessOk(w, pid, w.procs[pid]))
  }

  ghost predicate Inv(w: World) {
    && LedgerOk(w.ledger, w.challenges)
    && RegistryOk(w.registry)
    && ReceiptsOk(w.receipts, w.registry, w.applied, w.aborted)
    && BackupsOk(w.receipts, w.registry, w.backups)
    && VerdictsOk(w.ledger, w.registry, w.applied, w.aborted)
    && ConsumedOk(w.ledger, w.consumed)
    && ProcessesOk(w)
  }
}
