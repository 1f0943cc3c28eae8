/** The cutover plan's actions and the file-backed journal that records them. */
module CutoverJournal {
  import opened Basics

  /** Failure codes are only carried along. */
  type Code = string

  datatype Action =
    | Preflight | Stage | StopPortOwner | UnloadAgent(name: string)
    | RevokeCredential | RemoveAgent(name: string) | RemovePath(id: string) | RemovePackage
    | PromoteRuntime | InstallRouter | InstallAgents | Activate | Verify

  datatype EventStatus = Started | Completed | Failed

  datatype Event = Event(sequence: int, action: Action, status: EventStatus, failureCode: Option<Code>)

  datatype ReceiptStatus = Committed | NotCommitted

  datatype Recovery = NotRequired | RecoveryCompleted | RecoveryFailed

  datatype Receipt = Receipt(
    operation: string, status: ReceiptStatus, completed: seq<Action>, recovery: Recovery, failureCode: Option<Code>,
    startedAt: int, finishedAt: int)

  datatype Record = BeginRecord(operation: string) | ActionRecord(event: Event) | CompleteRecord(status: ReceiptStatus)

  /** A write either succeeds, fails before the rename, or fails after it, with the new bytes in place. */
  datatype WriteOutcome = Written | LostWrite(code: Code) | UnconfirmedWrite(code: Code)

  /** Action ids that the id pattern accepts; labels and path ids come from the plan. */
  type Ids = Action -> bool

  predicate ValidReceipt(r: Receipt, safe: Ids) {
    && (forall i | 0 <= i < |r.completed| :: safe(r.completed[i]))
    && NoDuplicates(r.completed)
    && r.startedAt <= r.finishedAt
    && (r.status == NotCommitted <==> r.failureCode.Some?)
  }

  function Events(records: seq<Record>): seq<Event> {
    if records == [] then []
    else Events(records[..|records| - 1]) + if Last(records).ActionRecord? then [Last(records).event] else []
  }

  /** Numbered 1..n, in order, without gaps. */
  predicate Numbered(events: seq<Event>) {
    forall i | 0 <= i < |events| :: events[i].sequence == i + 1
  }

  /** The actions a journal says are completed. */
  function CompletedIn(events: seq<Event>): seq<Action> {
    if events == [] then []
    else CompletedIn(events[..|events| - 1]) + if Last(events).status == Completed then [Last(events).action] else []
  }

  lemma EventsSnoc(records: seq<Record>, r: Record)
    ensures Events(records + [r]) == Events(records) + if r.ActionRecord? then [r.event] else []
  {
    assert (records + [r])[..|records|] == records;
  }

  lemma CompletedSnoc(events: seq<Event>, e: Event)
    ensures CompletedIn(events + [e]) == CompletedIn(events) + if e.status == Completed then [e.action] else []
  {
    assert (events + [e])[..|events|] == events;
  }

  class Journal {
    const safe: Ids
    /** How the `n`-th write of a file ends, and whether the transaction directory exists already. */
    const disk: nat -> WriteOutcome
    const taken: bool
    var writes: nat
    var begun: Option<string>
    var records: seq<Record>
    var completed: bool
    var lastSequence: int
    var journalFile: Option<seq<Record>>
    var receiptFile: Option<Receipt>

    ghost function Recorded(): seq<Event>
      reads this
    {
      Events(records)
    }

    /** What every call keeps, in memory and on disk. */
    ghost predicate Valid()
      reads this
    {
      && Numbered(Recorded()) && lastSequence == |Recorded()|
      && (begun.None? ==> records == [] && journalFile.None? && !completed)
      && (journalFile.Some? ==> Numbered(Events(journalFile.value)))
    }

    constructor (safe: Ids, disk: nat -> WriteOutcome, taken: bool)
      ensures Valid() && this.safe == safe && this.disk == disk && this.taken == taken
      ensures begun.None? && records == [] && !completed && lastSequence == 0 && receiptFile.None?
    {
      this.safe, this.disk, this.taken := safe, disk, taken;
      writes, begun, records, completed, lastSequence := 0, None, [], false, 0;
      journalFile, receiptFile := None, None;
    }

    method PersistJournal() returns (failure: Option<Code>)
      requires begun.Some? && Numbered(Recorded())
      requires journalFile.Some? ==> Numbered(Events(journalFile.value))
      modifies `writes, `journalFile
      ensures failure.None? ==> journalFile == Some(records)
      ensures journalFile == old(journalFile) || journalFile == Some(records)
    {
      var outcome := disk(writes);
      writes := writes + 1;
      match outcome
      case Written =>
        journalFile := Some(records);
        failure := None;
      case LostWrite(code) =>
        failure := Some(code);
      case UnconfirmedWrite(code) =>
        journalFile := Some(records);
        failure := Some(code);
    }

    method Begin(operation: string) returns (failure: Option<Code>)
      requires Valid()
      modifies this
      ensures Valid() && receiptFile == old(receiptFile) && completed == old(completed)
      ensures failure.None? ==> old(begun).None? && begun == Some(operation) && Recorded() == [] && lastSequence == 0
                                && journalFile == Some([BeginRecord(operation)])
      ensures failure.Some? ==> begun == old(begun) && records == old(records) && journalFile == old(journalFile)
                                && lastSequence == old(lastSequence)
    {
      if begun.Some? {
        return Some("CUTOVER_JOURNAL_ALREADY_STARTED");
      }
      if taken {
        return Some("CUTOVER_JOURNAL_TRANSACTION_EXISTS");
      }
      begun := Some(operation);
      records := [BeginRecord(operation)];
      assert records == [] + [BeginRecord(operation)];
      EventsSnoc([], BeginRecord(operation));
      assert Recorded() == [];
      failure := PersistJournal();
      if failure.Some? {
        begun, records, journalFile := None, [], None;
      }
    }

    /** An event is recorded when it carries the next number and its write is confirmed, and only then. */
    method Append(event: Event) returns (failure: Option<Code>)
      requires Valid()
      modifies this
      ensures Valid() && begun == old(begun) && receiptFile == old(receiptFile) && completed == old(completed)
      ensures failure.None? ==> event.sequence == old(lastSequence) + 1 && !completed && begun.Some?
      ensures failure.None? ==> Recorded() == old(Recorded()) + [event]
      ensures failure.None? ==> journalFile == Some(records)
      ensures failure.Some? ==> records == old(records) && Recorded() == old(Recorded())
      ensures begun.None? || completed || event.sequence != old(lastSequence) + 1 || !safe(event.action) ==>
                failure.Some? && journalFile == old(journalFile)
    {
      if begun.None? {
        return Some("CUTOVER_JOURNAL_NOT_STARTED");
      }
      if completed {
        return Some("CUTOVER_JOURNAL_COMPLETE");
      }
      if event.sequence != lastSequence + 1 || !safe(event.action) {
        return Some("CUTOVER_JOURNAL_EVENT_INVALID");
      }
      EventsSnoc(records, ActionRecord(event));
      records := records + [ActionRecord(event)];
      failure := PersistJournal();
      if failure.Some? {
        records := records[..|records| - 1];
        assert records == old(records);
        return;
      }
      lastSequence := event.sequence;
    }

    /** The final receipt is written once, before the journal says so. */
    method Complete(receipt: Receipt) returns (failure: Option<Code>)
      requires Valid()
      modifies this
      ensures Valid() && begun == old(begun) && Recorded() == old(Recorded()) && lastSequence == old(lastSequence)
      ensures failure.None? ==>
                && !old(completed) && completed && begun == Some(receipt.operation) && ValidReceipt(receipt, safe)
                && old(receiptFile).None? && receiptFile == Some(receipt) && journalFile == Some(records)
                && records == old(records) + [CompleteRecord(receipt.status)]
      ensures receiptFile == old(receiptFile) || (old(receiptFile).None? && receiptFile == Some(receipt))
      ensures failure.Some? ==> completed == old(completed)
    {
      if begun.None? {
        return Some("CUTOVER_JOURNAL_NOT_STARTED");
      }
      if completed {
        return Some("CUTOVER_JOURNAL_COMPLETE");
      }
      if !ValidReceipt(receipt, safe) || Some(receipt.operation) != begun {
        return Some("CUTOVER_JOURNAL_RECEIPT_INVALID");
      }
      if receiptFile.Some? {
        return Some("EEXIST");
      }
      var outcome := disk(writes);
      writes := writes + 1;
      if !outcome.LostWrite? {
        receiptFile := Some(receipt);
      }
      if !outcome.Written? {
        return Some(outcome.code);
      }
      EventsSnoc(records, CompleteRecord(receipt.status));
      records := records + [CompleteRecord(receipt.status)];
      failure := PersistJournal();
      if failure.None? {
        completed := true;
      }
    }
  }
}
