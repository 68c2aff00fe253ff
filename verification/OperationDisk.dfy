/** The writers of the retained operation record (operation.go, session_status.go), on the file they rewrite. */
module OperationDisk {
  import opened Common
  import opened Operations

  datatype OperationError = StillRunning | AlreadyTerminal | InvalidRecord | WriteFailed

  /** The operation.json file of one run directory. */
  class OperationFile {
    var record: Option<SessionOperation>
    const printable: char -> bool

    constructor (printable: char -> bool)
      ensures record == None && this.printable == printable
    {
      record := None;
      this.printable := printable;
    }

    /** writeSessionOperation: an invalid record never reaches the disk. */
    method Write(operation: SessionOperation, outcome: WriteOutcome)
      returns (r: Result<SessionOperation, OperationError>)
      modifies this
      ensures r.Ok? <==> Valid(operation, printable) && outcome == Confirmed
      ensures r.Ok? ==> r.value == operation
      ensures r.Err? ==> r.error == if Valid(operation, printable) then WriteFailed else InvalidRecord
      ensures record == if Valid(operation, printable) && outcome != NotWritten then Some(operation) else old(record)
    {
      if !Valid(operation, printable) {
        return Err(InvalidRecord);
      }
      if outcome == NotWritten {
        return Err(WriteFailed);
      }
      record := Some(operation);
      r := if outcome == Confirmed then Ok(operation) else Err(WriteFailed);
    }

    method Start(id: nat, runID: nat, phase: string, message: string, now: int, outcome: WriteOutcome)
      returns (r: Result<SessionOperation, OperationError>)
      modifies this
      ensures old(record).Some? && old(record).value.state == Running ==>
        r == Err(StillRunning) && record == old(record)
      ensures var next := Started(id, runID, phase, message, now, printable);
        var free := !(old(record).Some? && old(record).value.state == Running);
        var written := free && Valid(next, printable) && outcome != NotWritten;
        && record == (if written then Some(next) else old(record))
        && (r.Ok? <==> written && outcome == Confirmed) && (r.Ok? ==> r.value == next)
        && (r.Err? && free ==> r.error == if Valid(next, printable) then WriteFailed else InvalidRecord)
    {
      if record.Some? && record.value.state == Running {
        return Err(StillRunning);
      }
      r := Write(Started(id, runID, phase, message, now, printable), outcome);
    }

    method Update(operation: SessionOperation, phase: string, message: string, now: int, outcome: WriteOutcome)
      returns (r: Result<SessionOperation, OperationError>)
      modifies this
      ensures operation.state != Running ==> r == Err(AlreadyTerminal) && record == old(record)
      ensures var next := Updated(operation, phase, message, now, printable);
        var written := operation.state == Running && Valid(next, printable) && outcome != NotWritten;
        && record == (if written then Some(next) else old(record))
        && (r.Ok? <==> written && outcome == Confirmed) && (r.Ok? ==> r.value == next)
        && (r.Err? && operation.state == Running ==>
              r.error == if Valid(next, printable) then WriteFailed else InvalidRecord)
    {
      if operation.state != Running {
        return Err(AlreadyTerminal);
      }
      r := Write(Updated(operation, phase, message, now, printable), outcome);
    }

    method Finish(operation: SessionOperation, state: OperationState, phase: string, message: string, now: int,
                  outcome: WriteOutcome)
      returns (r: Result<SessionOperation, OperationError>)
      modifies this
      ensures operation.state != Running ==> r == Err(AlreadyTerminal) && record == old(record)
      ensures var next := Finished(operation, state, phase, message, now, printable);
        var written := operation.state == Running && Valid(next, printable) && outcome != NotWritten;
        && record == (if written then Some(next) else old(record))
        && (r.Ok? <==> written && outcome == Confirmed) && (r.Ok? ==> r.value == next)
        && (r.Err? && operation.state == Running ==>
              r.error == if Valid(next, printable) then WriteFailed else InvalidRecord)
    {
      if operation.state != Running {
        return Err(AlreadyTerminal);
      }
      r := Write(Finished(operation, state, phase, message, now, printable), outcome);
    }

    /** interruptAbandonedRunOperation on this directory; Ok(true) means a record was interrupted. */
    method InterruptAbandoned(runID: nat, now: int, outcome: WriteOutcome) returns (r: Result<bool, OperationError>)
      modifies this
      ensures !(old(record).Some? && old(record).value.state == Running) ==> r == Ok(false) && record == old(record)
      ensures old(record).Some? && old(record).value.state == Running ==>
        var next := InterruptedRecord(old(record).value, now, printable);
        var accepted := old(record).value.runID == runID && Valid(next, printable);
        var written := accepted && outcome != NotWritten;
        && record == (if written then Some(next) else old(record))
        && (r.Ok? <==> written && outcome == Confirmed) && (r.Ok? ==> r.value)
        && (r.Err? ==> r.error == if accepted then WriteFailed else InvalidRecord)
    {
      if record == None || record.value.state != Running {
        return Ok(false);
      }
      if record.value.runID != runID {
        return Err(InvalidRecord);
      }
      var finished := Finish(record.value, Interrupted, INTERRUPTED_PHASE, INTERRUPTED_MESSAGE, now, outcome);
      r := if finished.Ok? then Ok(true) else Err(finished.error);
    }
  }
}
