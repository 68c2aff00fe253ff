/** The retained operation record of operation.go: its validation, the three records written over its life, and the
    timestamps they leave behind. Times are nanoseconds; ids come from the caller. */
module Operations {
  import opened Common
  import opened TerminalText

  datatype OperationState = Running | Succeeded | Failed | Cancelled | TimedOut | Interrupted

  datatype SessionOperation = SessionOperation(
    id: nat, runID: nat, state: OperationState, phase: string, message: string,
    startedAt: int, updatedAt: int, completedAt: Option<int>)

  const INTERRUPTED_PHASE := "interrupted"
  const MESSAGE_START := "The previous retained "
  const MESSAGE_MIDDLE := "reprovision ended without "
  const MESSAGE_END := "publishing a terminal result."
  const INTERRUPTED_MESSAGE := MESSAGE_START + (MESSAGE_MIDDLE + MESSAGE_END)

  /** ^[a-z][a-z0-9-]{0,63}$ */
  predicate PhaseName(phase: string) {
    && 1 <= |phase| <= 64 && 'a' <= phase[0] <= 'z'
    && forall k :: 0 <= k < |phase| ==> 'a' <= phase[k] <= 'z' || '0' <= phase[k] <= '9' || phase[k] == '-'
  }

  predicate ValidTimes(operation: SessionOperation) {
    && operation.startedAt <= operation.updatedAt
    && operation.completedAt == if operation.state == Running then None else Some(operation.updatedAt)
  }

  predicate Valid(operation: SessionOperation, printable: char -> bool) {
    PhaseName(operation.phase) && ValidMessage(operation.message, printable) && ValidTimes(operation)
  }

  /** What a record on the disk looks like: a name of a letter and at most 63 letters, digits and dashes, a sanitised
      message, ordered times, and an end exactly when the operation is over. */
  lemma ValidIff(operation: SessionOperation, printable: char -> bool)
    ensures Valid(operation, printable) <==>
      && operation.phase != [] && 'a' <= operation.phase[0] <= 'z' && |operation.phase[1..]| <= 63
      && (forall c :: c in operation.phase ==> c == '-' || '0' <= c <= '9' || 'a' <= c <= 'z')
      && operation.message == SanitizeOperationMessage(operation.message, printable) && operation.message != ""
      && operation.startedAt <= operation.updatedAt
      && (operation.completedAt.None? <==> operation.state == Running)
      && (operation.completedAt.Some? ==> operation.completedAt.value == operation.updatedAt)
  {
    var phase := operation.phase;
    assert forall k :: 0 <= k < |phase| ==> phase[k] in phase;
  }

  /** The next time stamp moves on even when the clock stands still or goes back. */
  function NextTimestamp(previous: int, now: int): (r: int)
    ensures r > previous && r >= now
    ensures r == now || r == previous + 1
  {
    if now > previous then now else previous + 1
  }

  function Started(id: nat, runID: nat, phase: string, message: string, now: int,
                   printable: char -> bool): SessionOperation {
    SessionOperation(id, runID, Running, phase, SanitizeOperationMessage(message, printable), now, now, None)
  }

  function Updated(operation: SessionOperation, phase: string, message: string, now: int,
                   printable: char -> bool): SessionOperation {
    operation.(phase := phase, message := SanitizeOperationMessage(message, printable),
               updatedAt := NextTimestamp(operation.updatedAt, now))
  }

  function Finished(operation: SessionOperation, state: OperationState, phase: string, message: string, now: int,
                    printable: char -> bool): SessionOperation {
    var at := NextTimestamp(operation.updatedAt, now);
    operation.(state := state, phase := phase, message := SanitizeOperationMessage(message, printable),
               updatedAt := at, completedAt := Some(at))
  }

  function InterruptedRecord(operation: SessionOperation, now: int, printable: char -> bool): SessionOperation {
    Finished(operation, Interrupted, INTERRUPTED_PHASE, INTERRUPTED_MESSAGE, now, printable)
  }

  /** How an atomic replace can end: nothing written; written, but the read-back reported an error;
      or written and confirmed. */
  datatype WriteOutcome = NotWritten | Unconfirmed | Confirmed

  // ---------------------------------------------------------------- a whole operation

  datatype Change = Change(phase: string, message: string, now: int)

  /** Every record of one operation: the start, each update, and the finish. */
  function History(first: SessionOperation, updates: seq<Change>, state: OperationState, last: Change,
                   printable: char -> bool): seq<SessionOperation>
    decreases |updates|
  {
    if updates == [] then [first, Finished(first, state, last.phase, last.message, last.now, printable)]
    else
      var u := updates[0];
      [first] + History(Updated(first, u.phase, u.message, u.now, printable), updates[1..], state, last, printable)
  }

  /** Whatever the clock does, the stamps of one operation strictly increase, it keeps its identity and
      start, only its last record is terminal, and no record is ever refused because of its times. */
  lemma {:induction false} HistoryStrictlyIncreases(first: SessionOperation, updates: seq<Change>,
      state: OperationState, last: Change, printable: char -> bool)
    requires first.state == Running && first.completedAt == None && first.startedAt <= first.updatedAt
    requires state != Running
    ensures var h := History(first, updates, state, last, printable);
      && |h| == |updates| + 2
      && (forall i, j :: 0 <= i < j < |h| ==> h[i].updatedAt < h[j].updatedAt)
      && (forall i :: 0 <= i < |h| ==> h[i].updatedAt >= first.updatedAt)
      && (forall i :: 0 <= i < |h| ==>
            h[i].id == first.id && h[i].runID == first.runID && h[i].startedAt == first.startedAt &&
            ValidTimes(h[i]) && (h[i].state == Running <==> i < |h| - 1))
    decreases |updates|
  {
    var h := History(first, updates, state, last, printable);
    if updates != [] {
      var u := updates[0];
      var next := Updated(first, u.phase, u.message, u.now, printable);
      HistoryStrictlyIncreases(next, updates[1..], state, last, printable);
      var rest := History(next, updates[1..], state, last, printable);
      assert h == [first] + rest;
      assert forall i :: 0 < i < |h| ==> h[i] == rest[i - 1];
    }
  }

  /** The first record of an operation is running, and says what its caller gave. */
  lemma StartedSaysWhatIsGiven(id: nat, runID: nat, phase: string, message: string, now: int, printable: char -> bool)
    ensures var o := Started(id, runID, phase, message, now, printable);
      && o.id == id && o.runID == runID && o.state == Running && ValidTimes(o)
      && Says(o, phase, message, printable) && o.startedAt == now
  {
  }

  /** A record with this phase, and the sanitised form of this message. */
  predicate Says(operation: SessionOperation, phase: string, message: string, printable: char -> bool) {
    operation.phase == phase && operation.message == SanitizeOperationMessage(message, printable)
  }

  /** Each update and the finish say what their caller gave, and nothing of an earlier record but its identity and its
      start is left in them. */
  lemma {:induction false} HistorySaysWhatIsGiven(first: SessionOperation, updates: seq<Change>, state: OperationState,
      last: Change, printable: char -> bool)
    ensures var h := History(first, updates, state, last, printable);
      && |h| == |updates| + 2 && h[0] == first
      && (forall i :: 0 <= i < |updates| ==> Says(h[i + 1], updates[i].phase, updates[i].message, printable))
      && Says(h[|updates| + 1], last.phase, last.message, printable) && h[|updates| + 1].state == state
      && h[|updates| + 1].completedAt == Some(h[|updates| + 1].updatedAt)
    decreases |updates|
  {
    if updates != [] {
      var u := updates[0];
      var next := Updated(first, u.phase, u.message, u.now, printable);
      HistorySaysWhatIsGiven(next, updates[1..], state, last, printable);
      var h := History(first, updates, state, last, printable);
      var rest := History(next, updates[1..], state, last, printable);
      assert h == [first] + rest;
      forall i | 0 <= i < |updates| ensures Says(h[i + 1], updates[i].phase, updates[i].message, printable) {
        assert h[i + 1] == rest[i];
        assert i > 0 ==> updates[i] == updates[1..][i - 1];
      }
    }
  }

  /** A record of an operation can be written exactly when its phase name is well formed and its
      sanitised message was not cut right after a space. */
  lemma FinishWritableIff(operation: SessionOperation, state: OperationState, phase: string, message: string, now: int,
                          printable: char -> bool)
    requires PrintTable(printable) && operation.startedAt <= operation.updatedAt && state != Running
    ensures Valid(Finished(operation, state, phase, message, now, printable), printable) <==>
      PhaseName(phase) && !EndsInSpace(Sanitize(message, printable, MAXIMUM_OPERATION_MESSAGE))
  {
    SanitizedMessageValidIff(message, printable);
  }

  lemma SpacedConcat(left: string, right: string, printable: char -> bool)
    requires SingleSpaced(left, printable) && SingleSpaced(right, printable) && EndsInSpace(left) && right != []
    ensures SingleSpaced(left + right, printable) && EndsInSpace(left + right) == EndsInSpace(right)
  {
  }

  lemma MessagePieces(printable: char -> bool)
    requires PrintTable(printable)
    ensures SingleSpaced(MESSAGE_START, printable) && EndsInSpace(MESSAGE_START)
    ensures SingleSpaced(MESSAGE_MIDDLE, printable) && EndsInSpace(MESSAGE_MIDDLE)
    ensures SingleSpaced(MESSAGE_END, printable) && !EndsInSpace(MESSAGE_END)
  {
    MessageStart(printable);
    MessageMiddle(printable);
    MessageEnd(printable);
  }

  lemma MessageStart(printable: char -> bool)
    requires PrintTable(printable)
    ensures SingleSpaced(MESSAGE_START, printable) && EndsInSpace(MESSAGE_START)
  {
    assert |MESSAGE_START| == 22;
  }

  lemma MessageMiddle(printable: char -> bool)
    requires PrintTable(printable)
    ensures SingleSpaced(MESSAGE_MIDDLE, printable) && EndsInSpace(MESSAGE_MIDDLE)
  {
    assert |MESSAGE_MIDDLE| == 26;
  }

  lemma MessageEnd(printable: char -> bool)
    requires PrintTable(printable)
    ensures SingleSpaced(MESSAGE_END, printable) && !EndsInSpace(MESSAGE_END)
  {
    assert |MESSAGE_END| == 29;
  }

  lemma MessageLength()
    ensures |INTERRUPTED_MESSAGE| == 77
  {
    assert |MESSAGE_START| == 22;
    assert |MESSAGE_MIDDLE| == 26;
    assert |MESSAGE_END| == 29;
  }

  lemma InterruptedMessageFixed(printable: char -> bool)
    requires PrintTable(printable)
    ensures Sanitize(INTERRUPTED_MESSAGE, printable, MAXIMUM_OPERATION_MESSAGE) == INTERRUPTED_MESSAGE
    ensures !EndsInSpace(INTERRUPTED_MESSAGE)
  {
    MessagePieces(printable);
    MessageLength();
    SpacedConcat(MESSAGE_MIDDLE, MESSAGE_END, printable);
    SpacedConcat(MESSAGE_START, MESSAGE_MIDDLE + MESSAGE_END, printable);
    EncodeLengthBound(INTERRUPTED_MESSAGE);
    NormaliseSingleSpaced(INTERRUPTED_MESSAGE, printable);
  }

  /** The reconciling record is always writable, so reconciliation never fails on validation. */
  lemma InterruptedRecordIsValid(operation: SessionOperation, now: int, printable: char -> bool)
    requires PrintTable(printable) && operation.startedAt <= operation.updatedAt
    ensures Valid(InterruptedRecord(operation, now, printable), printable)
  {
    InterruptedMessageFixed(printable);
    FinishWritableIff(operation, Interrupted, INTERRUPTED_PHASE, INTERRUPTED_MESSAGE, now, printable);
  }
}
