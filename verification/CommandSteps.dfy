/** The imperative forms of the mutex and of the operation file take exactly steps of the protocol. */
module CommandSteps {
  import opened Common
  import opened Operations
  import opened OperationDisk
  import opened Lifecycle
  import opened TerminalText
  import LifecycleLock

  // ---------------------------------------------------------------- the mutex

  /** What a wait can return while the mutex is in this state; an error or an unknown answer may come at any time. */
  predicate Answers(lock: Lock, wait: LifecycleLock.Wait) {
    match wait
    case Object => lock.Free?
    case AbandonedObject => lock.Abandoned?
    case Timeout(_) => lock.Held?
    case _ => true
  }

  /** Every acquisition is one step of the protocol, at the moment of the wait that decides it: a mutex that the calls
      acquire was free or abandoned just then, and giving up is always open to a waiting process. */
  lemma AcquisitionIsAStep(worlds: seq<World>, waits: seq<LifecycleLock.Wait>, p: Pid)
    requires |worlds| == |waits|
    requires forall k :: 0 <= k < |waits| ==>
      Answers(worlds[k].lock, waits[k]) && p in worlds[k].procs && worlds[k].procs[p].Waiting?
    ensures LifecycleLock.Awaited(waits) == LifecycleLock.Acquired ==>
      exists i :: LifecycleLock.FirstAnswer(waits, i) && Next(worlds[i], Acquire(p)).Some?
        && forall k :: 0 <= k < i ==> worlds[k].lock.Held?
    ensures LifecycleLock.Awaited(waits) == LifecycleLock.NotAcquired ==>
      exists i :: LifecycleLock.FirstAnswer(waits, i) && Next(worlds[i], TimeOut(p)).Some?
  {
    LifecycleLock.AwaitedIff(waits);
    if LifecycleLock.Awaited(waits) == LifecycleLock.NotAcquired {
      var i := FirstOf(waits);
      assert Next(worlds[i], TimeOut(p)).Some?;
    } else if LifecycleLock.Awaited(waits) == LifecycleLock.Acquired {
      var i :| LifecycleLock.FirstAnswer(waits, i) && (waits[i].Object? || waits[i].AbandonedObject?);
      assert Next(worlds[i], Acquire(p)).Some?;
    }
  }

  lemma {:induction false} FirstOf(waits: seq<LifecycleLock.Wait>) returns (i: nat)
    requires exists k :: 0 <= k < |waits| && waits[k] != LifecycleLock.Timeout(false)
    ensures LifecycleLock.FirstAnswer(waits, i)
  {
    i := 0;
    while waits[i] == LifecycleLock.Timeout(false)
      invariant i < |waits| && forall k :: 0 <= k < i ==> waits[k] == LifecycleLock.Timeout(false)
      invariant exists k :: i <= k < |waits| && waits[k] != LifecycleLock.Timeout(false)
      decreases |waits| - i
    {
      i := i + 1;
    }
  }

  // ---------------------------------------------------------------- the operation file

  /** The records the three writers of operation.go produce are among the ones the steps allow. */
  lemma WritersFit(operation: SessionOperation, state: OperationState, phase: string, message: string, now: int,
                   id: nat, run: nat, printable: char -> bool)
    requires operation.state == Running && state != Running
    ensures var b := Started(id, run, phase, message, now, printable);
      b.state == Running && b.id == id && b.runID == run
    ensures var u := Updated(operation, phase, message, now, printable);
      SameOperation(operation, u) && u.state == Running
    ensures var f := Finished(operation, state, phase, message, now, printable);
      SameOperation(operation, f) && f.state == state
  {
  }

  /** Where the steps of the lock holder lead, one after another. */
  function Acts(s: Store, pc: Pc, acts: seq<Act>): Move
    decreases |acts|
  {
    if acts == [] then To(s, pc)
    else
      var next := HolderStep(s, acts[0], pc);
      if next.Blocked? then Blocked else Acts(next.store, next.pc, acts[1..])
  }

  lemma {:induction false} ActsThen(s: Store, pc: Pc, acts: seq<Act>, act: Act)
    requires Acts(s, pc, acts).To?
    ensures Acts(s, pc, acts + [act]) == HolderStep(Acts(s, pc, acts).store, act, Acts(s, pc, acts).pc)
    decreases |acts|
  {
    if acts == [] {
      assert [act][1..] == [];
    } else {
      var next := HolderStep(s, acts[0], pc);
      ActsThen(next.store, next.pc, acts[1..], act);
      assert (acts + [act])[1..] == acts[1..] + [act];
    }
  }

  /** A change that can be recorded: a well-formed phase name, and a message that is not cut right after a space. */
  predicate Writable(c: Change, printable: char -> bool) {
    PhaseName(c.phase) && !EndsInSpace(Sanitize(c.message, printable, MAXIMUM_OPERATION_MESSAGE))
  }

  ghost predicate AllWritable(updates: seq<Change>, printable: char -> bool, disk: nat -> WriteOutcome) {
    PrintTable(printable) &&
    forall k :: 0 <= k < |updates| ==> Writable(updates[k], printable) && disk(k + 1) == Confirmed
  }

  lemma StartWritable(id: nat, run: RunId, c: Change, printable: char -> bool)
    ensures PrintTable(printable) ==>
      (Valid(Started(id, run, c.phase, c.message, c.now, printable), printable) <==> Writable(c, printable))
  {
    if PrintTable(printable) {
      SanitizedMessageValidIff(c.message, printable);
    }
  }

  lemma UpdateWritable(operation: SessionOperation, c: Change, printable: char -> bool)
    requires operation.state == Running
    ensures PrintTable(printable) && operation.startedAt <= operation.updatedAt && operation.completedAt.None? ==>
      (Valid(Updated(operation, c.phase, c.message, c.now, printable), printable) <==> Writable(c, printable))
  {
    if PrintTable(printable) {
      SanitizedMessageValidIff(c.message, printable);
    }
  }

  /** The file is the record of this run. */
  ghost predicate Shows(file: OperationFile, s: Store, run: RunId)
    reads file
  {
    run in s.runs && s.runs[run] == file.record
  }

  /** An invalid record is not written, whatever the disk would do. */
  function Written(record: SessionOperation, outcome: WriteOutcome, printable: char -> bool): WriteOutcome {
    if Valid(record, printable) then outcome else NotWritten
  }

  /** The store with this record in its run, and this operation's id issued. */
  function WithRecord(s: Store, run: RunId, record: Option<SessionOperation>): Store {
    s.(runs := s.runs[run := record])
  }

  /** What a step writes is what is in the file afterwards. */
  lemma WriteShows(s: Store, run: RunId, record: SessionOperation, outcome: WriteOutcome)
    requires run in s.runs
    ensures WriteRecord(s, run, record, outcome) ==
      WithRecord(s, run, if outcome != NotWritten then Some(record) else s.runs[run])
  {
    assert s.runs[run := s.runs[run]] == s.runs;
  }

  /** Start is the step Begin. */
  method StartStep(file: OperationFile, ghost s: Store, run: RunId, id: nat, c: Change, outcome: WriteOutcome)
    returns (r: Result<SessionOperation, OperationError>, ghost act: Act)
    requires Shows(file, s, run) && !MarkedRunning(s, run) && id !in s.usedOperations
    modifies file
    ensures act.Begin? && act.record.id == id
    ensures HolderStep(s, act, UpBegin(run)) ==
      To(WithRecord(s, run, file.record).(usedOperations := s.usedOperations + {id}),
        if r.Ok? then UpWork(run, r.value) else Releasing)
    ensures r.Ok? ==> r.value.state == Running && r.value.id == id && r.value.startedAt <= r.value.updatedAt
    ensures r.Ok? ==> r.value.completedAt.None?
    ensures PrintTable(file.printable) ==> (r.Ok? <==> Writable(c, file.printable) && outcome == Confirmed)
  {
    StartWritable(id, run, c, file.printable);
    ghost var next := Started(id, run, c.phase, c.message, c.now, file.printable);
    r := file.Start(id, run, c.phase, c.message, c.now, outcome);
    act := Begin(next, Written(next, outcome, file.printable));
    WriteShows(s, run, next, act.outcome);
  }

  /** Update is the step Update; when it fails the operation in hand is what goes to the finish. */
  method UpdateStep(file: OperationFile, ghost s: Store, run: RunId, operation: SessionOperation, c: Change,
                    outcome: WriteOutcome)
    returns (r: Result<SessionOperation, OperationError>, ghost act: Act)
    requires Shows(file, s, run) && operation.state == Running
    modifies file
    ensures act.Update?
    ensures HolderStep(s, act, UpWork(run, operation)) ==
      To(WithRecord(s, run, file.record), if r.Ok? then UpWork(run, r.value) else UpFinish(run, operation))
    ensures r.Ok? ==> r.value.state == Running && r.value.id == operation.id
    ensures r.Ok? && operation.startedAt <= operation.updatedAt ==> r.value.startedAt <= r.value.updatedAt
    ensures r.Ok? ==> Says(r.value, c.phase, c.message, file.printable)
    ensures PrintTable(file.printable) && operation.startedAt <= operation.updatedAt && operation.completedAt.None? ==>
      (r.Ok? <==> Writable(c, file.printable) && outcome == Confirmed) && (r.Ok? ==> r.value.completedAt.None?)
  {
    UpdateWritable(operation, c, file.printable);
    ghost var next := Updated(operation, c.phase, c.message, c.now, file.printable);
    WritersFit(operation, Failed, c.phase, c.message, c.now, 0, 0, file.printable);
    r := file.Update(operation, c.phase, c.message, c.now, outcome);
    act := Act.Update(next, Written(next, outcome, file.printable));
    WriteShows(s, run, next, act.outcome);
  }

  /** Finish is the step Finish, which ends in the release of the mutex whether it succeeds or not. */
  method FinishStep(file: OperationFile, ghost s: Store, run: RunId, operation: SessionOperation, state: OperationState,
                    c: Change, outcome: WriteOutcome)
    returns (r: Result<SessionOperation, OperationError>, ghost act: Act)
    requires Shows(file, s, run) && operation.state == Running && state != Running
    modifies file
    ensures act.Finish?
    ensures HolderStep(s, act, UpFinish(run, operation)) == To(WithRecord(s, run, file.record), Releasing)
    ensures r.Ok? ==> file.record == Some(r.value) && r.value.state == state && r.value.id == operation.id
    ensures r.Ok? ==> Says(r.value, c.phase, c.message, file.printable)
    ensures PrintTable(file.printable) && operation.startedAt <= operation.updatedAt ==>
      (r.Ok? <==> Writable(c, file.printable) && outcome == Confirmed)
  {
    if PrintTable(file.printable) && operation.startedAt <= operation.updatedAt {
      FinishWritableIff(operation, state, c.phase, c.message, c.now, file.printable);
    }
    ghost var next := Finished(operation, state, c.phase, c.message, c.now, file.printable);
    WritersFit(operation, state, c.phase, c.message, c.now, 0, 0, file.printable);
    r := file.Finish(operation, state, c.phase, c.message, c.now, outcome);
    act := Act.Finish(next, Written(next, outcome, file.printable));
    WriteShows(s, run, next, act.outcome);
  }

  /** Reconciling the active run is one read, and one write when its record is marked running. */
  method ReconcileSteps(file: OperationFile, ghost s: Store, active: ActiveSession, command: Subcommand, now: int,
                        outcome: WriteOutcome)
    returns (r: Result<bool, OperationError>, ghost acts: seq<Act>)
    requires Shows(file, s, active.run)
    requires file.record.Some? ==> file.record.value.startedAt <= file.record.value.updatedAt
    modifies file
    ensures Acts(s, LoadOperation(command, active), acts) ==
      To(WithRecord(s, active.run, file.record), if r.Ok? then Reconciled(command) else Releasing)
    ensures r.Ok? ==> !MarkedRunning(WithRecord(s, active.run, file.record), active.run)
    // the record written is always valid, so only the disk or a foreign record can stop it
    ensures PrintTable(file.printable) && MarkedRunning(s, active.run) ==>
      (r.Ok? <==> s.runs[active.run].value.runID == active.run && outcome == Confirmed)
  {
    ghost var before := file.record;
    var run := active.run;
    r := file.InterruptAbandoned(run, now, outcome);
    assert s.runs[run := before] == s.runs;
    acts := [Read];
    ActsThen(s, LoadOperation(command, active), [], Read);
    if MarkedRunning(s, run) && before.value.runID == run {
      ghost var next := InterruptedRecord(before.value, now, file.printable);
      if PrintTable(file.printable) {
        InterruptedRecordIsValid(before.value, now, file.printable);
      }
      WritersFit(before.value, Interrupted, INTERRUPTED_PHASE, INTERRUPTED_MESSAGE, now, 0, 0, file.printable);
      ghost var act := WriteInterrupted(next, Written(next, outcome, file.printable));
      ActsThen(s, LoadOperation(command, active), acts, act);
      acts := acts + [act];
    }
  }

  lemma {:induction false} ActsKeep(s: Store, pc: Pc, acts: seq<Act>)
    requires Kept(s, pc) && Acts(s, pc, acts).To?
    ensures Kept(Acts(s, pc, acts).store, Acts(s, pc, acts).pc)
    decreases |acts|
  {
    if acts != [] {
      var next := HolderStep(s, acts[0], pc);
      HolderKeeps(s, acts[0], pc, next.store, next.pc);
      ActsKeep(next.store, next.pc, acts[1..]);
    }
  }

  function Issued(s: Store, id: nat): Store {
    s.(usedOperations := s.usedOperations + {id})
  }

  lemma Rewritten(s: Store, run: RunId, a: Option<SessionOperation>, b: Option<SessionOperation>, id: nat)
    ensures WithRecord(Issued(WithRecord(s, run, a), id), run, b) == Issued(WithRecord(s, run, b), id)
  {
    assert s.runs[run := a][run := b] == s.runs[run := b];
  }

  /** One whole operation of `up`, with its deferred finish: whichever of its writes fail or are refused, the steps
      it took lead in the protocol from the start of the operation to the release, with the file as the run's record. */
  method RunOperation(file: OperationFile, ghost s: Store, run: RunId, id: nat, first: Change, updates: seq<Change>,
                      state: OperationState, last: Change, disk: nat -> WriteOutcome)
    returns (done: bool, ghost acts: seq<Act>)
    requires Shows(file, s, run) && !MarkedRunning(s, run) && id !in s.usedOperations && state != Running
    modifies file
    ensures Acts(s, UpBegin(run), acts) == To(Issued(WithRecord(s, run, file.record), id), Releasing)
    ensures done ==> file.record.Some? && file.record.value.state == state && file.record.value.id == id
    ensures done ==> Says(file.record.value, last.phase, last.message, file.printable)
    // it succeeds exactly when the first and the last record can be written; no update can stop it
    ensures PrintTable(file.printable) ==>
      (done <==>
        (&& Writable(first, file.printable) && disk(0) == Confirmed
         && Writable(last, file.printable) && disk(|updates| + 1) == Confirmed))
    // and records every update when each of them can be written
    ensures done && AllWritable(updates, file.printable, disk) ==> |acts| == |updates| + 3
    ensures StoreInv(s) && Holds(s, UpBegin(run)) ==> StoreInv(Issued(WithRecord(s, run, file.record), id))
  {
    var started, began := StartStep(file, s, run, id, first, disk(0));
    ActsThen(s, UpBegin(run), [], began);
    acts := [began];
    if started.Err? {
      done := false;
    } else {
      var operation := started.value;
      ghost var more;
      operation, more := WorkSteps(file, s, run, operation, updates, acts, disk);
      acts := more;
      ghost var before := file.record;
      var finished, ended := FinishStep(file, Issued(WithRecord(s, run, before), id), run, operation, state, last,
        disk(|updates| + 1));
      Rewritten(s, run, before, file.record, id);
      ActsThen(s, UpBegin(run), acts, ended);
      acts := acts + [ended];
      done := finished.Ok?;
    }
    if StoreInv(s) && Holds(s, UpBegin(run)) {
      ActsKeep(s, UpBegin(run), acts);
    }
  }

  /** The updates, up to the first that fails. */
  method WorkSteps(file: OperationFile, ghost s: Store, run: RunId, begun: SessionOperation, updates: seq<Change>,
                   ghost taken: seq<Act>, disk: nat -> WriteOutcome)
    returns (operation: SessionOperation, ghost acts: seq<Act>)
    requires begun.state == Running && begun.startedAt <= begun.updatedAt && run in s.runs
    requires Acts(s, UpBegin(run), taken) == To(Issued(WithRecord(s, run, file.record), begun.id), UpWork(run, begun))
    modifies file
    ensures operation.state == Running && operation.id == begun.id && operation.startedAt <= operation.updatedAt
    ensures Acts(s, UpBegin(run), acts) ==
      To(Issued(WithRecord(s, run, file.record), begun.id), UpFinish(run, operation))
    ensures begun.completedAt.None? && AllWritable(updates, file.printable, disk) ==>
      |acts| == |taken| + |updates| + 1
  {
    operation, acts := begun, taken;
    for i := 0 to |updates|
      invariant operation.state == Running && operation.id == begun.id && operation.startedAt <= operation.updatedAt
      invariant Acts(s, UpBegin(run), acts) ==
        To(Issued(WithRecord(s, run, file.record), begun.id), UpWork(run, operation))
      invariant |acts| == |taken| + i
      invariant begun.completedAt.None? && PrintTable(file.printable) ==> operation.completedAt.None?
    {
      ghost var before := file.record;
      var updated, act := UpdateStep(file, Issued(WithRecord(s, run, before), begun.id), run, operation, updates[i],
        disk(i + 1));
      Rewritten(s, run, before, file.record, begun.id);
      ActsThen(s, UpBegin(run), acts, act);
      acts := acts + [act];
      if updated.Err? {
        return;
      }
      operation := updated.value;
    }
    ActsThen(s, UpBegin(run), acts, EndWork);
    acts := acts + [EndWork];
  }
}
