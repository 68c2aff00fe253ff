/** The lifecycle protocol: any interleaving of `sandbox` processes. */
module Lifecycle {
  // The processes share one named mutex, active.json and one operation.json per run. Every access to these, process
  // exit and crash is its own step.

  import opened Common
  import opened Operations

  type Pid = nat
  type RunId = nat
  /** A Windows Sandbox process identity: PID, start time and command line together. */
  type SandboxId = nat

  datatype ActiveSession = ActiveSession(run: RunId, sandbox: SandboxId)
  datatype Subcommand = Up | Down | Clean | Status | Attach
  datatype Lock = Free | Abandoned | Held(owner: Pid)
  /** cleanupProtection; `Found` is `active.Some?`. */
  datatype Protection = Protection(active: Option<ActiveSession>, gone: bool)
  datatype Plan = Plan(protection: Protection, candidates: set<RunId>)

  /** The state that an inspection reports, and of which run. */
  datatype Report = Stopped | Unmanaged | Stale(run: RunId) | Managed(run: RunId)

  datatype Pc =
    | Waiting(command: Subcommand)
    // reconciliation, first thing under the lock
    | LoadActive(command: Subcommand)
    | LoadOperation(command: Subcommand, active: ActiveSession)
    | Interrupt(command: Subcommand, active: ActiveSession, operation: SessionOperation)
    // up
    | UpInspect
    | UpPrepare
    | UpCheck(run: RunId)
    | UpLaunch(run: RunId)
    | UpRecord(run: RunId, sandbox: SandboxId)
    | UpStart(run: RunId)
    | UpRefused(run: RunId)
    | UpBegin(run: RunId)
    | UpWork(run: RunId, operation: SessionOperation)
    | UpFinish(run: RunId, operation: SessionOperation)
    // down
    | DownLoad
    | DownStop(active: ActiveSession)
    | DownKill(active: ActiveSession)
    | DownCensus(active: ActiveSession)
    | DownForget(active: ActiveSession)
    // clean, and the cleanup that status and attach run first
    | CleanInspect(attempt: nat, planned: Option<Plan>)
    | CleanCensus(attempt: nat, planned: Option<Plan>, found: Option<ActiveSession>)
    | CleanPlan(attempt: nat, protection: Protection)
    | CleanRemove(plan: Plan)
    | CleanForget(protection: Protection)
    | CleanExhausted
    | Releasing
    // the lock-free reader behind status and attach
    | ReadActive
    | ReadOperation(before: ActiveSession)
    | InspectActive(before: ActiveSession, operation: SessionOperation)
    | InspectSandbox(before: ActiveSession, operation: SessionOperation, found: Option<ActiveSession>)
    | ReadAgain(before: ActiveSession, operation: SessionOperation, report: Report)
    | ReadOperationAgain(before: ActiveSession, operation: SessionOperation, report: Report)
    | ReadDone(before: ActiveSession, operation: SessionOperation, report: Report)
    | Ended

  /** Everything the processes share besides the mutex: the records, the run directories, the Sandbox
      processes alive, and the identities issued so far. */
  datatype Store = Store(
    active: Option<ActiveSession>, runs: map<RunId, Option<SessionOperation>>, live: set<SandboxId>,
    usedRuns: set<RunId>, usedOperations: set<nat>, usedSandboxes: set<SandboxId>)

  datatype World = World(lock: Lock, procs: map<Pid, Pc>, store: Store)

  /** One step of the lock holder or of a lock-free reader; the write steps carry the record written. */
  datatype Act =
    | Read
    | WriteInterrupted(record: SessionOperation, outcome: WriteOutcome)
    | Prepare(run: RunId)
    | Check
    | Launch(sandbox: SandboxId)
    | Publish
    | Undo(ended: bool)
    | Begin(record: SessionOperation, outcome: WriteOutcome)
    | Update(record: SessionOperation, outcome: WriteOutcome)
    | EndWork
    | Finish(record: SessionOperation, outcome: WriteOutcome)
    | Stop
    | Forget
    | Remove(run: RunId)
    | RemoveDone
    | Fail

  datatype Action =
    | Spawn(p: Pid, command: Subcommand)
    | Crash(p: Pid)
    | SandboxExits(sandbox: SandboxId)
    | ForeignSandboxStarts(sandbox: SandboxId)
    | Acquire(p: Pid)
    | TimeOut(p: Pid)
    | Release(p: Pid)
    | Does(p: Pid, act: Act)

  const INIT := World(Free, map[], Store(None, map[], {}, {}, {}, {}))

  predicate LockFree(pc: Pc) {
    pc.Waiting? || pc.ReadActive? || HasRead(pc) || pc.Ended?
  }

  /** The lock-free reader after its first read. */
  predicate HasRead(pc: Pc) {
    || pc.ReadOperation? || pc.InspectActive? || pc.InspectSandbox?
    || pc.ReadAgain? || pc.ReadOperationAgain? || pc.ReadDone?
  }

  predicate Critical(pc: Pc) {
    !LockFree(pc)
  }

  // ---------------------------------------------------------------- steps

  /** What a command does once reconciliation is over. */
  function Reconciled(command: Subcommand): Pc {
    match command
    case Up => UpInspect
    case Down => DownLoad
    case _ => CleanInspect(0, None)
  }

  function WriteRecord(s: Store, run: RunId, record: SessionOperation, outcome: WriteOutcome): Store {
    if run in s.runs && outcome != NotWritten then s.(runs := s.runs[run := Some(record)]) else s
  }

  predicate WriteConfirmed(s: Store, run: RunId, outcome: WriteOutcome) {
    run in s.runs && outcome == Confirmed
  }

  predicate SameOperation(operation: SessionOperation, next: SessionOperation) {
    next.id == operation.id && next.runID == operation.runID
  }

  predicate MarkedRunning(s: Store, run: RunId) {
    run in s.runs && s.runs[run].Some? && s.runs[run].value.state == Running
  }

  function ActiveRun(active: Option<ActiveSession>): set<RunId> {
    if active.Some? then {active.value.run} else {}
  }

  /** cleanupObservedOwnedSandboxExit. */
  predicate ObservedOwnedExit(before: Protection, after: Protection) {
    before.active.Some? && !before.gone && after.active.Some? && after.gone && before.active == after.active
  }

  /** The end of one inspection: the first one leads to planning; the second must agree with the plan,
      or show that exactly the owned Sandbox has exited, which allows one retry. */
  function Inspected(attempt: nat, planned: Option<Plan>, protection: Protection): Pc {
    if planned.None? then CleanPlan(attempt, protection)
    else if planned.value.protection == protection then CleanRemove(planned.value)
    else if attempt == 0 && ObservedOwnedExit(planned.value.protection, protection) then
      if attempt + 1 < 2 then CleanPlan(attempt + 1, protection) else CleanExhausted
    else Releasing
  }

  /** One read by the lock holder: reconciliation and `up`, then `down` and cleanup. */
  function HolderRead(s: Store, pc: Pc): Option<Pc> {
    match pc
    case LoadActive(command) =>
      Some(if s.active.Some? then LoadOperation(command, s.active.value) else Reconciled(command))
    case LoadOperation(command, active) =>
      Some(if active.run !in s.runs then Releasing
           else if !MarkedRunning(s, active.run) then Reconciled(command)
           else if s.runs[active.run].value.runID != active.run then Releasing
           else Interrupt(command, active, s.runs[active.run].value))
    case UpInspect =>
      Some(if s.active.Some? && s.active.value.sandbox in s.live then UpStart(s.active.value.run)
           else if s.active.None? && s.live == {} then UpPrepare
           else Releasing)
    case UpStart(run) =>
      Some(if run !in s.runs then Releasing else if MarkedRunning(s, run) then UpRefused(run) else UpBegin(run))
    case DownLoad => Some(if s.active.Some? then DownStop(s.active.value) else Releasing)
    case DownStop(active) => Some(if active.sandbox in s.live then DownKill(active) else DownCensus(active))
    case DownCensus(active) => Some(if s.live == {} then DownForget(active) else Releasing)
    case CleanInspect(attempt, planned) => Some(CleanCensus(attempt, planned, s.active))
    case CleanCensus(attempt, planned, found) =>
      Some(if s.live == {} then Inspected(attempt, planned, Protection(found, true))
           else if found.Some? && s.live == {found.value.sandbox}
             then Inspected(attempt, planned, Protection(found, false))
           else Releasing)
    case CleanPlan(attempt, protection) =>
      var kept := if protection.gone then {} else ActiveRun(protection.active);
      Some(CleanInspect(attempt, Some(Plan(protection, s.runs.Keys - kept))))
    case _ => None
  }

  /** The end of inspectSessionAt, which has read active.json by itself. */
  function Reported(s: Store, found: Option<ActiveSession>): Report {
    if found.None? then (if s.live == {} then Stopped else Unmanaged)
    else if found.value.sandbox in s.live then Managed(found.value.run)
    else Stale(found.value.run)
  }

  /** One read of the lock-free reader; it ends at the first read that does not fit. */
  function ReaderRead(s: Store, pc: Pc): Option<Pc> {
    match pc
    case ReadActive => Some(if s.active.Some? then ReadOperation(s.active.value) else Ended)
    case ReadOperation(before) =>
      Some(if MarkedRunning(s, before.run) && s.runs[before.run].value.runID == before.run
           then InspectActive(before, s.runs[before.run].value) else Ended)
    case InspectActive(before, operation) => Some(InspectSandbox(before, operation, s.active))
    case InspectSandbox(before, operation, found) => Some(ReadAgain(before, operation, Reported(s, found)))
    case ReadAgain(before, operation, report) =>
      Some(if s.active == Some(before) then ReadOperationAgain(before, operation, report) else Ended)
    case ReadOperationAgain(before, operation, report) =>
      Some(if MarkedRunning(s, before.run) && s.runs[before.run].value.id == operation.id &&
              s.runs[before.run].value.runID == before.run
           then ReadDone(before, operation, report) else Ended)
    case _ => None
  }

  /** Where a step of the lock holder leads. */
  datatype Move = Blocked | To(store: Store, pc: Pc)

  /** The writes of operation.json. */
  function RecordStep(s: Store, act: Act, pc: Pc): Move
    requires act.WriteInterrupted? || act.Begin? || act.Update? || act.Finish?
  {
    match act
    case WriteInterrupted(record, outcome) =>
      if pc.Interrupt? && SameOperation(pc.operation, record) && record.state == Interrupted then
        To(WriteRecord(s, pc.active.run, record, outcome),
              if WriteConfirmed(s, pc.active.run, outcome) then Reconciled(pc.command) else Releasing)
      else Blocked
    case Begin(record, outcome) =>
      if pc.UpBegin? && record.id !in s.usedOperations && record.runID == pc.run && record.state == Running then
        To(WriteRecord(s, pc.run, record, outcome).(usedOperations := s.usedOperations + {record.id}),
              if WriteConfirmed(s, pc.run, outcome) then UpWork(pc.run, record) else Releasing)
      else Blocked
    case Update(record, outcome) =>
      if pc.UpWork? && SameOperation(pc.operation, record) && record.state == Running then
        To(WriteRecord(s, pc.run, record, outcome),
              if WriteConfirmed(s, pc.run, outcome) then UpWork(pc.run, record) else UpFinish(pc.run, pc.operation))
      else Blocked
    case Finish(record, outcome) =>
      if pc.UpFinish? && SameOperation(pc.operation, record) && record.state != Running then
        To(WriteRecord(s, pc.run, record, outcome), Releasing)
      else Blocked
  }

  /** The steps of a fresh `up` before its operation starts. */
  function LaunchStep(s: Store, act: Act, pc: Pc): Move
    requires act.Prepare? || act.Check? || act.Launch? || act.Publish? || act.Undo?
  {
    match act
    case Prepare(run) =>
      if pc.UpPrepare? && run !in s.usedRuns then
        To(s.(runs := s.runs[run := None], usedRuns := s.usedRuns + {run}), UpCheck(run))
      else Blocked
    case Check => if pc.UpCheck? then To(s, if s.live == {} then UpLaunch(pc.run) else Releasing) else Blocked
    case Launch(sandbox) =>
      if pc.UpLaunch? && sandbox !in s.usedSandboxes then
        To(s.(live := s.live + {sandbox}, usedSandboxes := s.usedSandboxes + {sandbox}), UpRecord(pc.run, sandbox))
      else Blocked
    case Publish =>
      if pc.UpRecord? then To(s.(active := Some(ActiveSession(pc.run, pc.sandbox))), UpStart(pc.run)) else Blocked
    case Undo(ended) =>
      // terminateUnpublishedSandbox, which may itself fail
      if pc.UpRecord? then To(if ended then s.(live := s.live - {pc.sandbox}) else s, Releasing) else Blocked
  }

  /** Stopping a Sandbox and removing its records. */
  function RemovalStep(s: Store, act: Act, pc: Pc): Move
    requires act.Stop? || act.Forget? || act.Remove? || act.RemoveDone?
  {
    match act
    case Stop =>
      if pc.DownKill? then To(s.(live := s.live - {pc.active.sandbox}), DownForget(pc.active)) else Blocked
    case Forget => if pc.DownForget? || pc.CleanForget? then To(s.(active := None), Releasing) else Blocked
    case Remove(run) =>
      if pc.CleanRemove? && run in pc.plan.candidates then
        To(s.(runs := s.runs - {run}), CleanRemove(pc.plan.(candidates := pc.plan.candidates - {run})))
      else Blocked
    case RemoveDone =>
      if pc.CleanRemove? && pc.plan.candidates == {} then
        To(s, if pc.plan.protection.gone && pc.plan.protection.active.Some?
                 then CleanForget(pc.plan.protection) else Releasing)
      else Blocked
  }

  function HolderStep(s: Store, act: Act, pc: Pc): Move {
    match act
    case Read => var next := HolderRead(s, pc); if next.Some? then To(s, next.value) else Blocked
    case EndWork => if pc.UpWork? then To(s, UpFinish(pc.run, pc.operation)) else Blocked
    case Fail =>
      // an error: an open operation still runs its deferred finish, and an unrecorded Sandbox is undone
      if pc.UpFinish? || pc.Releasing? || pc.UpRecord? then Blocked
      else To(s, if pc.UpWork? then UpFinish(pc.run, pc.operation) else Releasing)
    case WriteInterrupted(_, _) => RecordStep(s, act, pc)
    case Begin(_, _) => RecordStep(s, act, pc)
    case Update(_, _) => RecordStep(s, act, pc)
    case Finish(_, _) => RecordStep(s, act, pc)
    case Prepare(_) => LaunchStep(s, act, pc)
    case Check => LaunchStep(s, act, pc)
    case Launch(_) => LaunchStep(s, act, pc)
    case Publish => LaunchStep(s, act, pc)
    case Undo(_) => LaunchStep(s, act, pc)
    case _ => RemovalStep(s, act, pc)
  }

  function Goto(w: World, p: Pid, pc: Pc): World {
    w.(procs := w.procs[p := pc])
  }

  function Next(w: World, a: Action): Option<World> {
    match a
    case Spawn(p, command) => if p !in w.procs then Some(Goto(w, p, Waiting(command))) else None
    case SandboxExits(sandbox) => Some(w.(store := w.store.(live := w.store.live - {sandbox})))
    case ForeignSandboxStarts(sandbox) =>
      if sandbox in w.store.usedSandboxes then None
      else
        var s := w.store;
        Some(w.(store := s.(live := s.live + {sandbox}, usedSandboxes := s.usedSandboxes + {sandbox})))
    case Crash(p) =>
      // a process may end anywhere; if it held the mutex, the mutex is abandoned
      if p !in w.procs then None
      else Some(World(if w.lock == Held(p) then Abandoned else w.lock, w.procs - {p}, w.store))
    case Acquire(p) =>
      // an abandoned mutex counts as acquired
      if p in w.procs && w.procs[p].Waiting? && !w.lock.Held?
      then Some(Goto(w.(lock := Held(p)), p, LoadActive(w.procs[p].command))) else None
    case TimeOut(p) =>
      if p in w.procs && w.procs[p].Waiting? then
        Some(Goto(w, p, if w.procs[p].command == Status || w.procs[p].command == Attach then ReadActive else Ended))
      else None
    case Release(p) =>
      // a ReleaseMutex that fails leaves the mutex held until the process has ended, which is a crash while Releasing
      if p in w.procs && w.procs[p].Releasing? then Some(Goto(w.(lock := Free), p, Ended)) else None
    case Does(p, act) =>
      if p !in w.procs then None
      else if LockFree(w.procs[p]) then
        var next := ReaderRead(w.store, w.procs[p]);
        if act == Read && next.Some? then Some(Goto(w, p, next.value)) else None
      else
        var next := HolderStep(w.store, act, w.procs[p]);
        if next.To? then Some(Goto(w.(store := next.store), p, next.pc)) else None
  }

  ghost predicate Step(w: World, w': World) {
    exists a :: Next(w, a) == Some(w')
  }

  ghost predicate StepAt(trace: seq<World>, i: int) {
    0 <= i < |trace| - 1 ==> Step(trace[i], trace[i + 1])
  }

  /** A run from the initial world, one step at a time. */
  ghost predicate IsRun(trace: seq<World>) {
    trace != [] && trace[0] == INIT && forall i :: StepAt(trace, i)
  }

  // ---------------------------------------------------------------- the invariant

  /** No record anywhere is marked running: true from the end of reconciliation until an operation starts. */
  ghost predicate Quiet(s: Store) {
    forall r :: r in s.runs ==> !MarkedRunning(s, r)
  }

  ghost predicate ActiveIs(s: Store, run: RunId) {
    s.active.Some? && s.active.value.run == run && run in s.runs
  }

  ghost predicate ProtectionHolds(s: Store, protection: Protection) {
    && protection.active == s.active
    && (s.active.None? ==> protection.gone)
    && (s.active.Some? && protection.gone ==> s.active.value.sandbox !in s.live)
  }

  ghost predicate PlanHolds(s: Store, plan: Plan) {
    && ProtectionHolds(s, plan.protection)
    && (!plan.protection.gone ==> ActiveRun(s.active) !! plan.candidates)
  }

  ghost predicate OperationOpen(s: Store, run: RunId, operation: SessionOperation) {
    && ActiveIs(s, run) && operation.state == Running && operation.runID == run
    && MarkedRunning(s, run) && s.runs[run].value.id == operation.id
  }

  /** What the lock holder may rely on at each point. */
  ghost predicate Holds(s: Store, pc: Pc) {
    match pc
    case LoadActive(_) => true
    case LoadOperation(_, active) => s.active == Some(active)
    case Interrupt(_, active, operation) =>
      s.active == Some(active) && MarkedRunning(s, active.run) && s.runs[active.run] == Some(operation)
    case UpInspect => Quiet(s) && (s.active.Some? ==> s.active.value.run in s.runs)
    case UpPrepare => Quiet(s) && s.active.None?
    case UpCheck(run) => Quiet(s) && s.active.None? && run in s.runs
    case UpLaunch(run) => Quiet(s) && s.active.None? && run in s.runs
    case UpRecord(run, sandbox) => Quiet(s) && s.active.None? && run in s.runs && sandbox in s.usedSandboxes
    case UpStart(run) => Quiet(s) && ActiveIs(s, run)
    case UpRefused(_) => false
    case UpBegin(run) => Quiet(s) && ActiveIs(s, run)
    case UpWork(run, operation) => OperationOpen(s, run, operation)
    case UpFinish(run, operation) => OperationOpen(s, run, operation)
    case DownLoad => Quiet(s)
    case DownStop(active) => Quiet(s) && s.active == Some(active)
    case DownKill(active) => Quiet(s) && s.active == Some(active)
    case DownCensus(active) => Quiet(s) && s.active == Some(active) && active.sandbox !in s.live
    case DownForget(active) => Quiet(s) && s.active == Some(active) && active.sandbox !in s.live
    case CleanInspect(attempt, planned) => Quiet(s) && attempt < 2 && (planned.Some? ==> PlanHolds(s, planned.value))
    case CleanCensus(attempt, planned, found) =>
      Quiet(s) && attempt < 2 && found == s.active && (planned.Some? ==> PlanHolds(s, planned.value))
    case CleanPlan(attempt, protection) => Quiet(s) && attempt < 2 && ProtectionHolds(s, protection)
    case CleanRemove(plan) => Quiet(s) && PlanHolds(s, plan)
    case CleanForget(protection) => Quiet(s) && ProtectionHolds(s, protection) && protection.gone
    case CleanExhausted => false
    case _ => true
  }

  ghost predicate StoreInv(s: Store) {
    // identities in use were issued, so they are never issued again
    && s.runs.Keys <= s.usedRuns
    && s.live <= s.usedSandboxes
    && (s.active.Some? ==> s.active.value.run in s.usedRuns && s.active.value.sandbox in s.usedSandboxes)
    && (forall r :: r in s.runs && s.runs[r].Some? ==>
         s.runs[r].value.runID == r && s.runs[r].value.id in s.usedOperations)
    // a record marked running belongs to the run that active.json names
    && (forall r :: r in s.runs && MarkedRunning(s, r) ==> s.active.Some? && s.active.value.run == r)
  }

  ghost predicate Inv(w: World) {
    && StoreInv(w.store)
    // only the lock holder is past the lock
    && (forall p :: p in w.procs && Critical(w.procs[p]) ==> w.lock == Held(p))
    && (w.lock.Held? ==>
          w.lock.owner in w.procs && Critical(w.procs[w.lock.owner]) && Holds(w.store, w.procs[w.lock.owner]))
  }

  lemma ReadKeeps(s: Store, pc: Pc)
    requires StoreInv(s) && Holds(s, pc) && HolderRead(s, pc).Some?
    ensures Critical(HolderRead(s, pc).value) && Holds(s, HolderRead(s, pc).value)
  {
    if pc.LoadActive? || pc.LoadOperation? {
    } else if pc.CleanCensus? {
    } else {
    }
  }

  /** A written record keeps the store invariant when it carries its run and an issued id, and is
      marked running only in the active run. */
  lemma WriteRecordKeeps(s: Store, run: RunId, record: SessionOperation, outcome: WriteOutcome)
    requires StoreInv(s) && record.runID == run && record.id in s.usedOperations
    requires record.state == Running ==> ActiveIs(s, run)
    ensures StoreInv(WriteRecord(s, run, record, outcome))
  {
  }

  lemma InterruptKeeps(s: Store, record: SessionOperation, outcome: WriteOutcome, pc: Pc)
    requires StoreInv(s) && Holds(s, pc) && pc.Interrupt?
    requires SameOperation(pc.operation, record) && record.state == Interrupted
    ensures var s' := WriteRecord(s, pc.active.run, record, outcome);
      StoreInv(s') && (WriteConfirmed(s, pc.active.run, outcome) ==> Holds(s', Reconciled(pc.command)))
  {
    WriteRecordKeeps(s, pc.active.run, record, outcome);
  }

  lemma WorkKeeps(s: Store, record: SessionOperation, outcome: WriteOutcome, pc: Pc)
    requires StoreInv(s) && Holds(s, pc) && (pc.UpWork? || pc.UpFinish?) && SameOperation(pc.operation, record)
    ensures StoreInv(WriteRecord(s, pc.run, record, outcome))
    ensures record.state == Running ==>
      var s' := WriteRecord(s, pc.run, record, outcome);
      OperationOpen(s', pc.run, record) && OperationOpen(s', pc.run, pc.operation)
  {
    WriteRecordKeeps(s, pc.run, record, outcome);
  }

  lemma BeginKeeps(s: Store, record: SessionOperation, outcome: WriteOutcome, pc: Pc)
    requires StoreInv(s) && Holds(s, pc) && pc.UpBegin?
    requires record.id !in s.usedOperations && record.runID == pc.run && record.state == Running
    ensures var s' := WriteRecord(s, pc.run, record, outcome).(usedOperations := s.usedOperations + {record.id});
      StoreInv(s') && (outcome != NotWritten ==> OperationOpen(s', pc.run, record))
  {
    var issued := s.(usedOperations := s.usedOperations + {record.id});
    WriteRecordKeeps(issued, pc.run, record, outcome);
    assert WriteRecord(issued, pc.run, record, outcome) ==
           WriteRecord(s, pc.run, record, outcome).(usedOperations := s.usedOperations + {record.id});
  }

  lemma PrepareKeeps(s: Store, run: RunId)
    requires StoreInv(s) && Holds(s, UpPrepare) && run !in s.usedRuns
    ensures var s' := s.(runs := s.runs[run := None], usedRuns := s.usedRuns + {run});
      StoreInv(s') && Holds(s', UpCheck(run))
  {
  }

  lemma RemoveKeeps(s: Store, run: RunId, plan: Plan)
    requires StoreInv(s) && Holds(s, CleanRemove(plan))
    ensures var s' := s.(runs := s.runs - {run});
      StoreInv(s') && Holds(s', CleanRemove(plan.(candidates := plan.candidates - {run})))
  {
  }

  ghost predicate Kept(s: Store, pc: Pc) {
    StoreInv(s) && Critical(pc) && Holds(s, pc)
  }

  lemma InterruptedKeeps(s: Store, record: SessionOperation, outcome: WriteOutcome, pc: Pc, s': Store, pc': Pc)
    requires Kept(s, pc) && RecordStep(s, WriteInterrupted(record, outcome), pc) == To(s', pc')
    ensures Kept(s', pc')
  {
    InterruptKeeps(s, record, outcome, pc);
  }

  lemma BegunKeeps(s: Store, record: SessionOperation, outcome: WriteOutcome, pc: Pc, s': Store, pc': Pc)
    requires Kept(s, pc) && RecordStep(s, Begin(record, outcome), pc) == To(s', pc')
    ensures Kept(s', pc')
  {
    BeginKeeps(s, record, outcome, pc);
  }

  lemma UpdatedKeeps(s: Store, record: SessionOperation, outcome: WriteOutcome, pc: Pc, s': Store, pc': Pc)
    requires Kept(s, pc) && RecordStep(s, Update(record, outcome), pc) == To(s', pc')
    ensures Kept(s', pc')
  {
    WorkKeeps(s, record, outcome, pc);
  }

  lemma FinishedKeeps(s: Store, record: SessionOperation, outcome: WriteOutcome, pc: Pc, s': Store, pc': Pc)
    requires Kept(s, pc) && RecordStep(s, Finish(record, outcome), pc) == To(s', pc')
    ensures Kept(s', pc')
  {
    WorkKeeps(s, record, outcome, pc);
  }

  lemma RecordKeeps(s: Store, act: Act, pc: Pc, s': Store, pc': Pc)
    requires act.WriteInterrupted? || act.Begin? || act.Update? || act.Finish?
    requires Kept(s, pc) && RecordStep(s, act, pc) == To(s', pc')
    ensures Kept(s', pc')
  {
    match act
    case WriteInterrupted(record, outcome) => InterruptedKeeps(s, record, outcome, pc, s', pc');
    case Begin(record, outcome) => BegunKeeps(s, record, outcome, pc, s', pc');
    case Update(record, outcome) => UpdatedKeeps(s, record, outcome, pc, s', pc');
    case Finish(record, outcome) => FinishedKeeps(s, record, outcome, pc, s', pc');
  }

  lemma LaunchKeeps(s: Store, act: Act, pc: Pc, s': Store, pc': Pc)
    requires act.Prepare? || act.Check? || act.Launch? || act.Publish? || act.Undo?
    requires Kept(s, pc) && LaunchStep(s, act, pc) == To(s', pc')
    ensures Kept(s', pc')
  {
    match act
    case Prepare(run) => PrepareKeeps(s, run);
    case _ =>
  }

  lemma RemovalKeeps(s: Store, act: Act, pc: Pc, s': Store, pc': Pc)
    requires act.Stop? || act.Forget? || act.Remove? || act.RemoveDone?
    requires Kept(s, pc) && RemovalStep(s, act, pc) == To(s', pc')
    ensures Kept(s', pc')
  {
    match act
    case Remove(run) => RemoveKeeps(s, run, pc.plan);
    case _ =>
  }

  lemma HolderKeeps(s: Store, act: Act, pc: Pc, s': Store, pc': Pc)
    requires Kept(s, pc) && HolderStep(s, act, pc) == To(s', pc')
    ensures Kept(s', pc')
  {
    if act.WriteInterrupted? || act.Begin? || act.Update? || act.Finish? {
      RecordKeeps(s, act, pc, s', pc');
    } else if act.Prepare? || act.Check? || act.Launch? || act.Publish? || act.Undo? {
      LaunchKeeps(s, act, pc, s', pc');
    } else if act.Stop? || act.Forget? || act.Remove? || act.RemoveDone? {
      RemovalKeeps(s, act, pc, s', pc');
    } else if act.Read? {
      ReadKeeps(s, pc);
    }
  }

  lemma ReaderStaysLockFree(s: Store, pc: Pc)
    requires ReaderRead(s, pc).Some?
    ensures LockFree(ReaderRead(s, pc).value)
  {
  }

  /** Sandbox processes that come and go take nothing away from the lock holder. */
  lemma EnvironmentKeeps(s: Store, pc: Pc, sandbox: SandboxId)
    requires StoreInv(s) && Holds(s, pc)
    ensures var s' := s.(live := s.live - {sandbox}); StoreInv(s') && Holds(s', pc)
    ensures sandbox !in s.usedSandboxes ==>
      var s' := s.(live := s.live + {sandbox}, usedSandboxes := s.usedSandboxes + {sandbox});
      StoreInv(s') && Holds(s', pc)
  {
  }

  lemma StepKeepsInv(w: World, a: Action, w': World)
    requires Inv(w) && Next(w, a) == Some(w')
    ensures Inv(w')
  {
    match a
    case SandboxExits(sandbox) => SandboxesKeepInv(w, sandbox, w');
    case ForeignSandboxStarts(sandbox) => SandboxesKeepInv(w, sandbox, w');
    case Does(p, act) =>
      if LockFree(w.procs[p]) {
        ReaderStaysLockFree(w.store, w.procs[p]);
      } else {
        HolderKeeps(w.store, act, w.procs[p], w'.store, w'.procs[p]);
      }
    case _ =>
  }

  lemma SandboxesKeepInv(w: World, sandbox: SandboxId, w': World)
    requires Inv(w)
    requires Next(w, SandboxExits(sandbox)) == Some(w') || Next(w, ForeignSandboxStarts(sandbox)) == Some(w')
    ensures Inv(w')
  {
    EnvironmentKeeps(w.store, Ended, sandbox);
    if w.lock.Held? {
      EnvironmentKeeps(w.store, w.procs[w.lock.owner], sandbox);
    }
  }

  lemma {:induction false} RunKeepsInv(trace: seq<World>, i: nat)
    requires IsRun(trace) && i < |trace|
    ensures Inv(trace[i])
  {
    if i > 0 {
      RunKeepsInv(trace, i - 1);
      assert StepAt(trace, i - 1);
      var a :| Next(trace[i - 1], a) == Some(trace[i]);
      StepKeepsInv(trace[i - 1], a, trace[i]);
    }
  }

  // ---------------------------------------------------------------- safety of every run

  /** Neither refusal is reachable: `up` never finds a record "still marked running" after it has
      reconciled, and cleanup never runs out of retries. */
  lemma RefusalsUnreachable(trace: seq<World>, i: nat, p: Pid)
    requires IsRun(trace) && i < |trace| && p in trace[i].procs
    ensures !trace[i].procs[p].UpRefused? && !trace[i].procs[p].CleanExhausted?
  {
    RunKeepsInv(trace, i);
  }

  /** This process is working on operation `id`, or has yet to publish its outcome. */
  predicate Working(pc: Pc, id: nat) {
    (pc.UpWork? || pc.UpFinish?) && pc.operation.id == id
  }

  ghost predicate Owns(w: World, p: Pid, id: nat) {
    p in w.procs && Working(w.procs[p], id)
  }

  ghost predicate RunningAs(s: Store, run: RunId, id: nat) {
    run in s.runs && MarkedRunning(s, run) && s.runs[run].value.id == id
  }

  /** Reconciliation interrupts only abandoned operations: when it writes, no process anywhere is
      working on any operation, and the record it replaces was marked running. */
  lemma ReconciliationSparesLiveOperations(w: World, p: Pid, record: SessionOperation, outcome: WriteOutcome)
    requires Inv(w) && Next(w, Does(p, WriteInterrupted(record, outcome))).Some?
    ensures forall q, id :: !Owns(w, q, id)
    ensures w.store.active.Some? && RunningAs(w.store, w.store.active.value.run, record.id)
  {
  }

  lemma AbandonedRecordStep(s: Store, act: Act, pc: Pc, s': Store, pc': Pc, run: RunId, id: nat)
    requires Kept(s, pc) && HolderStep(s, act, pc) == To(s', pc')
    requires RunningAs(s, run, id) && !Working(pc, id)
    ensures
      && !Working(pc', id) && run in s'.runs
      && (s'.runs[run] == s.runs[run] ||
            (s'.runs[run].Some? && s'.runs[run].value.id == id && s'.runs[run].value.state == Interrupted))
  {
    assert pc.LoadActive? || pc.LoadOperation? || pc.Interrupt? || pc.Releasing?;
  }

  /** A running record has at most one owner, which holds the lock; a record without an owner is
      abandoned: no step touches it except reconciliation, which interrupts it. */
  lemma RunningRecordOwnedOrAbandoned(w: World, a: Action, w': World, run: RunId, id: nat)
    requires Inv(w) && Next(w, a) == Some(w') && RunningAs(w.store, run, id)
    ensures forall q :: Owns(w, q, id) ==> w.lock == Held(q)
    ensures (forall q :: !Owns(w, q, id)) ==>
      && (forall q :: !Owns(w', q, id)) && run in w'.store.runs
      && (w'.store.runs[run] == w.store.runs[run] ||
            (w'.store.runs[run].Some? && w'.store.runs[run].value.id == id &&
              w'.store.runs[run].value.state == Interrupted))
  {
    if forall q :: !Owns(w, q, id) {
      if a.Does? && Critical(w.procs[a.p]) {
        assert !Owns(w, a.p, id);
        AbandonedRecordStep(w.store, a.act, w.procs[a.p], w'.store, w'.procs[a.p], run, id);
      } else if a.Does? {
        ReaderStaysLockFree(w.store, w.procs[a.p]);
      }
      forall q ensures !Owns(w', q, id) {
        assert !Owns(w, q, id);
      }
    }
  }

  /** No step of any process removes the session record or the run directory of a Sandbox that is alive. */
  lemma LiveSandboxKeepsItsRecords(w: World, a: Action, w': World)
    requires Inv(w) && Next(w, a) == Some(w')
    requires w.store.active.Some? && w.store.active.value.sandbox in w.store.live
    ensures w'.store.active == w.store.active
    ensures w.store.active.value.run in w.store.runs ==> w.store.active.value.run in w'.store.runs
  {
    if a.Does? && Critical(w.procs[a.p]) {
      var pc, s', pc' := w.procs[a.p], w'.store, w'.procs[a.p];
      if a.act.Stop? || a.act.Forget? || a.act.Remove? || a.act.RemoveDone? {
        RemovalSpares(w.store, a.act, pc, s', pc');
      } else {
        OthersForgetNothing(w.store, a.act, pc, s', pc');
      }
    }
  }

  lemma RemovalSpares(s: Store, act: Act, pc: Pc, s': Store, pc': Pc)
    requires act.Stop? || act.Forget? || act.Remove? || act.RemoveDone?
    requires Kept(s, pc) && RemovalStep(s, act, pc) == To(s', pc')
    requires s.active.Some? && s.active.value.sandbox in s.live
    ensures s'.active == s.active && (s.active.value.run in s.runs ==> s.active.value.run in s'.runs)
  {
  }

  lemma OthersForgetNothing(s: Store, act: Act, pc: Pc, s': Store, pc': Pc)
    requires !act.Stop? && !act.Forget? && !act.Remove? && !act.RemoveDone?
    requires Kept(s, pc) && HolderStep(s, act, pc) == To(s', pc') && s.active.Some?
    ensures s'.active == s.active && s.runs.Keys <= s'.runs.Keys
  {
    if act.WriteInterrupted? || act.Begin? || act.Update? || act.Finish? {
    } else if act.Prepare? || act.Check? || act.Launch? || act.Publish? || act.Undo? {
    } else {
    }
  }

  // ---------------------------------------------------------------- the lock-free reader

  predicate Publishing(pc: Pc, run: RunId) {
    (pc.UpCheck? || pc.UpLaunch? || pc.UpRecord?) && pc.run == run
  }

  /** active.json will never name this run again. */
  ghost predicate SpentIn(s: Store, run: RunId) {
    run in s.usedRuns && (s.active.Some? ==> s.active.value.run != run)
  }

  ghost predicate Spent(w: World, run: RunId) {
    SpentIn(w.store, run) && forall p :: p in w.procs ==> !Publishing(w.procs[p], run)
  }

  lemma SpentStep(s: Store, act: Act, pc: Pc, s': Store, pc': Pc, run: RunId)
    requires HolderStep(s, act, pc) == To(s', pc') && SpentIn(s, run) && !Publishing(pc, run)
    ensures SpentIn(s', run) && !Publishing(pc', run)
  {
    if act.Prepare? || act.Check? || act.Launch? || act.Publish? || act.Undo? {
      SpentLaunch(s, act, pc, s', pc', run);
    } else if act.WriteInterrupted? || act.Begin? || act.Update? || act.Finish? {
      SpentRecord(s, act, pc, s', pc', run);
    } else if act.Stop? || act.Forget? || act.Remove? || act.RemoveDone? {
      SpentRemoval(s, act, pc, s', pc', run);
    } else if act.Read? {
      ReadPublishesNothing(s, pc, run);
    }
  }

  lemma ReadPublishesNothing(s: Store, pc: Pc, run: RunId)
    requires HolderRead(s, pc).Some?
    ensures !Publishing(HolderRead(s, pc).value, run)
  {
  }

  lemma SpentRemoval(s: Store, act: Act, pc: Pc, s': Store, pc': Pc, run: RunId)
    requires act.Stop? || act.Forget? || act.Remove? || act.RemoveDone?
    requires RemovalStep(s, act, pc) == To(s', pc') && SpentIn(s, run)
    ensures SpentIn(s', run) && !Publishing(pc', run)
  {
  }

  lemma SpentLaunch(s: Store, act: Act, pc: Pc, s': Store, pc': Pc, run: RunId)
    requires act.Prepare? || act.Check? || act.Launch? || act.Publish? || act.Undo?
    requires LaunchStep(s, act, pc) == To(s', pc') && SpentIn(s, run) && !Publishing(pc, run)
    ensures SpentIn(s', run) && !Publishing(pc', run)
  {
  }

  lemma SpentRecord(s: Store, act: Act, pc: Pc, s': Store, pc': Pc, run: RunId)
    requires act.WriteInterrupted? || act.Begin? || act.Update? || act.Finish?
    requires RecordStep(s, act, pc) == To(s', pc') && SpentIn(s, run)
    ensures SpentIn(s', run) && !Publishing(pc', run)
  {
    assert s'.active == s.active;
  }

  lemma SpentStays(w: World, a: Action, w': World, run: RunId)
    requires Inv(w) && Next(w, a) == Some(w') && Spent(w, run)
    ensures Spent(w', run)
  {
    if a.Does? && Critical(w.procs[a.p]) {
      SpentStep(w.store, a.act, w.procs[a.p], w'.store, w'.procs[a.p], run);
    } else if a.Does? {
      ReaderStaysLockFree(w.store, w.procs[a.p]);
    }
  }

  lemma LeavingSpends(w: World, a: Action, w': World)
    requires Inv(w) && Next(w, a) == Some(w') && w.store.active.Some? && w'.store.active != w.store.active
    ensures Spent(w', w.store.active.value.run)
  {
    var s, act, pc := w.store, a.act, w.procs[a.p];
    if act.Stop? || act.Forget? || act.Remove? || act.RemoveDone? {
      OnlyForgetLeaves(s, act, pc, w'.store, w'.procs[a.p]);
    } else {
      OthersForgetNothing(s, act, pc, w'.store, w'.procs[a.p]);
    }
  }

  lemma OnlyForgetLeaves(s: Store, act: Act, pc: Pc, s': Store, pc': Pc)
    requires act.Stop? || act.Forget? || act.Remove? || act.RemoveDone?
    requires RemovalStep(s, act, pc) == To(s', pc') && s'.active != s.active
    ensures s' == s.(active := None) && pc' == Releasing
  {
  }

  /** Operation `id` will never be marked running again. */
  ghost predicate OverIn(s: Store, id: nat) {
    id in s.usedOperations && forall r :: r in s.runs ==> !RunningAs(s, r, id)
  }

  ghost predicate Over(w: World, id: nat) {
    OverIn(w.store, id) && forall p :: !Owns(w, p, id)
  }

  lemma WrittenStaysOver(s: Store, run: RunId, record: SessionOperation, outcome: WriteOutcome, id: nat)
    requires OverIn(s, id) && (record.state == Running ==> record.id != id)
    ensures OverIn(WriteRecord(s, run, record, outcome), id)
  {
  }

  lemma OverRecordStep(s: Store, act: Act, pc: Pc, s': Store, pc': Pc, id: nat)
    requires StoreInv(s) && Holds(s, pc) && OverIn(s, id) && !Working(pc, id)
    requires act.WriteInterrupted? || act.Begin? || act.Update? || act.Finish?
    requires RecordStep(s, act, pc) == To(s', pc')
    ensures OverIn(s', id) && !Working(pc', id)
  {
    WrittenStaysOver(s, if pc.Interrupt? then pc.active.run else pc.run, act.record, act.outcome, id);
  }

  lemma OverStep(s: Store, act: Act, pc: Pc, s': Store, pc': Pc, id: nat)
    requires StoreInv(s) && Holds(s, pc) && HolderStep(s, act, pc) == To(s', pc')
    requires OverIn(s, id) && !Working(pc, id)
    ensures OverIn(s', id) && !Working(pc', id)
  {
    if act.WriteInterrupted? || act.Begin? || act.Update? || act.Finish? {
      OverRecordStep(s, act, pc, s', pc', id);
    } else if act.Prepare? || act.Check? || act.Launch? || act.Publish? || act.Undo? {
      OverLaunchStep(s, act, pc, s', pc', id);
    } else if act.Stop? || act.Forget? || act.Remove? || act.RemoveDone? {
      OverRemovalStep(s, act, pc, s', pc', id);
    } else if act.Read? {
      ReadStartsNoWork(s, pc, id);
    }
  }

  lemma OverLaunchStep(s: Store, act: Act, pc: Pc, s': Store, pc': Pc, id: nat)
    requires act.Prepare? || act.Check? || act.Launch? || act.Publish? || act.Undo?
    requires LaunchStep(s, act, pc) == To(s', pc') && OverIn(s, id)
    ensures OverIn(s', id) && !Working(pc', id)
  {
    forall r | r in s'.runs ensures !RunningAs(s', r, id) {
      assert r in s.runs ==> !RunningAs(s, r, id);
    }
  }

  lemma OverRemovalStep(s: Store, act: Act, pc: Pc, s': Store, pc': Pc, id: nat)
    requires act.Stop? || act.Forget? || act.Remove? || act.RemoveDone?
    requires RemovalStep(s, act, pc) == To(s', pc') && OverIn(s, id)
    ensures OverIn(s', id) && !Working(pc', id)
  {
    forall r | r in s'.runs ensures !RunningAs(s', r, id) {
      assert !RunningAs(s, r, id);
    }
  }

  lemma ReadStartsNoWork(s: Store, pc: Pc, id: nat)
    requires HolderRead(s, pc).Some?
    ensures !Working(HolderRead(s, pc).value, id)
  {
  }

  lemma OverStays(w: World, a: Action, w': World, id: nat)
    requires Inv(w) && Next(w, a) == Some(w') && Over(w, id)
    ensures Over(w', id)
  {
    if a.Does? && Critical(w.procs[a.p]) {
      assert !Owns(w, a.p, id);
      OverStep(w.store, a.act, w.procs[a.p], w'.store, w'.procs[a.p], id);
    } else if a.Does? {
      ReaderStaysLockFree(w.store, w.procs[a.p]);
    }
    forall q ensures !Owns(w', q, id) {
      assert !Owns(w, q, id);
    }
  }

  lemma StoppingStep(s: Store, act: Act, pc: Pc, s': Store, pc': Pc, run: RunId, id: nat)
    requires Kept(s, pc) && HolderStep(s, act, pc) == To(s', pc')
    requires RunningAs(s, run, id) && !RunningAs(s', run, id)
    ensures OverIn(s', id) && pc' in {Releasing, UpInspect, DownLoad, CleanInspect(0, None)}
  {
    assert act.WriteInterrupted? || act.Finish?;
  }

  lemma StoppingIsOver(w: World, a: Action, w': World, run: RunId, id: nat)
    requires Inv(w) && Next(w, a) == Some(w') && RunningAs(w.store, run, id) && !RunningAs(w'.store, run, id)
    ensures Over(w', id)
  {
    StoppingStep(w.store, a.act, w.procs[a.p], w'.store, w'.procs[a.p], run, id);
  }

  lemma StepOf(trace: seq<World>, i: nat) returns (a: Action)
    requires IsRun(trace) && i + 1 < |trace|
    ensures Inv(trace[i]) && Next(trace[i], a) == Some(trace[i + 1])
  {
    RunKeepsInv(trace, i);
    assert StepAt(trace, i);
    a :| Next(trace[i], a) == Some(trace[i + 1]);
  }

  lemma SpentAt(trace: seq<World>, i: nat, run: RunId)
    requires IsRun(trace) && i + 1 < |trace| && Spent(trace[i], run)
    ensures Spent(trace[i + 1], run)
  {
    var a := StepOf(trace, i);
    SpentStays(trace[i], a, trace[i + 1], run);
  }

  lemma LeavingAt(trace: seq<World>, i: nat, active: ActiveSession)
    requires IsRun(trace) && i + 1 < |trace| && trace[i].store.active == Some(active)
    ensures trace[i + 1].store.active == Some(active) || Spent(trace[i + 1], active.run)
  {
    var a := StepOf(trace, i);
    if trace[i + 1].store.active != Some(active) {
      LeavingSpends(trace[i], a, trace[i + 1]);
    }
  }

  lemma OverAt(trace: seq<World>, i: nat, id: nat)
    requires IsRun(trace) && i + 1 < |trace| && Over(trace[i], id)
    ensures Over(trace[i + 1], id)
  {
    var a := StepOf(trace, i);
    OverStays(trace[i], a, trace[i + 1], id);
  }

  lemma StoppingAt(trace: seq<World>, i: nat, run: RunId, id: nat)
    requires IsRun(trace) && i + 1 < |trace| && RunningAs(trace[i].store, run, id)
    ensures RunningAs(trace[i + 1].store, run, id) || Over(trace[i + 1], id)
  {
    var a := StepOf(trace, i);
    if !RunningAs(trace[i + 1].store, run, id) {
      StoppingIsOver(trace[i], a, trace[i + 1], run, id);
    }
  }

  lemma {:induction false} SpentForever(trace: seq<World>, i: nat, j: nat, run: RunId)
    requires IsRun(trace) && i <= j < |trace| && Spent(trace[i], run)
    ensures Spent(trace[j], run)
  {
    if i < j {
      SpentForever(trace, i, j - 1, run);
      SpentAt(trace, j - 1, run);
    }
  }

  lemma {:induction false} OverForever(trace: seq<World>, i: nat, j: nat, id: nat)
    requires IsRun(trace) && i <= j < |trace| && Over(trace[i], id)
    ensures Over(trace[j], id)
  {
    if i < j {
      OverForever(trace, i, j - 1, id);
      OverAt(trace, j - 1, id);
    }
  }

  /** A session record that names the same run at two moments was there, unchanged, all the time. */
  lemma {:induction false} ActiveUnbroken(trace: seq<World>, i: nat, j: nat, k: nat, active: ActiveSession)
    requires IsRun(trace) && i <= k <= j < |trace| && trace[i].store.active == Some(active)
    requires trace[j].store.active.Some? && trace[j].store.active.value.run == active.run
    ensures trace[k].store.active == Some(active)
    decreases k - i
  {
    if i < k {
      ActiveUnbroken(trace, i, j, k - 1, active);
      LeavingAt(trace, k - 1, active);
      if trace[k].store.active != Some(active) {
        SpentForever(trace, k, j, active.run);
        assert false;
      }
    }
  }

  /** A record marked running under one id at two moments was marked running under it all the time. */
  lemma {:induction false} RunningUnbroken(trace: seq<World>, i: nat, j: nat, k: nat, run: RunId, id: nat)
    requires IsRun(trace) && i <= k <= j < |trace|
    requires RunningAs(trace[i].store, run, id) && RunningAs(trace[j].store, run, id)
    ensures RunningAs(trace[k].store, run, id)
    decreases k - i
  {
    if i < k {
      RunningUnbroken(trace, i, j, k - 1, run, id);
      StoppingAt(trace, k - 1, run, id);
      if !RunningAs(trace[k].store, run, id) {
        OverForever(trace, k, j, id);
        assert false;
      }
    }
  }

  /** When process `p` has got as far as `pc`, its last read happened at some earlier moment. */
  lemma {:induction false} LastMove(trace: seq<World>, n: nat, p: Pid, pc: Pc) returns (t: nat)
    requires IsRun(trace) && n < |trace| && p in trace[n].procs && trace[n].procs[p] == pc
    requires HasRead(pc)
    ensures t < n && p in trace[t].procs && LockFree(trace[t].procs[p])
    ensures ReaderRead(trace[t].store, trace[t].procs[p]) == Some(pc)
  {
    var a := StepOf(trace, n - 1);
    if p in trace[n - 1].procs && trace[n - 1].procs[p] == pc {
      t := LastMove(trace, n - 1, p, pc);
    } else {
      t := n - 1;
      HolderNeverReads(trace[n - 1], a, trace[n], p, pc);
    }
  }

  lemma HolderNeverReads(w: World, a: Action, w': World, p: Pid, pc: Pc)
    requires Inv(w) && Next(w, a) == Some(w') && p in w'.procs && w'.procs[p] == pc && HasRead(pc)
    requires !(p in w.procs && w.procs[p] == pc)
    ensures p in w.procs && LockFree(w.procs[p]) && ReaderRead(w.store, w.procs[p]) == Some(pc)
  {
    if a.Does? && Critical(w.procs[a.p]) {
      HolderKeeps(w.store, a.act, w.procs[a.p], w'.store, w'.procs[a.p]);
    }
  }

  lemma LastThreeMoves(trace: seq<World>, n: nat, p: Pid) returns (t4: nat, t5: nat, t6: nat)
    requires IsRun(trace) && n < |trace| && p in trace[n].procs && trace[n].procs[p].ReadDone?
    ensures t4 < t5 < t6 < n && p in trace[t4].procs && trace[t4].procs[p].InspectSandbox?
    ensures var (done, look) := (trace[n].procs[p], trace[t4].procs[p]);
      && look.before == done.before && look.operation == done.operation
      && done.report == Reported(trace[t4].store, look.found)
      && trace[t5].store.active == Some(done.before)
      && RunningAs(trace[t6].store, done.before.run, done.operation.id)
  {
    t6 := LastMove(trace, n, p, trace[n].procs[p]);
    t5 := LastMove(trace, t6, p, trace[t6].procs[p]);
    t4 := LastMove(trace, t5, p, trace[t5].procs[p]);
  }

  lemma FirstThreeMoves(trace: seq<World>, n: nat, p: Pid) returns (t1: nat, t2: nat, t3: nat)
    requires IsRun(trace) && n < |trace| && p in trace[n].procs && trace[n].procs[p].InspectSandbox?
    ensures t1 < t2 < t3 < n
    ensures var look := trace[n].procs[p];
      && trace[t1].store.active == Some(look.before) && trace[t3].store.active == look.found
      && RunningAs(trace[t2].store, look.before.run, look.operation.id)
      && trace[t2].store.runs[look.before.run] == Some(look.operation)
  {
    t3 := LastMove(trace, n, p, trace[n].procs[p]);
    t2 := LastMove(trace, t3, p, trace[t3].procs[p]);
    t1 := LastMove(trace, t2, p, trace[t2].procs[p]);
  }

  /** The lock-free double read is atomic. If the reader succeeds, then there are moments t1 to t6, at which it made
      its reads, such that active.json stayed the same from t1 to t6 and the operation stayed marked running, under
      the one id, from t2 to t6. So the inspection between its two looks (t3, t4) was one of the same session,
      although it reads active.json by itself: what is reported is that session's run, managed or stale as its
      Sandbox was alive then. */
  lemma LockFreeReadIsAtomic(trace: seq<World>, n: nat, p: Pid)
    returns (t1: nat, t2: nat, t3: nat, t4: nat, t5: nat, t6: nat)
    requires IsRun(trace) && n < |trace| && p in trace[n].procs && trace[n].procs[p].ReadDone?
    ensures t1 < t2 < t3 < t4 < t5 < t6 < n
    ensures var (before, operation) := (trace[n].procs[p].before, trace[n].procs[p].operation);
      && (forall k :: t1 <= k <= t6 ==> trace[k].store.active == Some(before))
      && (forall k :: t2 <= k <= t6 ==> RunningAs(trace[k].store, before.run, operation.id))
      && trace[t2].store.runs[before.run] == Some(operation)
      && trace[n].procs[p].report ==
           if before.sandbox in trace[t4].store.live then Managed(before.run) else Stale(before.run)
  {
    var before, operation := trace[n].procs[p].before, trace[n].procs[p].operation;
    t4, t5, t6 := LastThreeMoves(trace, n, p);
    t1, t2, t3 := FirstThreeMoves(trace, t4, p);
    RunKeepsInv(trace, t6);
    forall k | t2 <= k <= t6 ensures RunningAs(trace[k].store, before.run, operation.id) {
      RunningUnbroken(trace, t2, t6, k, before.run, operation.id);
    }
    forall k | t1 <= k <= t6 ensures trace[k].store.active == Some(before) {
      ActiveUnbroken(trace, t1, t6, k, before);
    }
  }

  // ---------------------------------------------------------------- when cleanup cannot be run again

  /** active.json names a run directory that no longer exists. */
  predicate Dangling(s: Store) {
    s.active.Some? && s.active.value.run !in s.runs
  }

  /** Dangling, and no command is past reconciliation. */
  predicate Stuck(w: World) {
    && Dangling(w.store)
    && (w.lock.Held? ==> w.lock.owner in w.procs && NotReconciled(w.procs[w.lock.owner]))
  }

  predicate NotReconciled(pc: Pc) {
    pc.LoadActive? || pc.LoadOperation? || pc.Releasing?
  }

  /** Cleanup has removed the active run's directory and not yet active.json. */
  predicate InRemovalWindow(w: World) {
    Dangling(w.store) && w.lock.Held? && w.lock.owner in w.procs && Removing(w.procs[w.lock.owner])
  }

  lemma StuckStays(w: World, a: Action, w': World)
    requires Inv(w) && Next(w, a) == Some(w') && Stuck(w)
    ensures Stuck(w') && w'.store.active == w.store.active
  {
  }

  predicate Removing(pc: Pc) {
    (pc.CleanRemove? && pc.plan.protection.gone) || pc.CleanForget?
  }

  lemma DanglingStep(s: Store, act: Act, pc: Pc, s': Store, pc': Pc)
    requires Kept(s, pc) && HolderStep(s, act, pc) == To(s', pc')
    requires Dangling(s) ==> Removing(pc)
    ensures
      && (Dangling(s') ==> NotReconciled(pc') || Removing(pc'))
      && (Dangling(s') && NotReconciled(pc') <==> Dangling(s) && act == Fail)
  {
    if act.Stop? || act.Forget? || act.Remove? || act.RemoveDone? {
      DanglingRemoval(s, act, pc, s', pc');
    } else if act.Read? {
      DanglingRead(s, pc);
    } else if s.active.Some? {
      OthersForgetNothing(s, act, pc, s', pc');
    } else {
      OnlyPublishNames(s, act, pc, s', pc');
    }
  }

  lemma DanglingRemoval(s: Store, act: Act, pc: Pc, s': Store, pc': Pc)
    requires act.Stop? || act.Forget? || act.Remove? || act.RemoveDone?
    requires Kept(s, pc) && RemovalStep(s, act, pc) == To(s', pc') && (Dangling(s) ==> Removing(pc))
    ensures Dangling(s') ==> Removing(pc')
  {
  }

  lemma DanglingRead(s: Store, pc: Pc)
    requires Kept(s, pc) && HolderRead(s, pc).Some? && (Dangling(s) ==> Removing(pc))
    ensures !Dangling(s)
  {
  }

  lemma OnlyPublishNames(s: Store, act: Act, pc: Pc, s': Store, pc': Pc)
    requires !act.Stop? && !act.Forget? && !act.Remove? && !act.RemoveDone?
    requires Kept(s, pc) && HolderStep(s, act, pc) == To(s', pc') && s.active.None?
    ensures !Dangling(s')
  {
    if act.WriteInterrupted? || act.Begin? || act.Update? || act.Finish? {
    } else if act.Prepare? || act.Check? || act.Launch? || act.Publish? || act.Undo? {
    } else {
    }
  }

  lemma DanglingOnlyInWindow(w: World, a: Action, w': World)
    requires Inv(w) && Next(w, a) == Some(w')
    requires Dangling(w.store) ==> Stuck(w) || InRemovalWindow(w)
    ensures Dangling(w'.store) ==> Stuck(w') || InRemovalWindow(w')
    ensures !Stuck(w) ==>
      (Stuck(w') <==> InRemovalWindow(w) && (a == Crash(w.lock.owner) || a == Does(w.lock.owner, Fail)))
  {
    if Stuck(w) {
      StuckStays(w, a, w');
    } else if a.Does? && Critical(w.procs[a.p]) {
      DanglingStep(w.store, a.act, w.procs[a.p], w'.store, w'.procs[a.p]);
    } else if a.Does? {
      ReaderStaysLockFree(w.store, w.procs[a.p]);
    }
  }

  lemma StuckAt(trace: seq<World>, i: nat)
    requires IsRun(trace) && i + 1 < |trace| && Stuck(trace[i])
    ensures Stuck(trace[i + 1]) && trace[i + 1].store.active == trace[i].store.active
  {
    var a := StepOf(trace, i);
    StuckStays(trace[i], a, trace[i + 1]);
  }

  /** Once stuck, no later command of any kind gets past reconciliation, in any continuation. */
  lemma {:induction false} StuckForever(trace: seq<World>, i: nat, j: nat)
    requires IsRun(trace) && i <= j < |trace| && Stuck(trace[i])
    ensures Stuck(trace[j]) && trace[j].store.active == trace[i].store.active
  {
    if i < j {
      StuckForever(trace, i, j - 1);
      StuckAt(trace, j - 1);
    }
  }

  /** A run becomes stuck exactly by a crash or an error of cleanup between removing the active run's
      directory and removing active.json. */
  lemma {:induction false} StuckIff(trace: seq<World>, i: nat, a: Action)
    requires IsRun(trace) && i + 1 < |trace| && Next(trace[i], a) == Some(trace[i + 1]) && !Stuck(trace[i])
    ensures Stuck(trace[i + 1]) <==>
      InRemovalWindow(trace[i]) && (a == Crash(trace[i].lock.owner) || a == Does(trace[i].lock.owner, Fail))
  {
    DanglingInRun(trace, i);
    RunKeepsInv(trace, i);
    DanglingOnlyInWindow(trace[i], a, trace[i + 1]);
  }

  lemma {:induction false} DanglingInRun(trace: seq<World>, i: nat)
    requires IsRun(trace) && i < |trace|
    ensures Dangling(trace[i].store) ==> Stuck(trace[i]) || InRemovalWindow(trace[i])
  {
    if i > 0 {
      DanglingInRun(trace, i - 1);
      var a := StepOf(trace, i - 1);
      DanglingOnlyInWindow(trace[i - 1], a, trace[i]);
    }
  }
}
