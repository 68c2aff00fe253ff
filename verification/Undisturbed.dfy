/** What each command does when nothing else happens beside it. */
module Undisturbed {
  import opened Common
  import opened Operations
  import opened Lifecycle
  import opened Repair

  // ---------------------------------------------------------------- the lock-free reader

  /** This many reads in a row by one process. */
  function Reads(p: Pid, n: nat): seq<Action> {
    if n == 0 then [] else [Does(p, Read)] + Reads(p, n - 1)
  }

  lemma AfterFirst(w: World, a: Action, rest: seq<Action>, w': World)
    requires Next(w, a) == Some(w')
    ensures After(w, [a] + rest) == After(w', rest)
  {
    assert ([a] + rest)[1..] == rest;
  }

  /** From `pc`, this many reads without anything between them take process `p` to `pc'`. */
  predicate ReadsTo(w: World, p: Pid, pc: Pc, n: nat, pc': Pc) {
    After(Goto(w, p, pc), Reads(p, n)) == Some(Goto(w, p, pc'))
  }

  lemma ReadsOn(w: World, p: Pid, pc: Pc, next: Pc, n: nat, pc': Pc)
    requires LockFree(pc) && ReaderRead(w.store, pc) == Some(next) && n > 0 && ReadsTo(w, p, next, n - 1, pc')
    ensures ReadsTo(w, p, pc, n, pc')
  {
    assert w.procs[p := pc][p := next] == w.procs[p := next];
    AfterFirst(Goto(w, p, pc), Does(p, Read), Reads(p, n - 1), Goto(w, p, next));
  }

  /** When the mutex is not to be had, `status` and `attach` read without it. */
  lemma TimeOutReads(w: World, p: Pid, command: Subcommand, n: nat, pc: Pc)
    requires p in w.procs && w.procs[p] == Waiting(command) && (command == Status || command == Attach)
    requires ReadsTo(w, p, ReadActive, n, pc)
    ensures After(w, [TimeOut(p)] + Reads(p, n)) == Some(Goto(w, p, pc))
  {
    AfterFirst(w, TimeOut(p), Reads(p, n), Goto(w, p, ReadActive));
  }

  lemma SecondLook(w: World, p: Pid, active: ActiveSession, operation: SessionOperation, report: Report)
    requires w.store.active == Some(active) && active.run in w.store.runs
    requires w.store.runs[active.run] == Some(operation) && operation.state == Running && operation.runID == active.run
    ensures ReadsTo(w, p, ReadAgain(active, operation, report), 2, ReadDone(active, operation, report))
  {
    var done := ReadDone(active, operation, report);
    ReadsOn(w, p, ReadOperationAgain(active, operation, report), done, 1, done);
    ReadsOn(w, p, ReadAgain(active, operation, report), ReadOperationAgain(active, operation, report), 2, done);
  }

  lemma Inspection(w: World, p: Pid, active: ActiveSession, operation: SessionOperation)
    requires w.store.active == Some(active) && active.run in w.store.runs
    requires w.store.runs[active.run] == Some(operation) && operation.state == Running && operation.runID == active.run
    ensures var report := if active.sandbox in w.store.live then Managed(active.run) else Stale(active.run);
      ReadsTo(w, p, InspectActive(active, operation), 4, ReadDone(active, operation, report))
  {
    var report := if active.sandbox in w.store.live then Managed(active.run) else Stale(active.run);
    var done, look := ReadDone(active, operation, report), InspectSandbox(active, operation, Some(active));
    SecondLook(w, p, active, operation, report);
    ReadsOn(w, p, look, ReadAgain(active, operation, report), 3, done);
    ReadsOn(w, p, InspectActive(active, operation), look, 4, done);
  }

  /** While an operation runs on the active session, they report it: the six reads succeed. */
  lemma ReaderReports(w: World, p: Pid, command: Subcommand, active: ActiveSession, operation: SessionOperation)
    requires Inv(w) && p in w.procs && w.procs[p] == Waiting(command) && (command == Status || command == Attach)
    requires w.store.active == Some(active) && active.run in w.store.runs
    requires w.store.runs[active.run] == Some(operation) && operation.state == Running
    ensures var report := if active.sandbox in w.store.live then Managed(active.run) else Stale(active.run);
      After(w, [TimeOut(p)] + Reads(p, 6)) == Some(Goto(w, p, ReadDone(active, operation, report)))
  {
    var report := if active.sandbox in w.store.live then Managed(active.run) else Stale(active.run);
    var done := ReadDone(active, operation, report);
    Inspection(w, p, active, operation);
    ReadsOn(w, p, ReadOperation(active), InspectActive(active, operation), 5, done);
    ReadsOn(w, p, ReadActive, ReadOperation(active), 6, done);
    TimeOutReads(w, p, command, 6, done);
  }

  /** Without a session record, or without a running operation, there is nothing they can report. */
  lemma ReaderRefuses(w: World, p: Pid, command: Subcommand)
    requires Inv(w) && p in w.procs && w.procs[p] == Waiting(command) && (command == Status || command == Attach)
    requires w.store.active.Some? ==> !MarkedRunning(w.store, w.store.active.value.run)
    ensures After(w, [TimeOut(p)] + Reads(p, if w.store.active.None? then 1 else 2)) == Some(Goto(w, p, Ended))
  {
    if w.store.active.None? {
      ReadsOn(w, p, ReadActive, Ended, 1, Ended);
      TimeOutReads(w, p, command, 1, Ended);
    } else {
      var active := w.store.active.value;
      ReadsOn(w, p, ReadOperation(active), Ended, 1, Ended);
      ReadsOn(w, p, ReadActive, ReadOperation(active), 2, Ended);
      TimeOutReads(w, p, command, 2, Ended);
    }
  }

  /** The other commands give up. */
  lemma OthersGiveUp(w: World, p: Pid, command: Subcommand)
    requires p in w.procs && w.procs[p] == Waiting(command) && command in {Up, Down, Clean}
    ensures After(w, [TimeOut(p)]) == Some(Goto(w, p, Ended))
  {
    assert [TimeOut(p)] + [] == [TimeOut(p)];
    AfterFirst(w, TimeOut(p), [], Goto(w, p, Ended));
  }

  // ---------------------------------------------------------------- up

  /** The records of one operation: its start, and its outcome. */
  ghost predicate OneOperation(s: Store, run: RunId, first: SessionOperation, last: SessionOperation) {
    && first.id !in s.usedOperations && first.runID == run && first.state == Running
    && SameOperation(first, last) && last.state != Running
  }

  function Worked(s: Store, run: RunId, last: SessionOperation): Store {
    s.(runs := s.runs[run := Some(last)], usedOperations := s.usedOperations + {last.id})
  }

  lemma OperationBegins(means: Means, u: World, p: Pid, others: map<Pid, Pc>, s: Store, run: RunId,
                        first: SessionOperation)
    requires (forall act :: Allows(means, Does(p, act))) && Quiet(s) && ActiveIs(s, run)
    requires first.id !in s.usedOperations && first.runID == run && first.state == Running
    requires Leads(means, u, Holding(p, UpStart(run), s, others))
    ensures Leads(means, u, Holding(p, UpWork(run, first), Worked(s, run, first), others))
  {
    ReadLeads(means, u, p, others, s, UpStart(run), UpBegin(run));
    HolderLeads(means, u, p, others, s, Begin(first, Confirmed), UpBegin(run), Worked(s, run, first),
                UpWork(run, first));
  }

  /** From the session `up` works on to the release of the mutex. */
  lemma OperationEnds(means: Means, u: World, p: Pid, others: map<Pid, Pc>, s: Store, run: RunId,
                      first: SessionOperation, last: SessionOperation)
    requires (forall act :: Allows(means, Does(p, act))) && Allows(means, Release(p))
    requires Quiet(s) && ActiveIs(s, run) && OneOperation(s, run, first, last)
    requires Leads(means, u, Holding(p, UpStart(run), s, others))
    ensures Leads(means, u, World(Free, others[p := Ended], Worked(s, run, last)))
  {
    var begun := Worked(s, run, first);
    OperationBegins(means, u, p, others, s, run, first);
    HolderLeads(means, u, p, others, begun, EndWork, UpWork(run, first), begun, UpFinish(run, first));
    assert begun.runs[run := Some(last)] == s.runs[run := Some(last)];
    HolderLeads(means, u, p, others, begun, Finish(last, Confirmed), UpFinish(run, first), Worked(s, run, last),
                Releasing);
    CommandEnds(means, u, p, others, Worked(s, run, last));
  }

  lemma ReconciledQuiet(s: Store)
    requires StoreInv(s) && !Dangling(s)
    ensures StoreInv(Reconciling(s)) && Quiet(Reconciling(s))
  {
    ReconcilingKeeps(s);
  }

  /** An undisturbed `up` on a session whose Sandbox is alive runs one operation on its run. */
  lemma UpResumes(w: World, p: Pid, first: SessionOperation, last: SessionOperation)
    requires Inv(w) && !Dangling(w.store) && !w.lock.Held? && p !in w.procs
    requires w.store.active.Some? && w.store.active.value.sandbox in w.store.live
    requires OneOperation(w.store, w.store.active.value.run, first, last)
    ensures var s := Reconciling(w.store);
      Leads(Alone(p, Up), w, World(Free, w.procs[p := Ended], Worked(s, s.active.value.run, last)))
  {
    var s, means := Reconciling(w.store), Alone(p, Up);
    var run := s.active.value.run;
    ReconcilingKeeps(w.store);
    ReconciledQuiet(w.store);
    CommandReconciles(means, w, p, Up);
    ReadLeads(means, w, p, w.procs, s, UpInspect, UpStart(run));
    OperationEnds(means, w, p, w.procs, s, run, first, last);
  }

  /** What a launch adds: a run directory, a Sandbox and the record that names both. */
  function Prepared(s: Store, run: RunId): Store {
    s.(runs := s.runs[run := None], usedRuns := s.usedRuns + {run})
  }

  function Launched(s: Store, run: RunId, sandbox: SandboxId): Store {
    Prepared(s, run).(live := s.live + {sandbox}, usedSandboxes := s.usedSandboxes + {sandbox})
  }

  /** An undisturbed `up` without a session and without a Sandbox starts one, records it, and runs its operation. */
  lemma UpLaunches(w: World, p: Pid, run: RunId, sandbox: SandboxId, first: SessionOperation, last: SessionOperation)
    requires Inv(w) && !w.lock.Held? && p !in w.procs && w.store.active.None? && w.store.live == {}
    requires run !in w.store.usedRuns && sandbox !in w.store.usedSandboxes && OneOperation(w.store, run, first, last)
    ensures var s := Launched(w.store, run, sandbox).(active := Some(ActiveSession(run, sandbox)));
      Leads(Alone(p, Up), w, World(Free, w.procs[p := Ended], Worked(s, run, last)))
  {
    var s, means, others := w.store, Alone(p, Up), w.procs;
    ReconciledQuiet(s);
    CommandReconciles(means, w, p, Up);
    ReadLeads(means, w, p, others, s, UpInspect, UpPrepare);
    LaunchLeads(means, w, p, others, s, run, sandbox);
    OperationEnds(means, w, p, others, Launched(s, run, sandbox).(active := Some(ActiveSession(run, sandbox))), run,
                  first, last);
  }

  lemma LaunchLeads(means: Means, u: World, p: Pid, others: map<Pid, Pc>, s: Store, run: RunId, sandbox: SandboxId)
    requires (forall act :: Allows(means, Does(p, act))) && s.live == {}
    requires run !in s.usedRuns && sandbox !in s.usedSandboxes
    requires Leads(means, u, Holding(p, UpPrepare, s, others))
    ensures var s' := Launched(s, run, sandbox).(active := Some(ActiveSession(run, sandbox)));
      Leads(means, u, Holding(p, UpStart(run), s', others))
  {
    var prepared, launched := Prepared(s, run), Launched(s, run, sandbox);
    var recorded := launched.(active := Some(ActiveSession(run, sandbox)));
    HolderLeads(means, u, p, others, s, Prepare(run), UpPrepare, prepared, UpCheck(run));
    HolderLeads(means, u, p, others, prepared, Check, UpCheck(run), prepared, UpLaunch(run));
    HolderLeads(means, u, p, others, prepared, Launch(sandbox), UpLaunch(run), launched, UpRecord(run, sandbox));
    HolderLeads(means, u, p, others, launched, Publish, UpRecord(run, sandbox), recorded, UpStart(run));
  }

  /** Where an `up` can be that must not work: the recorded Sandbox is gone, or there is one without a record. */
  predicate Idle(pc: Pc) {
    match pc
    case Waiting(command) => command == Up
    case LoadActive(command) => command == Up
    case LoadOperation(command, _) => command == Up
    case Interrupt(command, _, _) => command == Up
    case UpInspect => true
    case Releasing => true
    case Ended => true
    case _ => false
  }

  predicate MustRefuse(s: Store) {
    if s.active.Some? then s.active.value.sandbox !in s.live else s.live != {}
  }

  /** Nothing but the state of records differs. */
  predicate OnlyRecords(s: Store, s': Store) {
    && s'.active == s.active && s'.live == s.live && s'.runs.Keys == s.runs.Keys
    && s'.usedOperations == s.usedOperations && s'.usedRuns == s.usedRuns && s'.usedSandboxes == s.usedSandboxes
  }

  ghost predicate OnlyIdle(w: World, p: Pid) {
    MustRefuse(w.store) && (w.lock.Held? ==> w.lock.owner == p) && (p in w.procs ==> Idle(w.procs[p]))
  }

  lemma IdleStep(s: Store, act: Act, pc: Pc, s': Store, pc': Pc)
    requires MustRefuse(s) && Idle(pc) && Critical(pc) && HolderStep(s, act, pc) == To(s', pc')
    ensures OnlyRecords(s, s') && Idle(pc')
  {
    if act.WriteInterrupted? {
      WriteKeepsRuns(s, pc.active.run, act.record, act.outcome);
    }
  }

  lemma IdleStays(w: World, p: Pid, a: Action, w': World)
    requires OnlyIdle(w, p) && Allows(Alone(p, Up), a) && Next(w, a) == Some(w')
    ensures OnlyIdle(w', p) && OnlyRecords(w.store, w'.store)
  {
    if a.Does? && Critical(w.procs[p]) {
      IdleStep(w.store, a.act, w.procs[p], w'.store, w'.procs[p]);
    }
  }

  /** However such an `up` goes, no operation begins, no run directory is made and no Sandbox is started. */
  lemma {:induction false} UpRefuses(w: World, p: Pid, actions: seq<Action>)
    requires OnlyIdle(w, p) && (forall a :: a in actions ==> Allows(Alone(p, Up), a)) && After(w, actions).Some?
    ensures OnlyRecords(w.store, After(w, actions).value.store)
    decreases |actions|
  {
    if actions != [] {
      var w' := Next(w, actions[0]).value;
      IdleStays(w, p, actions[0], w');
      UpRefuses(w', p, actions[1..]);
    }
  }

  // ---------------------------------------------------------------- down and clean

  /** An undisturbed `down` removes no run directory, and the session record only when its Sandbox has been ended by it
      or no Sandbox is alive at all. */
  ghost predicate DownSpares(s: Store, s': Store) {
    && s'.runs.Keys == s.runs.Keys && s'.usedRuns == s.usedRuns
    && (s'.active == s.active || (s'.active.None? && (s.active.value.sandbox in s.live || s.live == {})))
    && (s'.live == s.live || (s.active.Some? && s'.live == s.live - {s.active.value.sandbox}))
    && (s'.live != s.live ==> s.active.value.sandbox in s.live)
  }

  /** Where such a `down` can be, if it started from `s`. */
  ghost predicate Stopping(s: Store, s': Store, pc: Pc) {
    DownSpares(s, s') &&
    match pc
    case Waiting(command) => command == Down && s'.live == s.live && s'.active == s.active
    case LoadActive(command) => command == Down && s'.live == s.live && s'.active == s.active
    case LoadOperation(command, _) => command == Down && s'.live == s.live && s'.active == s.active
    case Interrupt(command, _, _) => command == Down && s'.live == s.live && s'.active == s.active
    case DownLoad => s'.live == s.live && s'.active == s.active
    case DownStop(active) => s'.live == s.live && s'.active == s.active == Some(active)
    case DownKill(active) => s'.live == s.live && s'.active == s.active == Some(active) && active.sandbox in s.live
    case DownCensus(active) => s'.live == s.live && s'.active == s.active == Some(active)
    case DownForget(active) => s'.active == s.active == Some(active) && (active.sandbox in s.live || s.live == {})
    case Releasing => true
    case Ended => true
    case _ => false
  }

  lemma StoppingStep(s: Store, s1: Store, act: Act, pc: Pc, s2: Store, pc': Pc)
    requires Stopping(s, s1, pc) && Critical(pc) && HolderStep(s1, act, pc) == To(s2, pc')
    ensures Stopping(s, s2, pc')
  {
    if act.WriteInterrupted? {
      WriteKeepsRuns(s1, pc.active.run, act.record, act.outcome);
    } else if act.Read? {
    } else {
    }
  }

  ghost predicate OnlyStopping(s: Store, w: World, p: Pid) {
    && (w.lock.Held? ==> w.lock.owner == p)
    && Stopping(s, w.store, if p in w.procs then w.procs[p] else Waiting(Down))
  }

  lemma StoppingStays(s: Store, w: World, p: Pid, a: Action, w': World)
    requires OnlyStopping(s, w, p) && Allows(Alone(p, Down), a) && Next(w, a) == Some(w')
    ensures OnlyStopping(s, w', p)
  {
    if a.Does? && Critical(w.procs[p]) {
      StoppingStep(s, w.store, a.act, w.procs[p], w'.store, w'.procs[p]);
    }
  }

  lemma {:induction false} DownSparesRuns(s: Store, w: World, p: Pid, actions: seq<Action>)
    requires OnlyStopping(s, w, p)
    requires (forall a :: a in actions ==> Allows(Alone(p, Down), a)) && After(w, actions).Some?
    ensures DownSpares(s, After(w, actions).value.store)
    decreases |actions|
  {
    if actions != [] {
      var w' := Next(w, actions[0]).value;
      StoppingStays(s, w, p, actions[0], w');
      DownSparesRuns(s, w', p, actions[1..]);
    }
  }

  /** The retry: the owned Sandbox has ended between the two inspections, and the cleanup goes on to remove
      everything. */
  lemma CleanRetries(means: Means, u: World, p: Pid, others: map<Pid, Pc>, s: Store, plan: Plan)
    requires (forall act :: Allows(means, Does(p, act))) && Allows(means, Release(p))
    requires s.active.Some? && s.live == {} && plan.protection == Protection(s.active, false)
    requires Leads(means, u, Holding(p, CleanInspect(0, Some(plan)), s, others))
    ensures Leads(means, u, World(Free, others[p := Ended], s.(runs := map[], active := None)))
  {
    var gone := Protection(s.active, true);
    var again := Plan(gone, s.runs.Keys);
    ReadLeads(means, u, p, others, s, CleanInspect(0, Some(plan)), CleanCensus(0, Some(plan), s.active));
    ReadLeads(means, u, p, others, s, CleanCensus(0, Some(plan), s.active), CleanPlan(1, gone));
    SecondAttempt(means, u, p, others, s);
    RemovalEnds(means, u, p, others, s, again);
    assert s.runs - again.candidates == map[];
  }

  lemma SecondAttempt(means: Means, u: World, p: Pid, others: map<Pid, Pc>, s: Store)
    requires Allows(means, Does(p, Read)) && s.live == {}
    requires Leads(means, u, Holding(p, CleanPlan(1, Protection(s.active, true)), s, others))
    ensures Leads(means, u, Holding(p, CleanRemove(Plan(Protection(s.active, true), s.runs.Keys)), s, others))
  {
    var gone := Protection(s.active, true);
    var again := Plan(gone, s.runs.Keys);
    assert s.runs.Keys - {} == s.runs.Keys;
    ReadLeads(means, u, p, others, s, CleanPlan(1, gone), CleanInspect(1, Some(again)));
    ReadLeads(means, u, p, others, s, CleanInspect(1, Some(again)), CleanCensus(1, Some(again), s.active));
    ReadLeads(means, u, p, others, s, CleanCensus(1, Some(again), s.active), CleanRemove(again));
  }

  // ---------------------------------------------------------------- operations

  /** Whoever works on an operation stops only by writing its outcome, or by a crash. */
  lemma OwnerWritesOutcome(w: World, a: Action, w': World, p: Pid, id: nat)
    requires Inv(w) && Next(w, a) == Some(w') && Owns(w, p, id) && !Owns(w', p, id)
    ensures a == Crash(p) ||
      (a.Does? && a.p == p && a.act.Finish? && a.act.record.id == id && a.act.record.state != Running)
  {
    if a.Does? && Critical(w.procs[a.p]) {
      assert w.lock == Held(p);
    }
  }
}
