/** When the records of the lifecycle protocol can be cleared again, and by what. */
module Repair {
  import opened Common
  import opened Operations
  import opened Lifecycle

  /** What a continuation is made of: one command that nothing else happens beside, any commands with any crashes and
      any Sandbox started meanwhile, or also Sandboxes that end by themselves. */
  datatype Means = Alone(p: Pid, command: Subcommand) | Commands | Anything

  predicate Allows(means: Means, a: Action) {
    match means
    case Alone(p, command) =>
      a == Spawn(p, command) || a == Acquire(p) || a == Release(p) || (a.Does? && a.p == p)
    case Commands => !a.SandboxExits?
    case Anything => true
  }

  /** The world after these actions, if each of them can happen. */
  function After(w: World, actions: seq<Action>): Option<World>
    decreases |actions|
  {
    if actions == [] then Some(w)
    else
      var next := Next(w, actions[0]);
      if next.None? then None else After(next.value, actions[1..])
  }

  ghost predicate LeadsBy(means: Means, w: World, w': World, actions: seq<Action>) {
    (forall a :: a in actions ==> Allows(means, a)) && After(w, actions) == Some(w')
  }

  ghost predicate Leads(means: Means, w: World, w': World) {
    exists actions :: LeadsBy(means, w, w', actions)
  }

  predicate Cleared(s: Store) {
    s.active.None? && s.runs == map[]
  }

  /** Some continuation ends with no session record and no run directory, and with the mutex free. */
  ghost predicate Clearable(means: Means, w: World) {
    exists w' :: Leads(means, w, w') && Cleared(w'.store) && w'.lock.Free?
  }

  // ---------------------------------------------------------------- continuations

  lemma LeadsStay(means: Means, w: World)
    ensures Leads(means, w, w)
  {
    assert LeadsBy(means, w, w, []);
  }

  lemma {:induction false} AfterBoth(w: World, a: seq<Action>, b: seq<Action>)
    requires After(w, a).Some?
    ensures After(w, a + b) == After(After(w, a).value, b)
    decreases |a|
  {
    if a == [] {
      assert a + b == b;
    } else {
      AfterBoth(Next(w, a[0]).value, a[1..], b);
      assert (a + b)[1..] == a[1..] + b;
    }
  }

  lemma LeadsOn(means: Means, u: World, v: World, w: World)
    requires Leads(means, u, v) && Leads(means, v, w)
    ensures Leads(means, u, w)
  {
    var a :| LeadsBy(means, u, v, a);
    var b :| LeadsBy(means, v, w, b);
    AfterBoth(u, a, b);
    assert LeadsBy(means, u, w, a + b);
  }

  lemma LeadsNext(means: Means, w: World, a: Action, w': World)
    requires Allows(means, a) && Next(w, a) == Some(w')
    ensures Leads(means, w, w')
  {
    assert After(w', [a][1..]) == Some(w');
    assert LeadsBy(means, w, w', [a]);
  }

  lemma LeadsThen(means: Means, u: World, v: World, a: Action, w: World)
    requires Leads(means, u, v) && Allows(means, a) && Next(v, a) == Some(w)
    ensures Leads(means, u, w)
  {
    LeadsNext(means, v, a, w);
    LeadsOn(means, u, v, w);
  }

  /** More may happen by more means. */
  lemma LeadsWider(p: Pid, command: Subcommand, w: World, w': World)
    requires Leads(Alone(p, command), w, w')
    ensures Leads(Commands, w, w')
  {
    var actions :| LeadsBy(Alone(p, command), w, w', actions);
    assert LeadsBy(Commands, w, w', actions);
  }

  lemma LeadsAnyhow(means: Means, w: World, w': World)
    requires Leads(means, w, w')
    ensures Leads(Anything, w, w')
  {
    var actions :| LeadsBy(means, w, w', actions);
    assert LeadsBy(Anything, w, w', actions);
  }

  lemma {:induction false} AfterKeepsInv(w: World, actions: seq<Action>)
    requires Inv(w) && After(w, actions).Some?
    ensures Inv(After(w, actions).value)
    decreases |actions|
  {
    if actions != [] {
      var w' := Next(w, actions[0]).value;
      StepKeepsInv(w, actions[0], w');
      AfterKeepsInv(w', actions[1..]);
    }
  }

  lemma LeadsKeepsInv(means: Means, w: World, w': World)
    requires Inv(w) && Leads(means, w, w')
    ensures Inv(w')
  {
    var actions :| LeadsBy(means, w, w', actions);
    AfterKeepsInv(w, actions);
  }

  // ---------------------------------------------------------------- one `clean` from beginning to end

  /** The world in which process `p` holds the mutex, whatever the others are at. */
  function Holding(p: Pid, pc: Pc, s: Store, others: map<Pid, Pc>): World {
    World(Held(p), others[p := pc], s)
  }

  lemma HolderLeads(means: Means, u: World, p: Pid, others: map<Pid, Pc>, s: Store, act: Act, pc: Pc, s': Store,
                    pc': Pc)
    requires Leads(means, u, Holding(p, pc, s, others)) && Allows(means, Does(p, act))
    requires Critical(pc) && HolderStep(s, act, pc) == To(s', pc')
    ensures Leads(means, u, Holding(p, pc', s', others))
  {
    assert others[p := pc][p := pc'] == others[p := pc'];
    LeadsThen(means, u, Holding(p, pc, s, others), Does(p, act), Holding(p, pc', s', others));
  }

  lemma ReadLeads(means: Means, u: World, p: Pid, others: map<Pid, Pc>, s: Store, pc: Pc, pc': Pc)
    requires Leads(means, u, Holding(p, pc, s, others)) && Allows(means, Does(p, Read))
    requires HolderRead(s, pc) == Some(pc')
    ensures Leads(means, u, Holding(p, pc', s, others))
  {
    HolderLeads(means, u, p, others, s, Read, pc, s, pc');
  }

  lemma CommandBegins(means: Means, w: World, p: Pid, command: Subcommand)
    requires !w.lock.Held? && p !in w.procs && Allows(means, Spawn(p, command)) && Allows(means, Acquire(p))
    ensures Leads(means, w, Holding(p, LoadActive(command), w.store, w.procs))
  {
    var waiting := Goto(w, p, Waiting(command));
    LeadsNext(means, w, Spawn(p, command), waiting);
    assert waiting.procs[p := LoadActive(command)] == w.procs[p := LoadActive(command)];
    LeadsThen(means, w, waiting, Acquire(p), Holding(p, LoadActive(command), w.store, w.procs));
  }

  /** The store after reconciliation. */
  function Reconciling(s: Store): Store {
    if s.active.Some? && MarkedRunning(s, s.active.value.run)
    then WriteRecord(s, s.active.value.run, s.runs[s.active.value.run].value.(state := Interrupted), Confirmed)
    else s
  }

  lemma ReconcilingKeeps(s: Store)
    ensures Reconciling(s).active == s.active && Reconciling(s).live == s.live
    ensures Reconciling(s).runs.Keys == s.runs.Keys
  {
  }

  /** Reconciliation gets through whenever the active run's directory is there. */
  lemma CommandReconciles(means: Means, w: World, p: Pid, command: Subcommand)
    requires StoreInv(w.store) && !Dangling(w.store) && !w.lock.Held? && p !in w.procs
    requires Allows(means, Spawn(p, command)) && Allows(means, Acquire(p)) && forall act :: Allows(means, Does(p, act))
    ensures Leads(means, w, Holding(p, Reconciled(command), Reconciling(w.store), w.procs))
  {
    var s, others := w.store, w.procs;
    CommandBegins(means, w, p, command);
    if s.active.None? {
      ReadLeads(means, w, p, others, s, LoadActive(command), Reconciled(command));
    } else {
      var active := s.active.value;
      ReadLeads(means, w, p, others, s, LoadActive(command), LoadOperation(command, active));
      if MarkedRunning(s, active.run) {
        var operation := s.runs[active.run].value;
        var record := operation.(state := Interrupted);
        ReadLeads(means, w, p, others, s, LoadOperation(command, active), Interrupt(command, active, operation));
        HolderLeads(means, w, p, others, s, WriteInterrupted(record, Confirmed), Interrupt(command, active, operation),
                    Reconciling(s), Reconciled(command));
      } else {
        ReadLeads(means, w, p, others, s, LoadOperation(command, active), Reconciled(command));
      }
    }
  }

  /** What both inspections see when nothing changes between them; None when cleanup refuses. */
  function Sighting(s: Store): Option<Protection> {
    if s.live == {} then Some(Protection(s.active, true))
    else if s.active.Some? && s.live == {s.active.value.sandbox} then Some(Protection(s.active, false))
    else None
  }

  function PlanOf(s: Store): Plan
    requires Sighting(s).Some?
  {
    var protection := Sighting(s).value;
    Plan(protection, s.runs.Keys - (if protection.gone then {} else ActiveRun(protection.active)))
  }

  lemma InspectionsAgree(means: Means, u: World, p: Pid, others: map<Pid, Pc>, s: Store)
    requires Sighting(s).Some? && Allows(means, Does(p, Read))
    requires Leads(means, u, Holding(p, CleanInspect(0, None), s, others))
    ensures Leads(means, u, Holding(p, CleanRemove(PlanOf(s)), s, others))
  {
    var protection, plan := Sighting(s).value, Some(PlanOf(s));
    ReadLeads(means, u, p, others, s, CleanInspect(0, None), CleanCensus(0, None, s.active));
    ReadLeads(means, u, p, others, s, CleanCensus(0, None, s.active), CleanPlan(0, protection));
    ReadLeads(means, u, p, others, s, CleanPlan(0, protection), CleanInspect(0, plan));
    ReadLeads(means, u, p, others, s, CleanInspect(0, plan), CleanCensus(0, plan, s.active));
    ReadLeads(means, u, p, others, s, CleanCensus(0, plan, s.active), CleanRemove(PlanOf(s)));
  }

  lemma {:induction false} CandidatesRemoved(means: Means, u: World, p: Pid, others: map<Pid, Pc>, s: Store, plan: Plan)
    requires forall act :: Allows(means, Does(p, act))
    requires Leads(means, u, Holding(p, CleanRemove(plan), s, others))
    ensures Leads(means, u,
      Holding(p, CleanRemove(plan.(candidates := {})), s.(runs := s.runs - plan.candidates), others))
    decreases plan.candidates
  {
    if plan.candidates == {} {
      assert s.runs - plan.candidates == s.runs;
      assert plan.(candidates := {}) == plan && s.(runs := s.runs - plan.candidates) == s;
    } else {
      var run :| run in plan.candidates;
      var s' := s.(runs := s.runs - {run});
      var rest := plan.(candidates := plan.candidates - {run});
      HolderLeads(means, u, p, others, s, Remove(run), CleanRemove(plan), s', CleanRemove(rest));
      CandidatesRemoved(means, u, p, others, s', rest);
      assert s'.runs - rest.candidates == s.runs - plan.candidates;
    }
  }

  /** Removal to the end: the planned directories, and with the Sandbox gone the session record. */
  lemma RemovalEnds(means: Means, u: World, p: Pid, others: map<Pid, Pc>, s: Store, plan: Plan)
    requires forall act :: Allows(means, Does(p, act))
    requires Allows(means, Release(p)) && Leads(means, u, Holding(p, CleanRemove(plan), s, others))
    requires plan.protection.active == s.active
    ensures var s' := s.(runs := s.runs - plan.candidates, active := if plan.protection.gone then None else s.active);
      Leads(means, u, World(Free, others[p := Ended], s'))
  {
    CandidatesRemoved(means, u, p, others, s, plan);
    var s1, done := s.(runs := s.runs - plan.candidates), plan.(candidates := {});
    if plan.protection.gone && s.active.Some? {
      HolderLeads(means, u, p, others, s1, RemoveDone, CleanRemove(done), s1, CleanForget(plan.protection));
      HolderLeads(means, u, p, others, s1, Forget, CleanForget(plan.protection), s1.(active := None), Releasing);
      CommandEnds(means, u, p, others, s1.(active := None));
    } else {
      HolderLeads(means, u, p, others, s1, RemoveDone, CleanRemove(done), s1, Releasing);
      CommandEnds(means, u, p, others, s1);
    }
  }

  lemma CommandEnds(means: Means, u: World, p: Pid, others: map<Pid, Pc>, s: Store)
    requires Allows(means, Release(p)) && Leads(means, u, Holding(p, Releasing, s, others))
    ensures Leads(means, u, World(Free, others[p := Ended], s))
  {
    assert others[p := Releasing][p := Ended] == others[p := Ended];
    LeadsThen(means, u, Holding(p, Releasing, s, others), Release(p), World(Free, others[p := Ended], s));
  }

  /** What one undisturbed `clean` leaves: nothing of a Sandbox that is gone, the session of one that is alive, and
      everything when it refuses. */
  function CleanOutcome(s: Store): Store {
    if Sighting(s).None? then s
    else s.(runs := s.runs - PlanOf(s).candidates, active := if s.live == {} then None else s.active)
  }

  /** `status` and `attach` clean up as well. */
  lemma CleanCompletes(w: World, p: Pid, command: Subcommand)
    requires Inv(w) && !Dangling(w.store) && !w.lock.Held? && p !in w.procs && command in {Clean, Status, Attach}
    ensures Leads(Alone(p, command), w, World(Free, w.procs[p := Ended], CleanOutcome(Reconciling(w.store))))
  {
    var s, means := Reconciling(w.store), Alone(p, command);
    ReconcilingKeeps(w.store);
    CommandReconciles(means, w, p, command);
    if Sighting(s).Some? {
      InspectionsAgree(means, w, p, w.procs, s);
      RemovalEnds(means, w, p, w.procs, s, PlanOf(s));
    } else {
      UnseenEnds(means, w, p, s);
    }
  }

  /** A Sandbox that active.json does not name ends the inspection. */
  lemma UnseenEnds(means: Means, w: World, p: Pid, s: Store)
    requires Leads(means, w, Holding(p, CleanInspect(0, None), s, w.procs)) && Sighting(s).None?
    requires Allows(means, Does(p, Read)) && Allows(means, Release(p))
    ensures Leads(means, w, World(Free, w.procs[p := Ended], s))
  {
    ReadLeads(means, w, p, w.procs, s, CleanInspect(0, None), CleanCensus(0, None, s.active));
    ReadLeads(means, w, p, w.procs, s, CleanCensus(0, None, s.active), Releasing);
    CommandEnds(means, w, p, w.procs, s);
  }

  lemma FreshPid(pids: set<Pid>) returns (p: Pid)
    ensures p !in pids && forall q :: q in pids ==> q < p
    decreases pids
  {
    p := 0;
    if pids != {} {
      var q :| q in pids;
      var r := FreshPid(pids - {q});
      p := if r > q then r else q + 1;
      assert forall x :: x in pids ==> x in pids - {q} || x == q;
    }
  }

  // ---------------------------------------------------------------- what can never happen

  lemma {:induction false} StuckAfter(w: World, actions: seq<Action>)
    requires Inv(w) && Stuck(w) && After(w, actions).Some?
    ensures Stuck(After(w, actions).value)
    decreases |actions|
  {
    if actions != [] {
      var w' := Next(w, actions[0]).value;
      StuckStays(w, actions[0], w');
      StepKeepsInv(w, actions[0], w');
      StuckAfter(w', actions[1..]);
    }
  }

  /** A `clean` while a Sandbox lives: it never plans with the Sandbox gone, and plans nothing if it must refuse. */
  predicate Cleaning(pc: Pc, refuses: bool) {
    match pc
    case Waiting(command) => command == Clean
    case LoadActive(command) => command == Clean
    case LoadOperation(command, _) => command == Clean
    case Interrupt(command, _, _) => command == Clean
    case CleanInspect(_, planned) => planned.Some? ==> !refuses && !planned.value.protection.gone
    case CleanCensus(_, planned, _) => planned.Some? ==> !refuses && !planned.value.protection.gone
    case CleanPlan(_, protection) => !refuses && !protection.gone
    case CleanRemove(plan) => !refuses && !plan.protection.gone
    case Releasing => true
    case Ended => true
    case _ => false
  }

  lemma CleaningStep(s: Store, act: Act, pc: Pc, s': Store, pc': Pc)
    requires Kept(s, pc) && HolderStep(s, act, pc) == To(s', pc')
    requires s.live != {} && Cleaning(pc, Sighting(s).None?)
    ensures
      && s'.live == s.live && s'.active == s.active && Cleaning(pc', Sighting(s).None?)
      && (Sighting(s).None? ==> s'.runs.Keys == s.runs.Keys)
      && (!Dangling(s) ==> !Dangling(s'))
  {
    if act.Read? {
      CleaningRead(s, pc, pc');
    } else if act.Stop? || act.Forget? || act.Remove? || act.RemoveDone? {
    } else if act.WriteInterrupted? {
      WriteKeepsRuns(s, pc.active.run, act.record, act.outcome);
    } else {
    }
  }

  lemma CleaningRead(s: Store, pc: Pc, pc': Pc)
    requires Kept(s, pc) && HolderRead(s, pc) == Some(pc')
    requires s.live != {} && Cleaning(pc, Sighting(s).None?)
    ensures Cleaning(pc', Sighting(s).None?)
  {
  }

  /** Only process `p`, if any, is past the lock, and it is a `clean`. */
  ghost predicate OnlyCleaning(w: World, p: Pid) {
    && Inv(w) && w.store.live != {}
    && (w.lock.Held? ==> w.lock.owner == p)
    && (p in w.procs ==> Cleaning(w.procs[p], Sighting(w.store).None?))
  }

  lemma OnlyCleaningStays(w: World, p: Pid, a: Action, w': World)
    requires OnlyCleaning(w, p) && Allows(Alone(p, Clean), a) && Next(w, a) == Some(w')
    ensures OnlyCleaning(w', p)
    ensures w'.store.live == w.store.live && w'.store.active == w.store.active
    ensures Sighting(w.store).None? ==> w'.store.runs.Keys == w.store.runs.Keys
    ensures !Dangling(w.store) ==> !Dangling(w'.store)
  {
    StepKeepsInv(w, a, w');
    if a.Does? && Critical(w.procs[p]) {
      CleaningStep(w.store, a.act, w.procs[p], w'.store, w'.procs[p]);
    }
  }

  /** However a `clean` runs while a Sandbox is alive, it keeps the session record and the run that record names, and
      with a Sandbox alive that the record does not name it removes nothing at all. */
  lemma {:induction false} CleanSparesLiveSandboxes(w: World, p: Pid, actions: seq<Action>)
    requires OnlyCleaning(w, p) && (forall a :: a in actions ==> Allows(Alone(p, Clean), a)) && After(w, actions).Some?
    ensures var s, s' := w.store, After(w, actions).value.store;
      && s'.live == s.live && s'.active == s.active && (!Dangling(s) ==> !Dangling(s'))
      && (Sighting(s).None? ==> s'.runs.Keys == s.runs.Keys)
    decreases |actions|
  {
    if actions != [] {
      var w' := Next(w, actions[0]).value;
      OnlyCleaningStays(w, p, actions[0], w');
      CleanSparesLiveSandboxes(w', p, actions[1..]);
    }
  }

  /** A Sandbox that active.json does not name is alive, and no command has come past its last check for one. */
  ghost predicate Blocked(w: World, sandbox: SandboxId) {
    && sandbox in w.store.live
    && (w.store.active.Some? ==> w.store.active.value.sandbox != sandbox)
    && (w.lock.Held? ==> w.lock.owner in w.procs && BeforeCheck(w.procs[w.lock.owner]))
  }

  predicate BeforeCheck(pc: Pc) {
    match pc
    case UpPrepare => false
    case UpLaunch(_) => false
    case UpRecord(_, _) => false
    case CleanRemove(_) => false
    case CleanForget(_) => false
    case _ => Critical(pc)
  }

  ghost predicate StillBlocked(s: Store, s': Store, pc': Pc, sandbox: SandboxId) {
    && sandbox in s'.live && (s'.active.Some? ==> s'.active.value.sandbox != sandbox)
    && BeforeCheck(pc') && s'.runs.Keys == s.runs.Keys
  }

  ghost predicate BlockedAt(s: Store, pc: Pc, sandbox: SandboxId) {
    Holds(s, pc) && BeforeCheck(pc) && sandbox in s.live && (s.active.Some? ==> s.active.value.sandbox != sandbox)
  }

  lemma BlockedRead(s: Store, pc: Pc, sandbox: SandboxId)
    requires BlockedAt(s, pc, sandbox) && HolderRead(s, pc).Some?
    ensures BeforeCheck(HolderRead(s, pc).value)
  {
    if pc.CleanCensus? {
    } else if pc.CleanInspect? || pc.CleanPlan? {
    } else if pc.UpInspect? {
    } else if pc.LoadActive? || pc.LoadOperation? {
    } else {
    }
  }

  lemma WriteKeepsRuns(s: Store, run: RunId, record: SessionOperation, outcome: WriteOutcome)
    ensures WriteRecord(s, run, record, outcome).runs.Keys == s.runs.Keys
  {
  }

  lemma BlockedWrite(s: Store, act: Act, pc: Pc, s': Store, pc': Pc, sandbox: SandboxId)
    requires BlockedAt(s, pc, sandbox) && (act.WriteInterrupted? || act.Begin? || act.Update? || act.Finish?)
    requires RecordStep(s, act, pc) == To(s', pc')
    ensures StillBlocked(s, s', pc', sandbox)
  {
    WriteKeepsRuns(s, if pc.Interrupt? then pc.active.run else pc.run, act.record, act.outcome);
    match act
    case WriteInterrupted(_, _) =>
    case Begin(_, _) =>
    case Update(_, _) =>
    case Finish(_, _) =>
  }

  lemma BlockedRemoval(s: Store, act: Act, pc: Pc, s': Store, pc': Pc, sandbox: SandboxId)
    requires BlockedAt(s, pc, sandbox) && (act.Stop? || act.Forget? || act.Remove? || act.RemoveDone?)
    requires RemovalStep(s, act, pc) == To(s', pc')
    ensures StillBlocked(s, s', pc', sandbox)
  {
  }

  lemma BlockedStep(s: Store, act: Act, pc: Pc, s': Store, pc': Pc, sandbox: SandboxId)
    requires BlockedAt(s, pc, sandbox) && HolderStep(s, act, pc) == To(s', pc')
    ensures StillBlocked(s, s', pc', sandbox)
  {
    if act.WriteInterrupted? || act.Begin? || act.Update? || act.Finish? {
      BlockedWrite(s, act, pc, s', pc', sandbox);
    } else if act.Read? {
      BlockedRead(s, pc, sandbox);
    } else if act.Stop? || act.Forget? || act.Remove? || act.RemoveDone? {
      BlockedRemoval(s, act, pc, s', pc', sandbox);
    }
  }

  lemma BlockedStays(w: World, a: Action, w': World, sandbox: SandboxId)
    requires Inv(w) && Blocked(w, sandbox) && Allows(Commands, a) && Next(w, a) == Some(w')
    ensures Blocked(w', sandbox) && w'.store.runs.Keys == w.store.runs.Keys
  {
    if a.Does? && Critical(w.procs[a.p]) {
      BlockedStep(w.store, a.act, w.procs[a.p], w'.store, w'.procs[a.p], sandbox);
    } else if a.Does? {
      ReaderStaysLockFree(w.store, w.procs[a.p]);
    }
  }

  /** While it lives no command of any kind, crashing or not, adds or removes a run directory. */
  lemma {:induction false} BlockedAfter(w: World, actions: seq<Action>, sandbox: SandboxId)
    requires Inv(w) && Blocked(w, sandbox) && (forall a :: a in actions ==> Allows(Commands, a))
    requires After(w, actions).Some?
    ensures Blocked(After(w, actions).value, sandbox)
    ensures After(w, actions).value.store.runs.Keys == w.store.runs.Keys
    decreases |actions|
  {
    if actions != [] {
      var w' := Next(w, actions[0]).value;
      BlockedStays(w, actions[0], w', sandbox);
      StepKeepsInv(w, actions[0], w');
      BlockedAfter(w', actions[1..], sandbox);
    }
  }

  // ---------------------------------------------------------------- reachable worlds

  ghost predicate Reachable(w: World) {
    exists trace :: IsRun(trace) && trace[|trace| - 1] == w
  }

  lemma ReachableStep(w: World, a: Action, w': World)
    requires Reachable(w) && Next(w, a) == Some(w')
    ensures Reachable(w')
  {
    var trace :| IsRun(trace) && trace[|trace| - 1] == w;
    var longer := trace + [w'];
    assert Step(w, w');
    forall i ensures StepAt(longer, i) {
      assert StepAt(trace, i);
    }
    assert IsRun(longer) && longer[|longer| - 1] == w';
  }

  lemma {:induction false} ReachableAfter(w: World, actions: seq<Action>)
    requires Reachable(w) && After(w, actions).Some?
    ensures Reachable(After(w, actions).value)
    decreases |actions|
  {
    if actions != [] {
      ReachableStep(w, actions[0], Next(w, actions[0]).value);
      ReachableAfter(Next(w, actions[0]).value, actions[1..]);
    }
  }

  lemma ReachableInv(w: World)
    requires Reachable(w)
    ensures Inv(w) && (Dangling(w.store) ==> Stuck(w) || InRemovalWindow(w))
  {
    var trace :| IsRun(trace) && trace[|trace| - 1] == w;
    RunKeepsInv(trace, |trace| - 1);
    DanglingInRun(trace, |trace| - 1);
  }

  lemma LeadsFromInit(w: World)
    requires Leads(Anything, INIT, w)
    ensures Reachable(w)
  {
    assert StepAt([INIT], 0);
    assert IsRun([INIT]) && [INIT][|[INIT]| - 1] == INIT;
    var actions :| LeadsBy(Anything, INIT, w, actions);
    ReachableAfter(INIT, actions);
  }

  // ---------------------------------------------------------------- exactly when records can be cleared

  lemma ReconciledOutcome(s: Store)
    ensures Cleared(CleanOutcome(Reconciling(s))) <==> Cleared(s) || s.live == {}
  {
    ReconcilingKeeps(s);
    var r := Reconciling(s);
    if s.live == {} {
      assert r.runs - PlanOf(r).candidates == map[];
    } else if s.active.None? {
      assert s.runs == map[] <==> s.runs.Keys == {};
      assert r.runs == map[] <==> r.runs.Keys == {};
    }
  }

  /** With the mutex not held, one `clean` can clear the records exactly when they are clear already, or active.json
      does not dangle and no Sandbox is alive. */
  lemma OneCleanClearsIff(w: World, p: Pid)
    requires Reachable(w) && !w.lock.Held? && p !in w.procs
    ensures Clearable(Alone(p, Clean), w) <==> Cleared(w.store) || (!Dangling(w.store) && w.store.live == {})
  {
    ReachableInv(w);
    if !Dangling(w.store) {
      CleanCompletes(w, p, Clean);
      ReconciledOutcome(w.store);
    }
    if Clearable(Alone(p, Clean), w) {
      var w' :| Leads(Alone(p, Clean), w, w') && Cleared(w'.store) && w'.lock.Free?;
      var actions :| LeadsBy(Alone(p, Clean), w, w', actions);
      if Dangling(w.store) {
        StuckAfter(w, actions);
      } else if w.store.live != {} {
        CleanSparesLiveSandboxes(w, p, actions);
        assert w.store.active.None? ==> w.store.runs == map[] by {
          assert w'.store.runs.Keys == {};
        }
      }
    }
  }

  /** What one undisturbed `down` leaves: its Sandbox is ended and the session record removed; when the Sandbox is gone
      already, the record goes only if no other Sandbox is alive. */
  function DownOutcome(s: Store): Store {
    if s.active.None? then s
    else if s.active.value.sandbox in s.live then s.(live := s.live - {s.active.value.sandbox}, active := None)
    else if s.live == {} then s.(active := None)
    else s
  }

  lemma DownCompletes(w: World, p: Pid)
    requires Inv(w) && !Dangling(w.store) && !w.lock.Held? && p !in w.procs
    ensures Leads(Alone(p, Down), w, World(Free, w.procs[p := Ended], DownOutcome(Reconciling(w.store))))
  {
    var s, means := Reconciling(w.store), Alone(p, Down);
    ReconcilingKeeps(w.store);
    CommandReconciles(means, w, p, Down);
    if s.active.None? {
      ReadLeads(means, w, p, w.procs, s, DownLoad, Releasing);
      CommandEnds(means, w, p, w.procs, s);
    } else {
      var active := s.active.value;
      ReadLeads(means, w, p, w.procs, s, DownLoad, DownStop(active));
      DownEnds(means, w, p, w.procs, s, active);
    }
  }

  lemma DownEnds(means: Means, w: World, p: Pid, others: map<Pid, Pc>, s: Store, active: ActiveSession)
    requires (forall act :: Allows(means, Does(p, act))) && Allows(means, Release(p)) && s.active == Some(active)
    requires Leads(means, w, Holding(p, DownStop(active), s, others))
    ensures Leads(means, w, World(Free, others[p := Ended], DownOutcome(s)))
  {
    if active.sandbox in s.live {
      var stopped := s.(live := s.live - {active.sandbox});
      ReadLeads(means, w, p, others, s, DownStop(active), DownKill(active));
      HolderLeads(means, w, p, others, s, Stop, DownKill(active), stopped, DownForget(active));
      DownForgets(means, w, p, others, stopped, active);
    } else {
      ReadLeads(means, w, p, others, s, DownStop(active), DownCensus(active));
      if s.live == {} {
        ReadLeads(means, w, p, others, s, DownCensus(active), DownForget(active));
        DownForgets(means, w, p, others, s, active);
      } else {
        ReadLeads(means, w, p, others, s, DownCensus(active), Releasing);
        CommandEnds(means, w, p, others, s);
      }
    }
  }

  lemma DownForgets(means: Means, w: World, p: Pid, others: map<Pid, Pc>, s: Store, active: ActiveSession)
    requires Allows(means, Does(p, Forget)) && Allows(means, Release(p))
    requires Leads(means, w, Holding(p, DownForget(active), s, others))
    ensures Leads(means, w, World(Free, others[p := Ended], s.(active := None)))
  {
    HolderLeads(means, w, p, others, s, Forget, DownForget(active), s.(active := None), Releasing);
    CommandEnds(means, w, p, others, s.(active := None));
  }

  /** A `down` that finds its Sandbox, and the `clean` after it. */
  lemma DownThenClean(w: World)
    requires Inv(w) && !Dangling(w.store) && !w.lock.Held? && w.store.active.Some?
    requires w.store.live == {w.store.active.value.sandbox}
    ensures Clearable(Commands, w)
  {
    var p := FreshPid(w.procs.Keys);
    var s := Reconciling(w.store);
    ReconcilingKeeps(w.store);
    DownCompletes(w, p);
    LeadsWider(p, Down, w, World(Free, w.procs[p := Ended], DownOutcome(s)));
    ClearsFrom(w, World(Free, w.procs[p := Ended], DownOutcome(s)));
  }

  lemma ClearsFrom(w: World, v: World)
    requires Inv(w) && Leads(Commands, w, v) && !v.lock.Held? && v.store.live == {} && !Dangling(v.store)
    ensures Clearable(Commands, w)
  {
    LeadsKeepsInv(Commands, w, v);
    var p := FreshPid(v.procs.Keys);
    CleanCompletes(v, p, Clean);
    ReconciledOutcome(v.store);
    var w' := World(Free, v.procs[p := Ended], CleanOutcome(Reconciling(v.store)));
    LeadsWider(p, Clean, v, w');
    LeadsOn(Commands, w, v, w');
  }

  /** With the mutex not held, commands alone can clear the records exactly when they are clear already, or active.json
      does not dangle and no Sandbox is alive but the one it names. */
  lemma CommandsClearIff(w: World)
    requires Reachable(w) && !w.lock.Held?
    ensures Clearable(Commands, w) <==>
      || Cleared(w.store)
      || (!Dangling(w.store) && forall x :: x in w.store.live ==>
           w.store.active.Some? && x == w.store.active.value.sandbox)
  {
    ReachableInv(w);
    var s := w.store;
    if Cleared(s) || (!Dangling(s) && s.live == {}) {
      ClearsHolding(w);
    } else if Dangling(s) {
      if Clearable(Commands, w) {
        var w' :| Leads(Commands, w, w') && Cleared(w'.store) && w'.lock.Free?;
        var actions :| LeadsBy(Commands, w, w', actions);
        StuckAfter(w, actions);
      }
    } else if x :| x in s.live && !(s.active.Some? && x == s.active.value.sandbox) {
      if Clearable(Commands, w) {
        var w' :| Leads(Commands, w, w') && Cleared(w'.store) && w'.lock.Free?;
        var actions :| LeadsBy(Commands, w, w', actions);
        BlockedAfter(w, actions, x);
      }
    } else {
      assert s.live == {s.active.value.sandbox};
      DownThenClean(w);
    }
  }

  lemma ClearsHolding(w: World)
    requires Inv(w) && !w.lock.Held? && (Cleared(w.store) || (!Dangling(w.store) && w.store.live == {}))
    ensures Clearable(Commands, w)
  {
    var p := FreshPid(w.procs.Keys);
    CleanCompletes(w, p, Clean);
    ReconciledOutcome(w.store);
    LeadsWider(p, Clean, w, World(Free, w.procs[p := Ended], CleanOutcome(Reconciling(w.store))));
  }

  lemma {:induction false} SandboxesExit(u: World, w: World)
    requires Leads(Anything, u, w)
    ensures Leads(Anything, u, w.(store := w.store.(live := {})))
    decreases w.store.live
  {
    if w.store.live == {} {
      assert w.(store := w.store.(live := {})) == w;
    } else {
      var sandbox :| sandbox in w.store.live;
      var w' := w.(store := w.store.(live := w.store.live - {sandbox}));
      LeadsThen(Anything, u, w, SandboxExits(sandbox), w');
      SandboxesExit(u, w');
    }
  }

  lemma ClearsWhenAllExit(w: World, v: World)
    requires Inv(w) && Leads(Anything, w, v) && !v.lock.Held? && !Dangling(v.store)
    ensures Clearable(Anything, w)
  {
    SandboxesExit(w, v);
    var u := v.(store := v.store.(live := {}));
    LeadsKeepsInv(Anything, w, u);
    var p := FreshPid(u.procs.Keys);
    CleanCompletes(u, p, Clean);
    ReconciledOutcome(u.store);
    var w' := World(Free, u.procs[p := Ended], CleanOutcome(Reconciling(u.store)));
    LeadsAnyhow(Alone(p, Clean), u, w');
    LeadsOn(Anything, w, u, w');
  }

  /** The removal under way can be finished. */
  lemma WindowClears(w: World)
    requires Inv(w) && InRemovalWindow(w)
    ensures Clearable(Anything, w)
  {
    var p, s := w.lock.owner, w.store;
    var pc := w.procs[p];
    assert w == Holding(p, pc, s, w.procs) by {
      assert w.procs[p := pc] == w.procs;
    }
    LeadsStay(Anything, w);
    var v;
    if pc.CleanRemove? {
      RemovalEnds(Anything, w, p, w.procs, s, pc.plan);
      v := World(Free, w.procs[p := Ended], s.(runs := s.runs - pc.plan.candidates, active := None));
    } else {
      HolderLeads(Anything, w, p, w.procs, s, Forget, pc, s.(active := None), Releasing);
      CommandEnds(Anything, w, p, w.procs, s.(active := None));
      v := World(Free, w.procs[p := Ended], s.(active := None));
    }
    ClearsWhenAllExit(w, v);
  }

  /** A reachable world has a way back to clear records exactly when it is not stuck: whatever crash there was,
      unless it fell between removing the active run's directory and active.json, a later command can clear the
      records as soon as the Sandboxes alive have ended. */
  lemma ClearableIffNotStuck(w: World)
    requires Reachable(w)
    ensures Clearable(Anything, w) <==> !Stuck(w)
  {
    ReachableInv(w);
    LeadsStay(Anything, w);
    if Stuck(w) {
      if Clearable(Anything, w) {
        var w' :| Leads(Anything, w, w') && Cleared(w'.store) && w'.lock.Free?;
        var actions :| LeadsBy(Anything, w, w', actions);
        StuckAfter(w, actions);
      }
    } else if InRemovalWindow(w) {
      WindowClears(w);
    } else if w.lock.Held? {
      var v := World(Abandoned, w.procs - {w.lock.owner}, w.store);
      LeadsThen(Anything, w, w, Crash(w.lock.owner), v);
      ClearsWhenAllExit(w, v);
    } else {
      ClearsWhenAllExit(w, w);
    }
  }

  // ---------------------------------------------------------------- Sandboxes without a session record

  ghost predicate BeingRecorded(w: World, sandbox: SandboxId) {
    w.lock.Held? && w.lock.owner in w.procs && w.procs[w.lock.owner].UpRecord? &&
      w.procs[w.lock.owner].sandbox == sandbox
  }

  /** Alive, not in active.json, and not about to be. */
  ghost predicate Unrecorded(w: World, sandbox: SandboxId) {
    && sandbox in w.store.live && (w.store.active.Some? ==> w.store.active.value.sandbox != sandbox)
    && !BeingRecorded(w, sandbox)
  }

  /** The same in terms of where the lock holder stands. */
  ghost predicate Missed(s: Store, pc: Pc, sandbox: SandboxId) {
    && sandbox in s.live && (s.active.Some? ==> s.active.value.sandbox != sandbox)
    && !(pc.UpRecord? && pc.sandbox == sandbox)
  }

  lemma UnrecordedStep(s: Store, act: Act, pc: Pc, s': Store, pc': Pc, sandbox: SandboxId)
    requires Kept(s, pc) && HolderStep(s, act, pc) == To(s', pc') && !Missed(s, pc, sandbox)
    ensures Missed(s', pc', sandbox) <==>
      sandbox in s.live && pc.UpRecord? && pc.sandbox == sandbox && act == Undo(false)
  {
    if act.WriteInterrupted? || act.Begin? || act.Update? || act.Finish? {
    } else if act.Prepare? || act.Check? {
    } else if act.Launch? || act.Publish? || act.Undo? {
    } else if act.Read? {
    } else if act.Stop? || act.Forget? {
    } else {
    }
  }

  /** A Sandbox comes to live without a record exactly by being started by hand, or by an `up` that crashes between
      starting it and writing active.json, or cannot write active.json and then fails to end the Sandbox again. */
  lemma UnrecordedIff(w: World, a: Action, w': World, sandbox: SandboxId)
    requires Inv(w) && Next(w, a) == Some(w') && !Unrecorded(w, sandbox)
    ensures Unrecorded(w', sandbox) <==>
      || a == ForeignSandboxStarts(sandbox)
      || (sandbox in w.store.live && BeingRecorded(w, sandbox)
          && (a == Crash(w.lock.owner) || a == Does(w.lock.owner, Undo(false))))
  {
    if a.Does? && Critical(w.procs[a.p]) {
      UnrecordedStep(w.store, a.act, w.procs[a.p], w'.store, w'.procs[a.p], sandbox);
    } else if a.Does? {
      ReaderStaysLockFree(w.store, w.procs[a.p]);
    }
  }

  // ---------------------------------------------------------------- runs that show it

  const PREPARED := Store(None, map[7 := None], {}, {7}, {}, {})
  const LAUNCHED := Store(None, map[7 := None], {5}, {7}, {}, {5})
  const EXAMPLE := Store(Some(ActiveSession(7, 5)), map[7 := None], {}, {7}, {}, {5})

  lemma Crashes(p: Pid, others: map<Pid, Pc>, s: Store, pc: Pc)
    requires Leads(Anything, INIT, Holding(p, pc, s, others)) && p !in others
    ensures Leads(Anything, INIT, World(Abandoned, others, s))
  {
    assert others[p := pc] - {p} == others;
    LeadsThen(Anything, INIT, Holding(p, pc, s, others), Crash(p), World(Abandoned, others, s));
  }

  lemma PreparedUp()
    ensures Leads(Anything, INIT, Holding(0, UpCheck(7), PREPARED, map[]))
  {
    var s := INIT.store;
    CommandReconciles(Anything, INIT, 0, Up);
    ReadLeads(Anything, INIT, 0, map[], s, UpInspect, UpPrepare);
    assert s.runs[7 := None] == PREPARED.runs && s.usedRuns + {7} == PREPARED.usedRuns;
    HolderLeads(Anything, INIT, 0, map[], s, Prepare(7), UpPrepare, PREPARED, UpCheck(7));
  }

  lemma LaunchedUp()
    ensures Leads(Anything, INIT, Holding(0, UpRecord(7, 5), LAUNCHED, map[]))
  {
    PreparedUp();
    HolderLeads(Anything, INIT, 0, map[], PREPARED, Check, UpCheck(7), PREPARED, UpLaunch(7));
    assert PREPARED.live + {5} == LAUNCHED.live && PREPARED.usedSandboxes + {5} == LAUNCHED.usedSandboxes;
    HolderLeads(Anything, INIT, 0, map[], PREPARED, Launch(5), UpLaunch(7), LAUNCHED, UpRecord(7, 5));
  }

  /** A first `up` crashes between starting Sandbox 5 and writing active.json. The world is not stuck, and yet no
      command can clear run 7 until the Sandbox has ended by itself. */
  lemma CrashedLaunchBlocks()
    ensures var w := World(Abandoned, map[], LAUNCHED);
      Reachable(w) && !Stuck(w) && Unrecorded(w, 5) && !Clearable(Commands, w) && Clearable(Anything, w)
  {
    var w := World(Abandoned, map[], LAUNCHED);
    LaunchedUp();
    Crashes(0, map[], LAUNCHED, UpRecord(7, 5));
    LeadsFromInit(w);
    assert 5 in w.store.live && 7 in w.store.runs;
    CommandsClearIff(w);
    ClearableIffNotStuck(w);
  }

  /** A first `up` launches a Sandbox in run 7 and crashes before its operation starts; the Sandbox exits. */
  lemma CrashedUp()
    ensures Leads(Anything, INIT, World(Abandoned, map[], EXAMPLE))
  {
    LaunchedUp();
    var s := LAUNCHED.(active := Some(ActiveSession(7, 5)));
    HolderLeads(Anything, INIT, 0, map[], LAUNCHED, Publish, UpRecord(7, 5), s, UpStart(7));
    Crashes(0, map[], s, UpStart(7));
    assert s.live - {5} == EXAMPLE.live;
    LeadsThen(Anything, INIT, World(Abandoned, map[], s), SandboxExits(5), World(Abandoned, map[], EXAMPLE));
  }

  lemma PlannedClean()
    ensures Leads(Anything, INIT, Holding(1, CleanRemove(PlanOf(EXAMPLE)), EXAMPLE, map[]))
  {
    var w := World(Abandoned, map[], EXAMPLE);
    CrashedUp();
    CommandReconciles(Anything, w, 1, Clean);
    assert Reconciling(EXAMPLE) == EXAMPLE;
    InspectionsAgree(Anything, w, 1, map[], EXAMPLE);
    LeadsOn(Anything, INIT, w, Holding(1, CleanRemove(PlanOf(EXAMPLE)), EXAMPLE, map[]));
  }

  /** The claim that cleanup can always be run again is false: here a `clean` crashes right after it removed the
      directory of run 7, and from then on no command gets past reconciliation. */
  lemma CleanupCannotAlwaysBeRepeated()
    ensures exists w :: Reachable(w) && Stuck(w)
  {
    var s, plan := EXAMPLE, PlanOf(EXAMPLE);
    PlannedClean();
    var removed, rest := s.(runs := s.runs - {7}), plan.(candidates := plan.candidates - {7});
    HolderLeads(Anything, INIT, 1, map[], s, Remove(7), CleanRemove(plan), removed, CleanRemove(rest));
    Crashes(1, map[], removed, CleanRemove(rest));
    LeadsFromInit(World(Abandoned, map[], removed));
    assert Stuck(World(Abandoned, map[], removed));
  }
}
