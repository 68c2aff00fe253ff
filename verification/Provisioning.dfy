/** One `up` and the provisioning of its run directory (session.go, reprovision.go): the phases it records, when it
    publishes ready.json, and what a repair may rely on. Any write or step may fail, and the process may die in it. */
module Provisioning {
  import opened Common
  import opened Phases

  /** What the guest's own provisioning publishes: its phases, and whether development or optional steps failed. */
  datatype Report = Report(progress: seq<string>, failures: bool, optional: bool)

  /** The phase after these. */
  function LastGuestPhase(progress: seq<string>): Phase {
    if progress == [] then DevelopmentProvisioning else Guest(progress[|progress| - 1])
  }

  /** What is known in advance of an operation: nothing, or that its writes succeed, which of its steps fails, if any,
      and what the guest reports. */
  datatype Forecast = Open | Given(fails: Option<Step>, report: Report)

  function ModeOf(wasReady: bool, repairReady: bool): Mode {
    if !wasReady then Fresh else if repairReady then Repairing else Refreshing
  }

  class RunDirectory {
    /** The directory's records: ready.json is there, and operation.json's content. */
    var ready: bool
    var record: Option<Record>
    /** Of the current operation: the last phase whose write was confirmed, the steps that succeeded, whether the
        identity has been touched, what the guest reported, and the steps that had succeeded when ready.json was first
        written. */
    ghost var confirmed: Phase
    ghost var done: seq<Step>
    ghost var touched: bool
    ghost var report: Report
    ghost var doneAtReady: seq<Step>
    /** Whether any operation on the Sandbox there is has touched the identity. */
    ghost var everTouched: bool
    var forecast: Forecast

    constructor ()
      ensures !ready && record == None && RepairIsSafe() && TouchIsRecorded() && LastTouchShows() && !everTouched
    {
      ready, record, forecast := false, None, Open;
      confirmed, done, touched, doneAtReady, everTouched := Bootstrap, [], false, [], false;
    }

    /** An identity that was ever touched leaves a record behind. */
    ghost predicate TouchIsRecorded()
      reads this
    {
      (touched ==> everTouched) && (everTouched ==> record.Some?)
    }

    /** Once the last operation has touched the identity, its record shows it. */
    ghost predicate LastTouchShows()
      reads this
    {
      touched ==> record.Some? && !PrecedesIdentity(record.value.phase)
    }

    /** The phases that allow a repair are only recorded, as a final outcome, beside a ready.json. */
    ghost predicate RepairIsSafe()
      reads this
    {
      record.Some? && record.value.state != Running && RepairPhase(record.value.phase) ==> ready
    }

    /** While an operation runs in `phase`: its record is running, and once the identity has been touched, neither the
        record nor the phase to go back to says otherwise. */
    ghost predicate InOperation(phase: Phase)
      reads this
    {
      && record.Some? && record.value.state == Running && confirmed == phase && (touched ==> everTouched)
      && (touched ==> !PrecedesIdentity(record.value.phase) && !PrecedesIdentity(phase))
    }

    /** One of these steps is bound to fail. */
    ghost predicate Stops(steps: seq<Step>)
      reads this`forecast
    {
      forecast.Given? && forecast.fails.Some? && forecast.fails.value in steps
    }

    /** The phase in which the failing step leaves the operation. */
    ghost predicate StopsIn(phase: Phase)
      requires forecast.Given? && forecast.fails.Some?
      reads this`forecast
    {
      && RunsUnder(forecast.fails.value, phase)
      && (GuestPhase(phase) ==> phase == LastGuestPhase(forecast.report.progress))
    }

    /** These steps have ended as the forecast has it. */
    ghost predicate Follows(steps: seq<Step>, r: Outcome, phase: Phase)
      reads this`forecast
    {
      forecast.Given? ==> if Stops(steps) then r == Error && StopsIn(phase) else r == Fine
    }

    /** A write of operation.json. When it fails the file is the old or the new one. */
    method Write(next: Record) returns (r: Outcome)
      modifies this`record
      ensures record == Some(next) || (r != Fine && record == old(record))
      ensures forecast.Given? ==> r == Fine
    {
      r := *;
      if forecast.Given? {
        r := Fine;
      }
      var written: bool := *;
      if r == Fine || written {
        record := Some(next);
      }
    }

    /** updateOperation: the phase in hand changes only when the write is confirmed. */
    method Update(phase: Phase, next: Phase) returns (r: Outcome, phase': Phase)
      requires InOperation(phase) && (touched ==> !PrecedesIdentity(next))
      modifies this`record, this`confirmed
      ensures InOperation(phase') && phase' == if r == Fine then next else phase
      ensures r == Fine ==> record == Some(Record(Running, next))
      ensures forecast.Given? ==> r == Fine
    {
      r := Write(Record(Running, next));
      if r == Fine {
        confirmed := next;
      }
      phase' := if r == Fine then next else phase;
    }

    /** A step, under one of its own phases. */
    method Perform(step: Step, ghost phase: Phase) returns (r: Outcome)
      requires InOperation(phase) && RunsUnder(step, phase)
      requires TouchesIdentity(step) ==> !PrecedesIdentity(record.value.phase) && !PrecedesIdentity(phase)
      modifies this`done, this`touched, this`everTouched
      ensures InOperation(phase)
      ensures r == Fine ==> done == old(done) + [step]
      ensures r != Fine ==> done == old(done)
      ensures touched == (old(touched) || TouchesIdentity(step)) && everTouched == (old(everTouched) || touched)
      ensures forecast.Given? ==> r == if forecast.fails == Some(step) then Error else Fine
    {
      r := *;
      if forecast.Given? {
        r := if forecast.fails == Some(step) then Error else Fine;
      }
      touched := touched || TouchesIdentity(step);
      everTouched := everTouched || touched;
      if r == Fine {
        done := done + [step];
      }
    }

    method WriteReady() returns (r: Outcome)
      modifies this`ready, this`doneAtReady
      ensures r == Fine ==> ready
      ensures old(ready) ==> ready && doneAtReady == old(doneAtReady)
      ensures !old(ready) && ready ==> doneAtReady == done
      ensures !ready ==> doneAtReady == old(doneAtReady)
      ensures forecast.Given? ==> r == Fine
    {
      r := *;
      if forecast.Given? {
        r := Fine;
      }
      var written: bool := *;
      if r == Fine || written {
        if !ready {
          doneAtReady := done;
        }
        ready := true;
      }
    }

    /** What the guest's provisioning script reports, in the end. */
    method GuestReports() returns (published: Report)
      modifies this`report
      ensures published == report && (forecast.Given? ==> report == forecast.report)
    {
      published := *;
      if forecast.Given? {
        published := forecast.report;
      }
      report := published;
    }

    /** Several steps in a row, up to the first that fails. */
    method PerformAll(steps: seq<Step>, ghost phase: Phase) returns (r: Outcome)
      requires InOperation(phase) && forall step :: step in steps ==> !TouchesIdentity(step) && RunsUnder(step, phase)
      modifies this`done, this`touched, this`everTouched
      ensures InOperation(phase) && touched == old(touched) && everTouched == old(everTouched)
      ensures r == Fine ==> done == old(done) + steps
      ensures forecast.Given? ==> r == if Stops(steps) then Error else Fine
    {
      r := Fine;
      assert steps[..0] == [];
      for i := 0 to |steps|
        invariant InOperation(phase) && touched == old(touched) && everTouched == old(everTouched)
        invariant r == Fine && done == old(done) + steps[..i]
        invariant !Stops(steps[..i])
      {
        r := Perform(steps[i], phase);
        if r != Fine {
          return;
        }
        assert steps[..i + 1] == steps[..i] + [steps[i]];
      }
      assert steps[..|steps|] == steps;
    }

    /** A phase: it is recorded, and its steps follow. */
    method PerformIn(phase0: Phase, next: Phase, steps: seq<Step>) returns (r: Outcome, phase: Phase)
      requires InOperation(phase0) && (touched ==> !PrecedesIdentity(next)) && !GuestPhase(next)
      requires forall step :: step in steps ==> !TouchesIdentity(step) && RunsUnder(step, next)
      modifies this`record, this`confirmed, this`done, this`touched, this`everTouched
      ensures InOperation(phase) && touched == old(touched) && everTouched == old(everTouched)
      ensures phase == phase0 || phase == next
      ensures r == Fine ==> phase == next && done == old(done) + steps
      ensures Follows(steps, r, phase)
    {
      r, phase := Update(phase0, next);
      if r == Fine {
        r := PerformAll(steps, phase);
      }
    }

    /** The connection the guest publishes, which a ready Sandbox has to keep. */
    method AwaitConnection(mode: Mode) returns (r: Outcome)
      requires InOperation(Bootstrap) && done == [] && !touched
      modifies this`done, this`touched, this`everTouched
      ensures InOperation(Bootstrap) && !touched && everTouched == old(everTouched)
      ensures r == Fine ==> done == AwaitSteps(mode)
      ensures Follows(AwaitSteps(mode), r, Bootstrap)
    {
      r := Perform(WaitConnectable, Bootstrap);
      if r == Fine && mode != Fresh {
        r := Perform(SameIdentity, Bootstrap);
      }
    }

    /** The layout and the early credentials. */
    method PrepareEarly(phase0: Phase, mode: Mode, plan: Plan) returns (r: Outcome, phase: Phase)
      requires InOperation(phase0) && !touched && PrecedesIdentity(phase0) && !RepairPhase(phase0)
      modifies this`record, this`confirmed, this`done, this`touched, this`everTouched
      ensures InOperation(phase) && !touched && everTouched == old(everTouched)
      ensures PrecedesIdentity(phase) && !RepairPhase(phase)
      ensures r == Fine ==> done == old(done) + EarlySteps(mode, plan)
      ensures Follows(EarlySteps(mode, plan), r, phase)
    {
      r, phase := Fine, phase0;
      if mode != Repairing && plan.layout {
        r, phase := PerformIn(phase, VisualStudioLayout, [PrepareLayout]);
        if r != Fine { return; }
      }
      if mode == Refreshing && plan.earlyCredentials {
        r, phase := PerformIn(phase, CredentialSync, [EarlyCredentials]);
      }
    }

    /** From the start of an operation to the provisioning snapshot, the layout and the early credentials. */
    method Connect(mode: Mode, plan: Plan) returns (r: Outcome, phase: Phase)
      requires InOperation(Bootstrap) && done == [] && !touched
      modifies this`record, this`confirmed, this`done, this`touched, this`everTouched
      ensures InOperation(phase) && !touched && everTouched == old(everTouched)
      ensures PrecedesIdentity(phase) && !RepairPhase(phase)
      ensures r == Fine ==> done == ConnectSteps(mode, plan)
      ensures Follows(ConnectSteps(mode, plan), r, phase)
    {
      phase := Bootstrap;
      r := AwaitConnection(mode);
      if r != Fine { return; }
      r, phase := PerformIn(phase, ConnectionVerification, CONNECTION_STEPS);
      if r != Fine { return; }
      r, phase := PrepareEarly(phase, mode, plan);
    }

    /** The guest's phases are recorded as they come. */
    method RecordProgress(phase0: Phase, progress: seq<string>) returns (r: Outcome, phase: Phase)
      requires InOperation(phase0) && !touched && phase0 == DevelopmentProvisioning
      modifies this`record, this`confirmed
      ensures InOperation(phase) && GuestPhase(phase) && (forecast.Given? ==> r == Fine)
      ensures r == Fine ==> phase == LastGuestPhase(progress)
    {
      r, phase := Fine, phase0;
      for i := 0 to |progress|
        invariant InOperation(phase) && r == Fine && phase == LastGuestPhase(progress[..i])
      {
        r, phase := Update(phase, Guest(progress[i]));
        if r != Fine { return; }
      }
      assert progress[..|progress|] == progress;
    }

    /** The guest's own provisioning. Failed development steps are reported, and the operation goes on. */
    method ProvisionTools(phase0: Phase) returns (r: Outcome, phase: Phase, published: Report)
      requires InOperation(phase0) && !touched && !RepairPhase(phase0)
      modifies this`record, this`confirmed, this`done, this`touched, this`everTouched, this`report
      ensures InOperation(phase) && !touched && everTouched == old(everTouched) && !RepairPhase(phase)
      ensures r == Fine ==> done == old(done) + [ProvisionGuest] && phase == LastGuestPhase(published.progress)
      ensures published == report && (forecast.Given? ==> report == forecast.report)
      ensures Follows([ProvisionGuest], r, phase)
    {
      published := GuestReports();
      r, phase := Update(phase0, DevelopmentProvisioning);
      if r != Fine { return; }
      r, phase := RecordProgress(phase, published.progress);
      if r != Fine { return; }
      r := Perform(ProvisionGuest, phase);
    }

    /** From the start of an operation to the end of the guest's own provisioning. */
    method Tools(mode: Mode, plan: Plan) returns (r: Outcome, phase: Phase, published: Report)
      requires InOperation(Bootstrap) && done == [] && !touched
      modifies this`record, this`confirmed, this`done, this`touched, this`everTouched, this`report
      ensures InOperation(phase) && !touched && everTouched == old(everTouched) && !RepairPhase(phase)
      ensures r == Fine ==> done == ToolSteps(mode, plan) && phase == LastGuestPhase(published.progress)
      ensures r == Fine ==> published == report && (forecast.Given? ==> report == forecast.report)
      ensures Follows(ToolSteps(mode, plan), r, phase)
    {
      published := Report([], false, false);
      r, phase := Connect(mode, plan);
      if r != Fine { return; }
      r, phase, published := ProvisionTools(phase);
    }

    /** finishDevelopmentProvisioning. */
    method FinishDevelopment(phase0: Phase, failures: bool) returns (r: Outcome, phase: Phase)
      requires InOperation(phase0)
      modifies this`record, this`confirmed
      ensures InOperation(phase) && (r == Fine ==> !failures)
      ensures phase == phase0 || (failures && phase == DevelopmentIncomplete)
      ensures !failures ==> r == Fine
      ensures forecast.Given? && failures ==> r == Error && phase == DevelopmentIncomplete
    {
      r, phase := Fine, phase0;
      if failures {
        r, phase := Update(phase0, DevelopmentIncomplete);
        if r == Fine {
          r := Error;
        }
      }
    }

    /** What is left of a repair after the tools: a usable Herdr server is left alone. */
    method Repair(phase: Phase, plan: Plan) returns (r: Outcome)
      requires InOperation(phase) && GuestPhase(phase)
      requires forecast.Given? ==> phase == LastGuestPhase(forecast.report.progress)
      modifies this`done, this`touched, this`everTouched
      ensures InOperation(phase) && touched == old(touched) && everTouched == old(everTouched)
      ensures r == Fine ==> done == old(done) + LaterSteps(Repairing, plan)
      ensures Follows(LaterSteps(Repairing, plan), r, phase)
    {
      r := PerformAll([VerifyReadyGuest, VerifyUnchanged] + When(plan.mobileKeys, [VerifyMobile]), phase);
    }

    method Identity(phase0: Phase, mode: Mode, plan: Plan) returns (r: Outcome, phase: Phase)
      requires InOperation(phase0) && !touched && !RepairPhase(phase0)
      modifies this`record, this`confirmed, this`done, this`touched, this`everTouched
      ensures InOperation(phase) && !RepairPhase(phase)
      ensures r == Fine ==> done == old(done) + IdentitySteps(mode, plan)
      ensures phase == phase0 || phase == TailscaleIdentity
      ensures !plan.tailscale ==> !touched
      ensures touched ==> phase == TailscaleIdentity
      ensures everTouched == (old(everTouched) || touched)
      ensures Follows(IdentitySteps(mode, plan), r, phase)
      ensures forecast.Given? ==> touched == plan.tailscale
    {
      r, phase := Fine, phase0;
      if plan.tailscale {
        r, phase := Update(phase, TailscaleIdentity);
        if r != Fine { return; }
        r := Perform(if mode == Fresh then ConfigureTailscale else CaptureTailscale, phase);
      }
    }

    method Activate(phase0: Phase) returns (r: Outcome, phase: Phase)
      requires InOperation(phase0) && !RepairPhase(phase0)
      modifies this`record, this`confirmed, this`done, this`touched, this`everTouched
      ensures InOperation(phase) && touched == old(touched) && everTouched == old(everTouched) && !RepairPhase(phase)
      ensures r == Fine ==> done == old(done) + ACTIVATION_STEPS
      ensures Follows(ACTIVATION_STEPS, r, phase)
    {
      Associate(done, [SyncConfiguration], [ProvisionHerdr, PublishHerdr]);
      r, phase := PerformIn(phase0, ConfigurationSync, [SyncConfiguration]);
      if r == Fine {
        r, phase := PerformIn(phase, HerdrProvision, [ProvisionHerdr, PublishHerdr]);
      }
    }

    method Verify(phase0: Phase) returns (r: Outcome, phase: Phase)
      requires InOperation(phase0) && !RepairPhase(phase0)
      modifies this`record, this`confirmed, this`done, this`touched, this`everTouched
      ensures InOperation(phase) && touched == old(touched) && everTouched == old(everTouched) && !RepairPhase(phase)
      ensures r == Fine ==> done == old(done) + RUNTIME_STEPS && phase == HerdrIntegrations
      ensures Follows(RUNTIME_STEPS, r, phase)
    {
      Associate(done, [VerifyHerdr], [InstallIntegrations]);
      r, phase := PerformIn(phase0, Verification, [VerifyHerdr]);
      if r == Fine {
        r, phase := PerformIn(phase, HerdrIntegrations, [InstallIntegrations]);
      }
    }

    /** The identity, the configuration and the runtime. */
    method Runtime(phase0: Phase, mode: Mode, plan: Plan) returns (r: Outcome, phase: Phase)
      requires InOperation(phase0) && !touched && !RepairPhase(phase0)
      modifies this`record, this`confirmed, this`done, this`touched, this`everTouched
      ensures InOperation(phase) && everTouched == (old(everTouched) || touched) && !RepairPhase(phase)
      ensures r == Fine ==> done == old(done) + RuntimeSteps(mode, plan) && phase == HerdrIntegrations
      ensures Follows(RuntimeSteps(mode, plan), r, phase)
      ensures forecast.Given? ==> touched == plan.tailscale
    {
      Associate(done, IdentitySteps(mode, plan), ACTIVATION_STEPS);
      Associate(done, IdentitySteps(mode, plan) + ACTIVATION_STEPS, RUNTIME_STEPS);
      r, phase := Identity(phase0, mode, plan);
      if r != Fine { return; }
      r, phase := Activate(phase);
      if r != Fine { return; }
      r, phase := Verify(phase);
    }

    method Mobile(phase0: Phase, mode: Mode, plan: Plan) returns (r: Outcome, phase: Phase)
      requires InOperation(phase0) && !RepairPhase(phase0)
      requires phase0 == HerdrIntegrations || phase0 == HerdrWorkspace
      modifies this`record, this`confirmed, this`done, this`touched, this`everTouched
      ensures InOperation(phase) && touched == old(touched) && everTouched == old(everTouched) && !RepairPhase(phase)
      ensures r == Fine ==> done == old(done) + MobileSteps(mode, plan) && RunsUnder(VerifyUnchanged, phase)
      ensures !GuestPhase(phase)
      ensures Follows(MobileSteps(mode, plan), r, phase)
    {
      Associate(done, When(plan.mobileKeys && mode == Fresh, [PrepareMobile, ActivateMobile]),
                When(plan.mobileKeys, [VerifyMobile]));
      r, phase := Fine, phase0;
      if plan.mobileKeys && mode == Fresh {
        r, phase := PerformIn(phase, MobilePreparation, [PrepareMobile, ActivateMobile]);
      }
      if plan.mobileKeys && r == Fine {
        r, phase := PerformIn(phase, MobileVerification, [VerifyMobile]);
      }
    }

    /** The initial workspaces of a fresh run; a ready Sandbox keeps its identity usable at once. */
    method Workspaces(phase0: Phase, mode: Mode) returns (r: Outcome, phase: Phase)
      requires InOperation(phase0) && phase0 == HerdrIntegrations && (mode != Fresh <==> ready)
      modifies this`record, this`confirmed, this`done, this`touched, this`everTouched, this`ready, this`doneAtReady
      ensures InOperation(phase) && touched == old(touched) && everTouched == old(everTouched)
      ensures ready == old(ready)
      ensures phase == HerdrIntegrations || phase == HerdrWorkspace
      ensures r == Fine ==> done == old(done) + When(mode == Fresh, [CreateWorkspaces])
      ensures Follows(When(mode == Fresh, [CreateWorkspaces]), r, phase)
    {
      phase := phase0;
      if mode != Fresh {
        r := WriteReady();
      } else {
        r, phase := PerformIn(phase, HerdrWorkspace, [CreateWorkspaces]);
      }
    }

    /** From the verified runtime to ready.json, which a fresh run writes last. */
    method Publish(phase0: Phase, mode: Mode, plan: Plan) returns (r: Outcome, phase: Phase)
      requires InOperation(phase0) && phase0 == HerdrIntegrations && (mode != Fresh <==> ready)
      modifies this`record, this`confirmed, this`done, this`touched, this`everTouched, this`ready, this`doneAtReady
      ensures InOperation(phase) && touched == old(touched) && everTouched == old(everTouched) && !RepairPhase(phase)
      ensures old(ready) || r == Fine ==> ready
      ensures r == Fine ==> done == old(done) + PublishSteps(mode, plan)
      ensures mode == Fresh && ready ==> doneAtReady == old(done) + PublishSteps(mode, plan)
      ensures Follows(PublishSteps(mode, plan), r, phase)
      ensures forecast.Given? && mode == Fresh ==> ready == !Stops(PublishSteps(mode, plan))
    {
      Associate(done, When(mode == Fresh, [CreateWorkspaces]), MobileSteps(mode, plan));
      Associate(done, When(mode == Fresh, [CreateWorkspaces]) + MobileSteps(mode, plan), [VerifyUnchanged]);
      r, phase := Workspaces(phase0, mode);
      if r != Fine { return; }
      r, phase := Mobile(phase, mode, plan);
      if r != Fine { return; }
      r := PerformAll([VerifyUnchanged], phase);
      if r != Fine { return; }
      if mode == Fresh {
        r := WriteReady();
      }
    }

    /** Everything after the tools, of an operation that is no repair, but the report of failed steps. */
    method Refresh(phase0: Phase, mode: Mode, plan: Plan) returns (r: Outcome, phase: Phase)
      requires InOperation(phase0) && !touched && !RepairPhase(phase0)
      requires mode != Repairing && (mode != Fresh <==> ready)
      modifies this`record, this`confirmed, this`done, this`touched, this`everTouched, this`ready, this`doneAtReady
      ensures InOperation(phase) && everTouched == (old(everTouched) || touched) && !RepairPhase(phase)
      ensures old(ready) || r == Fine ==> ready
      ensures r == Fine ==> done == old(done) + LaterSteps(mode, plan)
      ensures mode == Fresh && ready ==> doneAtReady == old(done) + LaterSteps(mode, plan)
      ensures Follows(LaterSteps(mode, plan), r, phase)
      ensures forecast.Given? ==> touched == plan.tailscale
      ensures forecast.Given? && mode == Fresh ==> ready == !Stops(LaterSteps(mode, plan))
    {
      Associate(done, RuntimeSteps(mode, plan), PublishSteps(mode, plan));
      r, phase := Runtime(phase0, mode, plan);
      if r != Fine { return; }
      r, phase := Publish(phase, mode, plan);
    }

    /** What follows the tools, but the report of failed development steps. */
    method Later(phase0: Phase, mode: Mode, plan: Plan) returns (r: Outcome, phase: Phase)
      requires InOperation(phase0) && !touched && GuestPhase(phase0) && (mode != Fresh <==> ready)
      requires forecast.Given? ==> phase0 == LastGuestPhase(forecast.report.progress)
      modifies this`record, this`confirmed, this`done, this`touched, this`everTouched, this`ready, this`doneAtReady
      ensures InOperation(phase) && everTouched == (old(everTouched) || touched) && !RepairPhase(phase)
      ensures old(ready) || r == Fine ==> ready
      ensures r == Fine ==> done == old(done) + LaterSteps(mode, plan)
      ensures mode == Fresh && ready ==> doneAtReady == old(done) + LaterSteps(mode, plan)
      ensures Follows(LaterSteps(mode, plan), r, phase)
      ensures forecast.Given? ==> touched == (plan.tailscale && mode != Repairing)
      ensures forecast.Given? && mode == Fresh ==> ready == !Stops(LaterSteps(mode, plan))
    {
      phase := phase0;
      if mode == Repairing {
        r := Repair(phase, plan);
      } else {
        r, phase := Refresh(phase, mode, plan);
      }
    }

    /** The steps of provisionSession and what it returns: with the last confirmed phase and the guest's report. */
    method Steps(mode: Mode, plan: Plan) returns (r: Outcome, phase: Phase, published: Report)
      requires InOperation(Bootstrap) && done == [] && !touched && (mode != Fresh <==> ready)
      modifies this`record, this`confirmed, this`done, this`touched, this`everTouched, this`report, this`ready,
        this`doneAtReady
      ensures InOperation(phase) && everTouched == (old(everTouched) || touched)
      ensures old(ready) || r == Fine || RepairPhase(phase) ==> ready
      ensures mode == Fresh && ready ==> doneAtReady == PlannedSteps(mode, plan)
      ensures r == Fine ==> done == PlannedSteps(mode, plan) && !published.failures && published == report
      ensures EndsAsForecast(mode, plan, r)
    {
      r, phase, published := Tools(mode, plan);
      if r != Fine { return; }
      r, phase := Later(phase, mode, plan);
      if r != Fine { return; }
      r, phase := FinishDevelopment(phase, published.failures);
    }

    /** How the steps end when it is known which of them fails: with the error of that step, in its phase; or with the
        development steps that failed in the guest; or well. */
    ghost predicate EndsAsForecast(mode: Mode, plan: Plan, r: Outcome)
      reads this
    {
      forecast.Given? ==>
        && touched == (plan.tailscale && mode != Repairing && !Stops(ToolSteps(mode, plan)))
        && (mode == Fresh ==> ready == !Stops(PlannedSteps(mode, plan)))
        && (if Stops(PlannedSteps(mode, plan)) then r == Error && StopsIn(confirmed)
            else
              && report == forecast.report
              && if report.failures then r == Error && confirmed == DevelopmentIncomplete else r == Fine)
    }

    /** provisionSession: the operation is started, and its outcome recorded whatever happens but a crash. `ended` is
        how its steps ended, once it was started. */
    method ProvisionSession(wasReady: bool, repairReady: bool, plan: Plan)
      returns (r: Outcome, ghost ended: Option<Outcome>)
      requires wasReady == ready && (repairReady ==> ready)
      requires !(record.Some? && record.value.state == Running)
      requires RepairIsSafe() && TouchIsRecorded()
      modifies this`record, this`confirmed, this`done, this`touched, this`everTouched, this`report, this`ready,
        this`doneAtReady
      ensures RepairIsSafe() && TouchIsRecorded() && everTouched == (old(everTouched) || touched)
      ensures old(ready) || r == Fine ==> ready
      // a fresh run publishes ready.json only after everything else
      ensures !wasReady && ready ==> doneAtReady == PlannedSteps(Fresh, plan)
      // once the identity has been touched, nothing this operation records says that it has not
      ensures LastTouchShows()
      // what is recorded in the end, and when
      ensures ended.None? ==>
        r != Fine && !touched && (record == old(record) || record == Some(Record(Running, Bootstrap)))
      ensures ended == Some(Fine) ==> !report.failures
      ensures ended == Some(Fine) ==>
        done == PlannedSteps(if repairReady then Repairing else if wasReady then Refreshing else Fresh, plan)
      ensures ended.Some? ==> OutcomeRecorded(ended.value, r)
      ensures r == Fine ==> ended == Some(Fine)
      ensures EndsAsForecast(ModeOf(wasReady, repairReady), plan, r)
      ensures forecast.Given? ==> ended == Some(r) && record.value.state != Running
    {
      ended, done, touched := None, [], false;
      r := Write(Record(Running, Bootstrap));
      if r != Fine { return; }
      confirmed := Bootstrap;
      ghost var result;
      r, result := Operate(ModeOf(wasReady, repairReady), plan);
      ended := Some(result);
    }

    /** A started operation: its steps, and the record of how they ended. */
    method Operate(mode: Mode, plan: Plan) returns (r: Outcome, ghost ended: Outcome)
      requires InOperation(Bootstrap) && done == [] && !touched && (mode != Fresh <==> ready)
      modifies this`record, this`confirmed, this`done, this`touched, this`everTouched, this`report, this`ready,
        this`doneAtReady
      ensures RepairIsSafe() && TouchIsRecorded() && everTouched == (old(everTouched) || touched) && LastTouchShows()
      ensures old(ready) || r == Fine ==> ready
      ensures mode == Fresh && ready ==> doneAtReady == PlannedSteps(mode, plan)
      ensures ended == Fine ==> done == PlannedSteps(mode, plan) && !report.failures
      ensures OutcomeRecorded(ended, r) && (r == Fine ==> ended == Fine)
      ensures EndsAsForecast(mode, plan, r)
      ensures forecast.Given? ==> ended == r && record.value.state != Running
    {
      var phase, published;
      r, phase, published := Steps(mode, plan);
      ended := r;
      if r == Crash { return; }
      r := Finish(r, phase, published.optional);
    }

    /** The outcome of the operation is recorded, and an error in that is its own. */
    method Finish(ended: Outcome, phase: Phase, optional: bool) returns (r: Outcome)
      requires InOperation(phase) && ended != Crash
      modifies this`record
      ensures r == Fine ==> ended == Fine
      ensures record == old(record) || record == Some(
        if ended == Error then Record(NotSucceeded, phase)
        else if optional then Record(NotSucceeded, OptionalUnavailable) else Record(Succeeded, Completed))
      ensures r == Fine || forecast.Given? ==> record.value.state != Running
      ensures forecast.Given? ==> r == ended
    {
      r := ended;
      var state, final := Succeeded, Completed;
      if optional {
        state, final := NotSucceeded, OptionalUnavailable;
      }
      if r != Fine {
        state, final := NotSucceeded, phase;
      }
      var finish := Write(Record(state, final));
      if finish != Fine {
        r := finish;
      }
    }

    /** The record after the steps ended so, and the answer is `r`: after a crash it is running, and so it may be when
        its last write failed; otherwise it says how they ended. */
    ghost predicate OutcomeRecorded(ended: Outcome, r: Outcome)
      reads this
    {
      && record.Some?
      && (ended == Crash ==> r == Crash && record.value.state == Running)
      && (ended == Error ==> r != Fine)
      && (r == Fine ==> record.value.state != Running)
      && (record.value.state != Running ==>
            match ended
            case Fine => RecordedFine()
            case Error => record.value == Record(NotSucceeded, confirmed)
            case Crash => false)
    }

    /** Interrupting the record a previous process left running. */
    method Reconcile() returns (r: Outcome)
      requires RepairIsSafe() && TouchIsRecorded()
      modifies this`record
      ensures RepairIsSafe() && TouchIsRecorded() && (old(LastTouchShows()) ==> LastTouchShows())
      ensures r == Fine && Undecided(old(record)) ==> record == Some(Record(NotSucceeded, Interrupted))
      ensures forecast.Given? ==> r == Fine
      ensures !Undecided(old(record)) ==> r == Fine && record == old(record)
      ensures record == old(record) || record == Some(Record(NotSucceeded, Interrupted))
    {
      r := Fine;
      if record.Some? && record.value.state == Running {
        r := Write(Record(NotSucceeded, Interrupted));
      }
    }

    /** One `up`, up to the end of provisioning, on the Sandbox there is or, when there is none, on a new directory.
        `resumed` and `repaired` say how an operation that was started took up what the one before it left. */
    method Up(state: SessionState, guestKnown: bool, refresh: bool, plan: Plan)
      returns (r: Outcome, resumed: bool, repaired: bool, launched: bool)
      requires RepairIsSafe() && TouchIsRecorded() && LastTouchShows() && (state == Ready ==> ready)
      modifies this`record, this`confirmed, this`done, this`touched, this`everTouched, this`report, this`ready,
        this`doneAtReady
      ensures RepairIsSafe() && TouchIsRecorded() && LastTouchShows()
      ensures r == Fine ==> ready && RecordedFine() && !report.failures
      ensures r == Fine ==>
        done == PlannedSteps(
          if repaired then Repairing else if old(ready) && !launched then Refreshing else Fresh, plan)
      ensures launched && ready ==> doneAtReady == PlannedSteps(Fresh, plan)
      ensures old(ready) && !launched ==> ready
      // only on the Sandbox there is does an earlier identity live on
      ensures old(everTouched) && !launched ==> everTouched
      ensures Undecided(old(record)) || (
        && resumed == (Retainable(state, guestKnown) && !refresh && Unfinished(old(record)))
        && repaired == (resumed && state == Ready && RepairPhase(old(record).value.phase))
        && launched == (state == Stopped))
      ensures repaired ==> resumed && old(ready)
      // a Sandbox it cannot go on with
      ensures state != Stopped && !Retainable(state, guestKnown) && !Undecided(old(record)) ==>
        r == Error && record == old(record) && ready == old(ready)
      ensures forecast.Given? && (state == Stopped || Retainable(state, guestKnown)) ==>
        && launched == (state == Stopped) && EndsAsForecast(ModeOf(old(ready) && !launched, repaired), plan, r)
        && OutcomeRecorded(r, r) && record.value.state != Running
    {
      resumed, repaired, launched := false, false, false;
      r := Reconcile();
      if r != Fine { return; }
      var retained := state != Stopped;
      var resume := retained && !refresh && record.Some? && record.value.state != Succeeded;
      var repairReady := resume && state == Ready && RepairPhase(record.value.phase);
      if retained {
        if !(state == Ready || state == Connectable || state == Starting || (state == Failed && guestKnown)) {
          r := Error;
          return;
        }
      } else {
        launched, ready, record := true, false, None;
        touched, everTouched := false, false;
      }
      resumed, repaired := resume, repairReady;
      ghost var ended;
      r, ended := ProvisionSession(ready, repairReady, plan);
    }

    /** The outcome a successful operation leaves behind. */
    ghost predicate RecordedFine()
      reads this
    {
      record ==
        Some(if report.optional then Record(NotSucceeded, OptionalUnavailable) else Record(Succeeded, Completed))
    }
  }

  /** Reconciliation has a running record to interrupt, which may fail. */
  predicate Undecided(record: Option<Record>) {
    record.Some? && record.value.state == Running
  }

  /** The operation before did not succeed. */
  predicate Unfinished(record: Option<Record>) {
    record.Some? && record.value.state != Succeeded
  }

  /** A Sandbox that `up` goes on with. */
  predicate Retainable(state: SessionState, guestKnown: bool) {
    state == Ready || state == Connectable || state == Starting || (state == Failed && guestKnown)
  }

  datatype Request = Request(guestKnown: bool, refresh: bool, plan: Plan)

  /** Any number of `up` runs, with the session found in any state in between that the files allow. */
  method Ups(directory: RunDirectory, requests: seq<Request>)
    requires directory.RepairIsSafe() && directory.TouchIsRecorded() && directory.LastTouchShows()
    modifies directory
    ensures directory.RepairIsSafe() && directory.TouchIsRecorded() && directory.LastTouchShows()
    ensures directory.forecast == old(directory.forecast)
  {
    for i := 0 to |requests|
      invariant directory.RepairIsSafe() && directory.TouchIsRecorded() && directory.LastTouchShows()
      invariant directory.forecast == old(directory.forecast)
    {
      var state: SessionState := *;
      if state == Ready && !directory.ready {
        state := Connectable;
      }
      var r, resumed, repaired, launched :=
        directory.Up(state, requests[i].guestKnown, requests[i].refresh, requests[i].plan);
    }
  }

  /** An `up` all of whose steps succeed while development steps fail in the guest, and the next one: it repairs. */
  method UpAfterFailures(directory: RunDirectory, state: SessionState, first: Request, second: Request)
    returns (resumed: bool, repaired: bool)
    requires directory.RepairIsSafe() && directory.TouchIsRecorded() && directory.LastTouchShows()
    requires state == Ready ==> directory.ready
    requires state == Stopped || Retainable(state, first.guestKnown)
    requires directory.forecast.Given? && directory.forecast.fails.None? && directory.forecast.report.failures
    modifies directory
    ensures directory.ready && resumed == repaired == !second.refresh
  {
    var r, launched;
    r, resumed, repaired, launched := directory.Up(state, first.guestKnown, first.refresh, first.plan);
    r, resumed, repaired, launched := directory.Up(Ready, second.guestKnown, second.refresh, second.plan);
  }

  /** An `up` that succeeded, and the next one on the Sandbox: it starts over after a plain success, and after one
      with optional failures it repairs what there is, unless a refresh is asked for. */
  method NextUp(directory: RunDirectory, state: SessionState, first: Request, second: Request)
    returns (resumed: bool, repaired: bool, ghost optional: bool)
    requires directory.RepairIsSafe() && directory.TouchIsRecorded() && directory.LastTouchShows()
    requires state == Ready ==> directory.ready
    modifies directory
    ensures resumed == repaired == (optional && !second.refresh)
  {
    var r, launched;
    r, resumed, repaired, launched := directory.Up(state, first.guestKnown, first.refresh, first.plan);
    optional := directory.report.optional;
    if r != Fine {
      resumed, repaired, optional := false, false, false;
      return;
    }
    r, resumed, repaired, launched := directory.Up(Ready, second.guestKnown, second.refresh, second.plan);
  }
}
